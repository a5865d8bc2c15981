/** The few Python string and integer builtins the Telegram handler relies on:
    `str.startswith`, `str.endswith`, `str.split(sep)`, `int(str)` and `str(int)`.
    Only what the handler can observe is modelled (see README, "Left out"). */
module PyText {
  import opened Common

  predicate StartsWith(s: string, prefix: string)
  {
    |prefix| <= |s| && s[..|prefix|] == prefix
  }

  predicate EndsWith(s: string, suffix: string)
  {
    |suffix| <= |s| && s[|s| - |suffix|..] == suffix
  }

  /** `s.split(sep)` with an explicit one-character separator: every occurrence
      of `sep` cuts, empty fields are kept, and there is always at least one field. */
  function Split(s: string, sep: char): (fields: seq<string>)
    ensures |fields| >= 1
    ensures forall i :: 0 <= i < |fields| ==> sep !in fields[i]
  {
    if s == [] then [""]
    else
      var rest := Split(s[1..], sep);
      if s[0] == sep then [""] + rest
      else [[s[0]] + rest[0]] + rest[1..]
  }

  /** `sep.join(fields)`. */
  function Join(fields: seq<string>, sep: char): string
    requires |fields| >= 1
  {
    if |fields| == 1 then fields[0] else fields[0] + [sep] + Join(fields[1..], sep)
  }

  /** Python's `fields[-1]`. */
  function Last(fields: seq<string>): string
    requires |fields| >= 1
  {
    fields[|fields| - 1]
  }

  /** Prepending a character to the first field prepends it to the joined text. */
  lemma JoinExtendFirst(c: char, fields: seq<string>, sep: char)
    requires |fields| >= 1
    ensures Join([[c] + fields[0]] + fields[1..], sep) == [c] + Join(fields, sep)
  {
    var longer := [[c] + fields[0]] + fields[1..];
    if |fields| > 1 {
      assert longer[1..] == fields[1..];
    }
  }

  /** Splitting loses nothing: joining the fields back gives the original text. */
  lemma {:induction false} JoinSplit(s: string, sep: char)
    ensures Join(Split(s, sep), sep) == s
  {
    if s != [] {
      var rest := Split(s[1..], sep);
      JoinSplit(s[1..], sep);
      assert s == [s[0]] + s[1..];
      if s[0] == sep {
        assert ([""] + rest)[1..] == rest;
      } else {
        JoinExtendFirst(s[0], rest, sep);
      }
    }
  }

  /** Extending the first field of `x + y` extends the first field of `x`. */
  lemma ExtendFirstOfConcat(c: char, x: seq<string>, y: seq<string>)
    requires |x| >= 1
    ensures [[c] + (x + y)[0]] + (x + y)[1..] == ([[c] + x[0]] + x[1..]) + y
  {
    assert (x + y)[1..] == x[1..] + y;
  }

  /** A separator in the text splits the field list in two at that point. */
  lemma {:induction false} SplitAround(a: string, b: string, sep: char)
    ensures Split(a + [sep] + b, sep) == Split(a, sep) + Split(b, sep)
  {
    var s := a + [sep] + b;
    if a == [] {
      assert s[1..] == b;
    } else {
      assert s[1..] == a[1..] + [sep] + b;
      SplitAround(a[1..], b, sep);
      if a[0] != sep {
        ExtendFirstOfConcat(a[0], Split(a[1..], sep), Split(b, sep));
      }
    }
  }

  /** There is a second field exactly when the separator occurs in the text. */
  lemma SplitHasSecondField(s: string, sep: char)
    ensures |Split(s, sep)| >= 2 <==> sep in s
  {
    if sep in s {
      JoinSplit(s, sep);
    } else {
      SplitWithoutSeparator(s, sep);
    }
  }

  /** Text without the separator is a single field. */
  lemma {:induction false} SplitWithoutSeparator(s: string, sep: char)
    requires sep !in s
    ensures Split(s, sep) == [s]
  {
    if s != [] {
      assert sep !in s[1..] by {
        forall c | c in s[1..] ensures c != sep {
          var k :| 1 <= k < |s| && s[k] == c;
        }
      }
      SplitWithoutSeparator(s[1..], sep);
      assert s == [s[0]] + s[1..];
    }
  }

  predicate IsDigit(c: char)
  {
    '0' <= c <= '9'
  }

  /** The characters Python's `int()` skips around a number in ASCII text: space,
      tab, line feed, vertical tab, form feed and carriage return. */
  predicate IsSpace(c: char)
  {
    c == ' ' || '\t' <= c <= '\r'
  }

  function LStrip(s: string): string
  {
    if s != [] && IsSpace(s[0]) then LStrip(s[1..]) else s
  }

  function RStrip(s: string): string
  {
    if s != [] && IsSpace(s[|s| - 1]) then RStrip(s[..|s| - 1]) else s
  }

  /** A base-10 literal as `int()` accepts it: digits, with single underscores
      allowed only between two digits. */
  predicate IsDigitRun(s: string)
  {
    && |s| > 0
    && IsDigit(s[0])
    && IsDigit(s[|s| - 1])
    && (forall i :: 0 <= i < |s| ==> IsDigit(s[i]) || s[i] == '_')
    && (forall i :: 0 <= i < |s| - 1 ==> s[i] == '_' ==> s[i + 1] != '_')
  }

  /** The value of a digit run; underscores only separate digit groups. */
  function DigitValue(s: string): nat
  {
    if s == [] then 0
    else if s[|s| - 1] == '_' then DigitValue(s[..|s| - 1])
    else DigitValue(s[..|s| - 1]) * 10 + if IsDigit(s[|s| - 1]) then s[|s| - 1] as int - '0' as int else 0
  }

  /** `int(s)` on ASCII text: surrounding whitespace, an optional sign and a digit run;
      `None` where Python raises `ValueError`. */
  function ParseInt(s: string): Option<int>
  {
    var t := RStrip(LStrip(s));
    if |t| > 0 && (t[0] == '-' || t[0] == '+') then
      if IsDigitRun(t[1..]) then
        Some(if t[0] == '-' then 0 - DigitValue(t[1..]) else DigitValue(t[1..]) as int)
      else None
    else if IsDigitRun(t) then Some(DigitValue(t))
    else None
  }

  /** The ASCII information separators `\x1c` to `\x1f` are not stripped, so
      `int("\x1c5")` raises. */
  lemma SeparatorBeforeDigitsRejected()
    ensures ParseInt("\U{1C}5") == None
  {
    assert !IsSpace('\U{1C}');
  }

  function DigitChar(d: nat): char
    requires d < 10
  {
    ('0' as int + d) as char
  }

  /** `str(n)` for a non-negative `n`: the shortest decimal numeral. */
  function NatToString(n: nat): (s: string)
    ensures |s| > 0
    ensures forall i :: 0 <= i < |s| ==> IsDigit(s[i])
    ensures n > 0 ==> s[0] != '0'
  {
    if n < 10 then [DigitChar(n)] else NatToString(n / 10) + [DigitChar(n % 10)]
  }

  /** `str(n)`: a minus sign exactly for negative numbers, then the digits; never a space. */
  function IntToString(n: int): (s: string)
    ensures |s| > 0 && (s[0] == '-' <==> n < 0)
    ensures ' ' !in s
  {
    if n < 0 then "-" + NatToString(-n) else NatToString(n)
  }

  lemma {:induction false} DigitValueOfNatToString(n: nat)
    ensures DigitValue(NatToString(n)) == n
  {
    var s := NatToString(n);
    if n >= 10 {
      DigitValueOfNatToString(n / 10);
      assert s[..|s| - 1] == NatToString(n / 10);
    }
  }

  /** `int(str(n)) == n`: the rendering the handler echoes back parses to the same value. */
  lemma {:induction false} ParseIntToString(n: int)
    ensures ParseInt(IntToString(n)) == Some(n)
  {
    var s := IntToString(n);
    var digits := NatToString(if n < 0 then -n else n);
    DigitValueOfNatToString(if n < 0 then -n else n);
    assert !IsSpace(s[0]) && !IsSpace(s[|s| - 1]);
    assert LStrip(s) == s;
    assert RStrip(s) == s;
    assert IsDigitRun(digits);
    if n < 0 {
      assert s[1..] == digits;
    }
  }
}
