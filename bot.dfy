/** The Telegram side of `chatgpt_bot/bot.py`: the registry of sessions keyed by
    sender, the command dispatch of `Bot.handler`, how the reply text is built, and
    the file-name rule of `__transform_audio` that decides whether audio is
    converted before transcription.

    The Telegram client is not modelled: an incoming message is an `Event` value and
    `msg.respond(text)` appends `text` to `replies`. The ffmpeg conversion is an
    opaque function from (bytes, suffix) to bytes. */
module TelegramBot {
  import opened Common
  import opened PyText
  import OpenAiChat

  /** What `msg.audio` / `msg.voice` expose of an attachment. */
  datatype Media =
    | NoMedia
    | AudioFile(fileName: Option<string>, data: Bytes)   // `msg.file.name` may be None
    | VoiceNote(dcId: int, id: int, data: Bytes)

  /** One incoming Telegram message. */
  datatype Event = Event(isPrivate: bool, senderId: int, text: string, media: Media)

  /** Exceptions that escape `handler` before it responds. */
  datatype Failure =
    | LimitArgumentMissing      // `split(" ")[1]` raised IndexError
    | LimitArgumentNotInteger   // `int(...)` raised ValueError
    | AudioNameMissing          // `filename.endswith` on None raised AttributeError

  datatype Outcome = Ignored | Replied(text: string) | Raised(failure: Failure)

  /** The remote services one event may use. */
  datatype Gateways = Gateways(
    complete: seq<Message> -> OpenAiChat.CompletionResponse,
    transcribe: Bytes -> OpenAiChat.TranscriptionResponse,
    convert: (Bytes, string) -> Bytes)

  /** A session's state after one event, with what the handler did. */
  datatype Step = Step(messages: seq<Message>, tokenLimit: int, outcome: Outcome)

  const ClearCommand: string := "/clear"
  const SetLimitCommand: string := "/set_token_limit"
  const ClearedReply: string := "Cleaned bot brain."
  const SetLimitReply: string := "Set token limit to "
  const TranscriptNote: string := "\n\nMessage transcibed from audio: "
  const M4aSuffix: string := ".m4a"

  /** `int(text.split(" ")[1])`: the argument is missing exactly when the text has
      no space. */
  function LimitArgument(text: string): (r: Result<int, Failure>)
    ensures r == Err(LimitArgumentMissing) <==> ' ' !in text
  {
    SplitHasSecondField(text, ' ');
    var fields := Split(text, ' ');
    if |fields| < 2 then Err(LimitArgumentMissing)
    else match ParseInt(fields[1])
      case Some(n) => Ok(n)
      case None => Err(LimitArgumentNotInteger)
  }

  /** The second space-separated field of `word + " " + arg + rest` is `arg`, when
      neither contains a space and `rest` is empty or starts with one. */
  lemma {:induction false} SecondField(word: string, arg: string, rest: string)
    requires ' ' !in word && ' ' !in arg
    requires rest == [] || rest[0] == ' '
    ensures |Split(word + " " + arg + rest, ' ')| >= 2
    ensures Split(word + " " + arg + rest, ' ')[1] == arg
  {
    SplitWithoutSeparator(word, ' ');
    assert word + " " + arg + rest == word + [' '] + (arg + rest);
    SplitAround(word, arg + rest, ' ');
    if rest == [] {
      assert arg + rest == arg;
      SplitWithoutSeparator(arg, ' ');
    } else {
      assert arg + rest == arg + [' '] + rest[1..];
      SplitAround(arg, rest[1..], ' ');
      SplitWithoutSeparator(arg, ' ');
    }
  }

  /** The numeral `str(n)` after the command and one space is read back as `n`,
      whatever follows it after another space. */
  lemma LimitArgumentOfNumeral(n: int, rest: string)
    requires rest == [] || rest[0] == ' '
    ensures LimitArgument(SetLimitCommand + " " + IntToString(n) + rest) == Ok(n)
  {
    SecondField(SetLimitCommand, IntToString(n), rest);
    ParseIntToString(n);
  }

  /** A second field that `int()` rejects makes the handler raise `ValueError`. */
  lemma LimitArgumentRejected(word: string, arg: string, rest: string)
    requires ' ' !in word && ' ' !in arg
    requires rest == [] || rest[0] == ' '
    requires ParseInt(arg).None?
    ensures LimitArgument(word + " " + arg + rest) == Err(LimitArgumentNotInteger)
  {
    SecondField(word, arg, rest);
  }

  /** Two spaces after the command leave an empty second field, which `int()`
      rejects even though a number follows. */
  lemma DoubleSpaceRejected(n: int)
    ensures LimitArgument(SetLimitCommand + "  " + IntToString(n)) == Err(LimitArgumentNotInteger)
  {
    assert SetLimitCommand + "  " + IntToString(n) == SetLimitCommand + " " + "" + (" " + IntToString(n));
    LimitArgumentRejected(SetLimitCommand, "", " " + IntToString(n));
  }

  /** The name `__transform_audio` gives a voice note. */
  function VoiceFileName(dcId: int, id: int): string
  {
    IntToString(dcId) + "_" + IntToString(id) + ".ogg"
  }

  /** Audio is converted unless its name ends with `.m4a`. */
  predicate NeedsConversion(fileName: string)
  {
    !EndsWith(fileName, M4aSuffix)
  }

  /** `"." + filename.split(".")[-1]`: the suffix of the temporary input file. */
  function ConversionSuffix(fileName: string): string
  {
    "." + Last(Split(fileName, '.'))
  }

  lemma {:induction false} JoinLast(fields: seq<string>, sep: char)
    requires |fields| >= 2
    ensures Join(fields, sep) == Join(fields[..|fields| - 1], sep) + [sep] + Last(fields)
  {
    if |fields| > 2 {
      JoinLast(fields[1..], sep);
      assert fields[1..][..|fields| - 2] == fields[..|fields| - 1][1..];
    }
  }

  /** The suffix is the text after the last dot (a name with no dot is taken whole),
      and when there is a dot the name ends with the suffix. */
  lemma ConversionSuffixIsExtension(fileName: string)
    ensures '.' !in ConversionSuffix(fileName)[1..]
    ensures '.' in fileName ==> EndsWith(fileName, ConversionSuffix(fileName))
    ensures '.' !in fileName ==> ConversionSuffix(fileName) == "." + fileName
  {
    var fields := Split(fileName, '.');
    assert ConversionSuffix(fileName)[1..] == Last(fields);
    if '.' in fileName {
      JoinSplit(fileName, '.');
      JoinLast(fields, '.');
    } else {
      SplitWithoutSeparator(fileName, '.');
    }
  }

  /** Voice notes are always named `<dc>_<id>.ogg`, so they are always converted,
      from an `.ogg` temporary file. */
  lemma VoiceNoteConverted(dcId: int, id: int)
    ensures NeedsConversion(VoiceFileName(dcId, id))
    ensures ConversionSuffix(VoiceFileName(dcId, id)) == ".ogg"
  {
    var stem := IntToString(dcId) + "_" + IntToString(id);
    var name := VoiceFileName(dcId, id);
    assert name == stem + ['.'] + "ogg";
    SplitAround(stem, "ogg", '.');
    SplitWithoutSeparator("ogg", '.');
    assert name[|name| - 4..] == ".ogg";
  }

  /** The name `__transform_audio` goes by: `msg.file.name` for an audio file, the
      generated name for a voice note, which always calls for conversion from `.ogg`. */
  function SourceFileName(media: Media): (name: Option<string>)
    requires !media.NoMedia?
    ensures media.AudioFile? ==> name == media.fileName
    ensures media.VoiceNote? ==> name.Some? && NeedsConversion(name.value) && ConversionSuffix(name.value) == ".ogg"
  {
    if media.AudioFile? then media.fileName
    else
      VoiceNoteConverted(media.dcId, media.id);
      Some(VoiceFileName(media.dcId, media.id))
  }

  /** `__transform_audio`: the bytes handed to the transcription gateway. It fails
      only for an audio file without a name; a voice note is always converted from
      `.ogg`, and an `.m4a` file is passed through untouched. */
  function AudioForTranscription(media: Media, convert: (Bytes, string) -> Bytes): (r: Result<Bytes, Failure>)
    requires !media.NoMedia?
    ensures r.Err? <==> media.AudioFile? && media.fileName.None?
    ensures media.VoiceNote? ==> r == Ok(convert(media.data, ".ogg"))
    ensures media.AudioFile? && media.fileName.Some? && EndsWith(media.fileName.value, M4aSuffix)
            ==> r == Ok(media.data)
    ensures media.AudioFile? && media.fileName.Some? && !EndsWith(media.fileName.value, M4aSuffix)
            ==> r == Ok(convert(media.data, ConversionSuffix(media.fileName.value)))
  {
    match SourceFileName(media)
    case None => Err(AudioNameMissing)
    case Some(f) => Ok(if NeedsConversion(f) then convert(media.data, ConversionSuffix(f)) else media.data)
  }

  /** What `handler` does to one private sender's session, and how it answers. Every
      such event is answered or raises; a raise leaves the session as it was, and
      only `/set_token_limit` changes the limit. */
  function Dispatch(messages: seq<Message>, limit: int, cost: string -> nat, text: string,
                    media: Media, io: Gateways): (r: Step)
    ensures r.outcome.Replied? || r.outcome.Raised?
    ensures r.outcome.Raised? ==> r.messages == messages && r.tokenLimit == limit
    ensures r.tokenLimit != limit ==> text != ClearCommand && StartsWith(text, SetLimitCommand)
  {
    if text == ClearCommand then Step([], limit, Replied(ClearedReply))
    else if StartsWith(text, SetLimitCommand) then
      match LimitArgument(text)
      case Ok(l) => Step(messages, l, Replied(SetLimitReply + IntToString(l)))
      case Err(f) => Step(messages, limit, Raised(f))
    else Conversation(messages, limit, cost, text, media, io)
  }

  /** A message that is not a command: a `chat` turn on the text, or, with audio
      attached, a `handle_voice` turn whose answer is followed by the transcript.
      The limit never changes, and a raise leaves the session as it was. */
  function Conversation(messages: seq<Message>, limit: int, cost: string -> nat, text: string,
                        media: Media, io: Gateways): (r: Step)
    ensures r.tokenLimit == limit
    ensures r.outcome.Replied? || r.outcome.Raised?
    ensures r.outcome.Raised? ==> r.messages == messages && !media.NoMedia?
  {
    if media.NoMedia? then
      var turn := OpenAiChat.ChatTurn(messages, limit, cost, text, io.complete);
      Step(turn.0, limit, Replied(turn.1))
    else
      match AudioForTranscription(media, io.convert)
      case Err(f) => Step(messages, limit, Raised(f))
      case Ok(audio) =>
        var turn := OpenAiChat.VoiceTurn(messages, limit, cost, audio, io.transcribe, io.complete);
        Step(turn.0, limit, Replied(turn.1.0 + TranscriptNote + turn.1.1))
  }

  /** `/clear` empties the history, keeps the limit and answers "Cleaned bot brain.",
      with or without an attachment. */
  lemma ClearEmptiesHistory(messages: seq<Message>, limit: int, cost: string -> nat, media: Media, io: Gateways)
    ensures Dispatch(messages, limit, cost, ClearCommand, media, io) == Step([], limit, Replied(ClearedReply))
  {
  }

  /** `/set_token_limit N` stores `N`, whatever its sign, keeps the history and
      echoes `str(N)`. */
  lemma SetLimitStoresValue(messages: seq<Message>, limit: int, cost: string -> nat, n: int,
                            media: Media, io: Gateways)
    ensures Dispatch(messages, limit, cost, SetLimitCommand + " " + IntToString(n), media, io)
            == Step(messages, n, Replied(SetLimitReply + IntToString(n)))
  {
    var text := SetLimitCommand + " " + IntToString(n);
    LimitArgumentOfNumeral(n, "");
    assert text + "" == text;
    assert text[..|SetLimitCommand|] == SetLimitCommand;
    assert |text| != |ClearCommand|;
  }

  /** A plain text message is one `chat` turn, and the answer is `chat`'s return value. */
  lemma TextIsOneChatTurn(messages: seq<Message>, limit: int, cost: string -> nat, text: string, io: Gateways)
    requires text != ClearCommand && !StartsWith(text, SetLimitCommand)
    ensures var (h, reply) := OpenAiChat.ChatTurn(messages, limit, cost, text, io.complete);
            Dispatch(messages, limit, cost, text, NoMedia, io) == Step(h, limit, Replied(reply))
  {
  }

  /** A message with audio attached (a voice note, or a named audio file) whose
      transcribed bytes `audio` come back as `heard` is answered with the answer to
      `heard`, then the note, then `heard` itself. */
  lemma VoiceReplyShowsTranscript(messages: seq<Message>, limit: int, cost: string -> nat, text: string,
                                  media: Media, audio: Bytes, io: Gateways, raw: string, heard: string)
    requires text != ClearCommand && !StartsWith(text, SetLimitCommand)
    requires !media.NoMedia? && AudioForTranscription(media, io.convert) == Ok(audio)
    requires io.transcribe(audio) == OpenAiChat.TranscriptionReceived(raw, OpenAiChat.Transcription(heard))
    ensures var (h, reply) := OpenAiChat.ChatTurn(messages, limit, cost, heard, io.complete);
            Dispatch(messages, limit, cost, text, media, io)
            == Step(h, limit, Replied(reply + TranscriptNote + heard))
  {
  }

  /** When the transcription of the attached audio fails, the answer is "system error",
      the note, and the diagnostic shown as if it were the transcript; the history is
      left alone. */
  lemma VoiceFailureLeavesHistory(messages: seq<Message>, limit: int, cost: string -> nat, text: string,
                                  media: Media, audio: Bytes, io: Gateways)
    requires text != ClearCommand && !StartsWith(text, SetLimitCommand)
    requires !media.NoMedia? && AudioForTranscription(media, io.convert) == Ok(audio)
    requires !io.transcribe(audio).TranscriptionReceived? || !io.transcribe(audio).body.Transcription?
    ensures var diagnostic := OpenAiChat.TranscriptionMessage(io.transcribe(audio)).content;
            Dispatch(messages, limit, cost, text, media, io)
            == Step(messages, limit, Replied("system error" + TranscriptNote + diagnostic))
  {
  }

  /** An audio file without a name raises before the session is touched. */
  lemma NamelessAudioRaises(messages: seq<Message>, limit: int, cost: string -> nat, text: string,
                            data: Bytes, io: Gateways)
    requires text != ClearCommand && !StartsWith(text, SetLimitCommand)
    ensures Dispatch(messages, limit, cost, text, AudioFile(None, data), io)
            == Step(messages, limit, Raised(AudioNameMissing))
  {
  }

  /** A `/set_token_limit` text without a usable argument raises and leaves the
      session as it was, whatever is attached. */
  lemma BadLimitRaises(messages: seq<Message>, limit: int, cost: string -> nat, text: string,
                       media: Media, io: Gateways)
    requires StartsWith(text, SetLimitCommand) && LimitArgument(text).Err?
    ensures Dispatch(messages, limit, cost, text, media, io)
            == Step(messages, limit, Raised(LimitArgument(text).error))
  {
    assert |text| != |ClearCommand|;
  }

  /** The bot: one session per sender, created on first contact and never removed. */
  class Bot {
    var chats: map<int, OpenAiChat.Chat>
    /** Every text passed to `msg.respond`, in order. */
    var replies: seq<string>
    /** The tokenizer every session is created with. */
    const cost: string -> nat

    /** Distinct senders own distinct sessions, all using the bot's tokenizer. */
    ghost predicate Valid()
      reads this, chats.Values
    {
      && (forall s, t :: s in chats && t in chats && s != t ==> chats[s] != chats[t])
      && (forall s :: s in chats ==> chats[s].cost == cost)
    }

    constructor (cost: string -> nat)
      ensures Valid() && chats == map[] && replies == [] && this.cost == cost
    {
      chats := map[];
      replies := [];
      this.cost := cost;
    }

    /** The get-or-create step of `handler`. */
    method SessionFor(sender: int) returns (chat: OpenAiChat.Chat)
      requires Valid()
      modifies this`chats
      ensures Valid()
      ensures sender in old(chats) ==> chats == old(chats) && chat == old(chats)[sender]
      ensures sender !in old(chats) ==>
                && fresh(chat) && chats == old(chats)[sender := chat]
                && chat.messages == [] && chat.tokenLimit == OpenAiChat.DefaultTokenLimit
      ensures chat.cost == cost
    {
      if sender !in chats {
        var created := new OpenAiChat.Chat(cost);
        chats := chats[sender := created];
      }
      chat := chats[sender];
    }

    /** `handler(msg)`: ignore anything but private messages, fetch or create the
        sender's session, act on the message and respond once, unless it raised. */
    method Handler(ev: Event, io: Gateways) returns (outcome: Outcome)
      requires Valid()
      modifies this, chats.Values
      ensures Valid()
      ensures forall s :: s in old(chats) ==> s in chats && chats[s] == old(chats[s])
      ensures !ev.isPrivate ==> outcome == Ignored && chats == old(chats) && replies == old(replies)
      ensures ev.isPrivate ==> chats.Keys == old(chats).Keys + {ev.senderId}
      ensures ev.isPrivate && ev.senderId !in old(chats) ==> fresh(chats[ev.senderId])
      ensures forall s :: s in old(chats) && (s != ev.senderId || !ev.isPrivate) ==>
                chats[s].messages == old(chats[s].messages) && chats[s].tokenLimit == old(chats[s].tokenLimit)
      ensures ev.isPrivate ==>
                var known := ev.senderId in old(chats);
                var messages := if known then old(chats[ev.senderId].messages) else [];
                var limit := if known then old(chats[ev.senderId].tokenLimit) else OpenAiChat.DefaultTokenLimit;
                Dispatch(messages, limit, cost, ev.text, ev.media, io)
                == Step(chats[ev.senderId].messages, chats[ev.senderId].tokenLimit, outcome)
      ensures outcome.Replied? ==> replies == old(replies) + [outcome.text]
      ensures !outcome.Replied? ==> replies == old(replies)
    {
      if !ev.isPrivate {
        return Ignored;
      }
      var chat := SessionFor(ev.senderId);
      outcome := Act(chat, ev.text, ev.media, io);
      if outcome.Replied? {
        replies := replies + [outcome.text];
      }
    }
  }

  /** The body of `handler` once the session is known: run the command or the chat
      turn on `chat` and build the response text. */
  method Act(chat: OpenAiChat.Chat, text: string, media: Media, io: Gateways) returns (outcome: Outcome)
    modifies chat`messages, chat`tokenLimit
    ensures Dispatch(old(chat.messages), old(chat.tokenLimit), chat.cost, text, media, io)
            == Step(chat.messages, chat.tokenLimit, outcome)
  {
    var response := "";
    if text == ClearCommand {
      chat.CleanState();
      response := ClearedReply;
    } else if StartsWith(text, SetLimitCommand) {
      var fields := Split(text, ' ');
      if |fields| < 2 {
        return Raised(LimitArgumentMissing);
      }
      var parsed := ParseInt(fields[1]);
      if parsed.None? {
        return Raised(LimitArgumentNotInteger);
      }
      chat.SetTokenLimit(parsed.value);
      response := SetLimitReply + IntToString(parsed.value);
    } else {
      outcome := Converse(chat, text, media, io);
      return;
    }
    outcome := Replied(response);
  }

  /** The last branch of `handler`: a chat turn on the text, or on the transcript of
      the attached audio. */
  method Converse(chat: OpenAiChat.Chat, text: string, media: Media, io: Gateways) returns (outcome: Outcome)
    modifies chat`messages
    ensures Conversation(old(chat.messages), chat.tokenLimit, chat.cost, text, media, io)
            == Step(chat.messages, chat.tokenLimit, outcome)
  {
    if media.NoMedia? {
      var reply := chat.Send(text, io.complete);
      outcome := Replied(reply);
    } else {
      var audio := AudioForTranscription(media, io.convert);
      if audio.Err? {
        return Raised(audio.error);
      }
      var reply, heard := chat.HandleVoice(audio.value, io.transcribe, io.complete);
      outcome := Replied(reply + TranscriptNote + heard);
    }
  }
}
