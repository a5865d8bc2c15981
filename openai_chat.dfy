/** The per-user conversation session of `chatgpt_bot/openai.py` (class `Chat`):
    an ordered window of messages, a token budget, front eviction, one call to the
    completion gateway per user turn with rollback of the user turn on failure, and
    the speech-to-text pre-step.

    The tokenizer is the session's `cost` (text to token count), left abstract.
    Both HTTP gateways are parameters: a function from what is sent to the raw
    outcome of the request, which this module classifies as the source does. */
module OpenAiChat {
  import opened Common

  /** Class-level default of `Chat.token_limit`. */
  const DefaultTokenLimit: int := 3500

  /** What `POST /chat/completions` produced. */
  datatype CompletionResponse =
    | CompletionUnreachable(error: string)                 // the request or the first JSON decode raised
    | CompletionReceived(raw: string, body: CompletionBody)

  datatype CompletionBody =
    | MalformedCompletion(error: string)                   // the response did not validate
    | Completion(choices: seq<Message>)

  /** What `POST /audio/transcriptions` produced. */
  datatype TranscriptionResponse =
    | TranscriptionUnreachable(error: string)
    | TranscriptionReceived(raw: string, body: TranscriptionBody)

  datatype TranscriptionBody =
    | MalformedTranscription(error: string)
    | Transcription(text: string)

  function UnreachableText(error: string): string
  {
    "Error: " + error
  }

  function ParseFailureText(service: string, error: string, raw: string): string
  {
    "Error while parsing response from " + service + ":\n" + error + ";\n\nRaw response:\n" + raw
  }

  /** `__make_chatgpt_request`: the first choice's message, or a `system` message
      carrying the diagnostic when the request, the decoding or `choices[0]` fails. */
  function CompletionMessage(resp: CompletionResponse): (m: Message)
    ensures resp.CompletionReceived? && resp.body.Completion? && |resp.body.choices| > 0
            ==> m == resp.body.choices[0]
    ensures !(resp.CompletionReceived? && resp.body.Completion? && |resp.body.choices| > 0)
            ==> m.role == SystemRole
    ensures resp.CompletionUnreachable? ==> m.content == UnreachableText(resp.error)
  {
    match resp
    case CompletionUnreachable(e) => Message(SystemRole, UnreachableText(e))
    case CompletionReceived(raw, MalformedCompletion(e)) =>
      Message(SystemRole, ParseFailureText("OpenAI", e, raw))
    case CompletionReceived(raw, Completion(choices)) =>
      if |choices| > 0 then choices[0]
      else Message(SystemRole, ParseFailureText("OpenAI", IndexErrorText, raw))
  }

  /** `__make_whisper_request`: a `user` message holding the recognised text, or a
      `system` message carrying the diagnostic. */
  function TranscriptionMessage(resp: TranscriptionResponse): (m: Message)
    ensures m.role == UserRole <==> resp.TranscriptionReceived? && resp.body.Transcription?
    ensures m.role != UserRole ==> m.role == SystemRole
    ensures m.role == UserRole ==> m.content == resp.body.text
  {
    match resp
    case TranscriptionUnreachable(e) =>
      Message(SystemRole, "Error while sending request to OpenAI Whisper: " + e)
    case TranscriptionReceived(raw, MalformedTranscription(e)) =>
      Message(SystemRole, ParseFailureText("OpenAI Whisper", e, raw))
    case TranscriptionReceived(_, Transcription(text)) =>
      Message(UserRole, text)
  }

  /** `__get_token_count`: the summed cost of every message's content. */
  function TokenCount(msgs: seq<Message>, cost: string -> nat): nat
  {
    if msgs == [] then 0 else cost(msgs[0].content) + TokenCount(msgs[1..], cost)
  }

  lemma {:induction false} TokenCountAppend(a: seq<Message>, b: seq<Message>, cost: string -> nat)
    ensures TokenCount(a + b, cost) == TokenCount(a, cost) + TokenCount(b, cost)
  {
    if a != [] {
      assert (a + b)[0] == a[0];
      assert (a + b)[1..] == a[1..] + b;
      TokenCountAppend(a[1..], b, cost);
    } else {
      assert a + b == b;
    }
  }

  /** The window `__limit_messages` leaves: drop the oldest message while the total
      cost exceeds the limit and more than one message remains. The result is a
      suffix of the input, fits the limit unless a single message is left, and a
      non-empty window keeps at least its newest message. */
  function Evict(msgs: seq<Message>, limit: int, cost: string -> nat): (r: seq<Message>)
    ensures |r| <= |msgs| && r == msgs[|msgs| - |r|..]
    ensures TokenCount(r, cost) <= limit || |r| <= 1
    ensures |msgs| > 0 ==> |r| > 0
    decreases |msgs|
  {
    if TokenCount(msgs, cost) > limit && |msgs| > 1 then Evict(msgs[1..], limit, cost) else msgs
  }

  /** Eviction removes nothing it does not have to: every longer suffix of the input
      was over the limit and held more than one message. */
  lemma {:induction false} EvictOnlyWhenOver(msgs: seq<Message>, limit: int, cost: string -> nat, k: nat)
    requires k < |msgs| - |Evict(msgs, limit, cost)|
    ensures TokenCount(msgs[k..], cost) > limit && |msgs| - k > 1
  {
    if k > 0 {
      assert msgs[1..][k - 1..] == msgs[k..];
      EvictOnlyWhenOver(msgs[1..], limit, cost, k - 1);
    }
  }

  /** The window `chat` sends: the history plus the new user turn, after eviction. */
  function Sent(history: seq<Message>, limit: int, cost: string -> nat, prompt: string): (w: seq<Message>)
    ensures 0 < |w| <= |history| + 1 && w == (history + [UserMessage(prompt)])[|history| + 1 - |w|..]
    ensures w[|w| - 1] == UserMessage(prompt)
  {
    var all := history + [UserMessage(prompt)];
    var w := Evict(all, limit, cost);
    assert w[|w| - 1] == all[|all| - 1];
    w
  }

  /** One `chat(prompt)`: the new history and the returned text. On success the reply
      is appended to the sent window; on a `system` reply the user turn is popped. */
  function ChatTurn(history: seq<Message>, limit: int, cost: string -> nat, prompt: string,
                    complete: seq<Message> -> CompletionResponse): (seq<Message>, string)
  {
    var sent := Sent(history, limit, cost, prompt);
    Settle(sent, CompletionMessage(complete(sent)))
  }

  /** What `chat` does with the gateway's message `msg` after sending `sent`. */
  function Settle(sent: seq<Message>, msg: Message): (seq<Message>, string)
    requires |sent| > 0
  {
    (if msg.role != SystemRole then sent + [msg] else sent[..|sent| - 1],
     msg.role + ": " + msg.content)
  }

  /** One `handle_voice(audio)`: the new history and the pair (answer, transcribed text). */
  function VoiceTurn(history: seq<Message>, limit: int, cost: string -> nat, audio: Bytes,
                     transcribe: Bytes -> TranscriptionResponse,
                     complete: seq<Message> -> CompletionResponse): (seq<Message>, (string, string))
  {
    var heard := TranscriptionMessage(transcribe(audio));
    if heard.role == SystemRole then (history, ("system error", heard.content))
    else
      var (h, reply) := ChatTurn(history, limit, cost, heard.content, complete);
      (h, (reply, heard.content))
  }

  /** A successful turn stores the sent window followed by the reply, answers
      `role: content`, and the sent window ends with the prompt and fits the limit
      unless the prompt alone is left. */
  lemma SuccessfulTurn(history: seq<Message>, limit: int, cost: string -> nat, prompt: string,
                       complete: seq<Message> -> CompletionResponse)
    requires CompletionMessage(complete(Sent(history, limit, cost, prompt))).role != SystemRole
    ensures var sent := Sent(history, limit, cost, prompt);
            var msg := CompletionMessage(complete(sent));
            && ChatTurn(history, limit, cost, prompt, complete) == (sent + [msg], msg.role + ": " + msg.content)
            && (TokenCount(sent, cost) <= limit || sent == [UserMessage(prompt)])
  {
  }

  /** The reply is appended without a second eviction, so a reply costing more than
      the limit leaves the stored window over the limit. */
  lemma SuccessMayExceedLimit(history: seq<Message>, limit: int, cost: string -> nat, prompt: string,
                              complete: seq<Message> -> CompletionResponse)
    requires CompletionMessage(complete(Sent(history, limit, cost, prompt))).role != SystemRole
    requires cost(CompletionMessage(complete(Sent(history, limit, cost, prompt))).content) > limit
    ensures TokenCount(ChatTurn(history, limit, cost, prompt, complete).0, cost) > limit
  {
    var sent := Sent(history, limit, cost, prompt);
    var msg := CompletionMessage(complete(sent));
    TokenCountAppend(sent, [msg], cost);
    assert TokenCount([msg], cost) == cost(msg.content);
  }

  /** Dropping the newest message of a suffix of `history + [u]` leaves a suffix of `history`. */
  lemma DropLastOfSuffix(history: seq<Message>, u: Message, w: seq<Message>)
    requires 0 < |w| <= |history| + 1 && w == (history + [u])[|history| + 1 - |w|..]
    ensures w[..|w| - 1] == history[|history| + 1 - |w|..]
  {
    var all := history + [u];
    forall i | 0 <= i < |w| - 1 ensures w[i] == history[|history| + 1 - |w| + i] {
      assert w[i] == all[|history| + 1 - |w| + i];
    }
  }

  /** One round of the eviction loop: drop the oldest message. */
  lemma EvictStep(msgs: seq<Message>, limit: int, cost: string -> nat)
    requires TokenCount(msgs, cost) > limit && |msgs| > 1
    ensures Evict(msgs, limit, cost) == Evict(msgs[1..], limit, cost)
  {
  }

  /** The eviction loop stops once the window fits or holds at most one message. */
  lemma EvictStop(msgs: seq<Message>, limit: int, cost: string -> nat)
    requires TokenCount(msgs, cost) <= limit || |msgs| <= 1
    ensures Evict(msgs, limit, cost) == msgs
  {
  }

  /** Eviction of a window that is over the limit with more than one message
      removes at least one message. */
  lemma EvictShrinks(msgs: seq<Message>, limit: int, cost: string -> nat)
    requires TokenCount(msgs, cost) > limit && |msgs| > 1
    ensures |Evict(msgs, limit, cost)| < |msgs|
  {
    assert Evict(msgs, limit, cost) == Evict(msgs[1..], limit, cost);
  }

  /** Popping the prompt off the sent window gives back the old history exactly
      when eviction removed nothing. */
  lemma PopRestoresIff(history: seq<Message>, limit: int, cost: string -> nat, prompt: string)
    ensures var sent := Sent(history, limit, cost, prompt);
            sent[..|sent| - 1] == history <==> history == [] || TokenCount(history, cost) + cost(prompt) <= limit
  {
    var all := history + [UserMessage(prompt)];
    var sent := Sent(history, limit, cost, prompt);
    TokenCountAppend(history, [UserMessage(prompt)], cost);
    assert TokenCount([UserMessage(prompt)], cost) == cost(prompt);
    if history == [] || TokenCount(history, cost) + cost(prompt) <= limit {
      assert sent == all;
      assert all[..|all| - 1] == history;
    } else {
      EvictShrinks(all, limit, cost);
    }
  }

  /** A failed turn pops the user turn from the sent window: what remains is a suffix
      of the old history, the answer is the diagnostic, and it equals the old history
      exactly when nothing was evicted before the request. */
  lemma FailedTurn(history: seq<Message>, limit: int, cost: string -> nat, prompt: string,
                   complete: seq<Message> -> CompletionResponse)
    requires CompletionMessage(complete(Sent(history, limit, cost, prompt))).role == SystemRole
    ensures var sent := Sent(history, limit, cost, prompt);
            var kept := sent[..|sent| - 1];
            && ChatTurn(history, limit, cost, prompt, complete)
               == (kept, SystemRole + ": " + CompletionMessage(complete(sent)).content)
            && |kept| <= |history| && kept == history[|history| - |kept|..]
            && (kept == history <==> history == [] || TokenCount(history, cost) + cost(prompt) <= limit)
  {
    var sent := Sent(history, limit, cost, prompt);
    DropLastOfSuffix(history, UserMessage(prompt), sent);
    PopRestoresIff(history, limit, cost, prompt);
  }

  /** `handle_voice`: a failed transcription leaves the history alone and answers
      ("system error", diagnostic); otherwise the recognised text goes through `chat`. */
  lemma VoiceTurnCases(history: seq<Message>, limit: int, cost: string -> nat, audio: Bytes,
                       transcribe: Bytes -> TranscriptionResponse,
                       complete: seq<Message> -> CompletionResponse)
    ensures var heard := transcribe(audio);
            var r := VoiceTurn(history, limit, cost, audio, transcribe, complete);
            if heard.TranscriptionReceived? && heard.body.Transcription? then
              var (h, reply) := ChatTurn(history, limit, cost, heard.body.text, complete);
              r == (h, (reply, heard.body.text))
            else
              r == (history, ("system error", TranscriptionMessage(heard).content))
  {
  }

  /** One user's session: `messages` and `token_limit` change in place. */
  class Chat {
    var messages: seq<Message>
    var tokenLimit: int
    /** Token cost of a text under the tokenizer shared by all sessions. */
    const cost: string -> nat

    constructor (cost: string -> nat)
      ensures messages == [] && tokenLimit == DefaultTokenLimit && this.cost == cost
    {
      messages := [];
      tokenLimit := DefaultTokenLimit;
      this.cost := cost;
    }

    /** Any integer is stored, unchecked; it applies from the next eviction on. */
    method SetTokenLimit(l: int)
      modifies this`tokenLimit
      ensures tokenLimit == l
    {
      tokenLimit := l;
    }

    method CleanState()
      modifies this`messages
      ensures messages == []
    {
      messages := [];
    }

    method LimitMessages()
      modifies this`messages
      ensures messages == Evict(old(messages), tokenLimit, cost)
    {
      ghost var target := Evict(messages, tokenLimit, cost);
      while TokenCount(messages, cost) > tokenLimit && |messages| > 1
        invariant Evict(messages, tokenLimit, cost) == target
      {
        EvictStep(messages, tokenLimit, cost);
        messages := messages[1..];
      }
      EvictStop(messages, tokenLimit, cost);
    }

    /** `chat(prompt)`: append the user turn, evict, send, then keep the reply or
        pop the user turn. */
    method Send(prompt: string, complete: seq<Message> -> CompletionResponse) returns (reply: string)
      modifies this`messages
      ensures (messages, reply) == ChatTurn(old(messages), tokenLimit, cost, prompt, complete)
    {
      ghost var history := messages;
      messages := messages + [UserMessage(prompt)];
      LimitMessages();
      ghost var sent := messages;
      var msg := CompletionMessage(complete(messages));
      if msg.role != SystemRole {
        messages := messages + [msg];
      } else {
        // the request failed: drop the user turn that was not answered
        messages := messages[..|messages| - 1];
      }
      reply := msg.role + ": " + msg.content;
      assert (messages, reply) == Settle(sent, msg);
    }

    method HandleVoice(audio: Bytes, transcribe: Bytes -> TranscriptionResponse,
                       complete: seq<Message> -> CompletionResponse) returns (reply: string, text: string)
      modifies this`messages
      ensures (messages, (reply, text)) == VoiceTurn(old(messages), tokenLimit, cost, audio, transcribe, complete)
    {
      var msg := TranscriptionMessage(transcribe(audio));
      if msg.role == SystemRole {
        return "system error", msg.content;
      }
      reply := Send(msg.content, complete);
      text := msg.content;
    }
  }
}
