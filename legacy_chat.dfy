/** The older conversation session of `chatgpt_bot/chatgpt_api.py` (class `Chat`).
    Its budget is a character count (`len(content)`, default 5000). Its trimming loop
    walks the history newest first and pops from the tail, so once the newest
    message alone exceeds the budget everything but the oldest message is dropped.
    A failed request is not rolled back.

    The completion request is a parameter: a function from the sent history to
    either the parsed choices or the text of the exception that `__make_request`
    raised. */
module LegacyChat {
  import opened Common

  /** Class-level default of `Chat.word_limit`. */
  const DefaultWordLimit: int := 5000

  /** Role of the message `chat` builds when the request raises. */
  const BotRole: string := "bot"

  /** What `await self.__make_request(...)` gave back. */
  datatype RequestOutcome =
    | RequestFailed(error: string)     // the request or the response validation raised
    | Responded(choices: seq<Message>)

  function FailureText(error: string): string
  {
    "Error when sending request to OpenAI: " + error
  }

  /** The history `limit_messages` leaves, in closed form: unchanged unless there is
      more than one message and the newest alone is longer than the limit, in which
      case only the oldest message survives. */
  function LimitByLength(msgs: seq<Message>, limit: int): seq<Message>
  {
    if |msgs| > 1 && |msgs[|msgs| - 1].content| > limit then msgs[..1] else msgs
  }

  /** Trimming cuts from the tail, not from the front: the result is a prefix of the
      history, never empty when the history is not, and anything it cuts takes the
      history down to its oldest message. */
  lemma LimitByLengthCutsTail(msgs: seq<Message>, limit: int)
    ensures var r := LimitByLength(msgs, limit);
            && r == msgs[..|r|]
            && (|msgs| > 0 ==> |r| > 0)
            && (|r| < |msgs| <==> |msgs| > 1 && |msgs[|msgs| - 1].content| > limit)
            && (|r| < |msgs| ==> r == [msgs[0]])
  {
  }

  /** The history `chat` sends: the old history plus the prompt, trimmed. It is either
      all of it, or only the oldest message of the history. */
  function Sent(history: seq<Message>, limit: int, prompt: string): (s: seq<Message>)
    ensures s == history + [UserMessage(prompt)] || (history != [] && s == [history[0]])
  {
    LimitByLength(history + [UserMessage(prompt)], limit)
  }

  /** One `chat(prompt)`: the new history and the returned content. */
  function LegacyTurn(history: seq<Message>, limit: int, prompt: string,
                      request: seq<Message> -> RequestOutcome): (seq<Message>, string)
  {
    var sent := Sent(history, limit, prompt);
    match request(sent)
    case Responded(choices) =>
      if |choices| > 0 then (sent + [choices[0]], choices[0].content)
      else (sent, FailureText(IndexErrorText))
    case RequestFailed(e) => (sent, FailureText(e))
  }

  /** A prompt longer than the limit, sent after some history, is itself dropped:
      only the oldest message of the history goes out. */
  lemma LongPromptDropped(history: seq<Message>, limit: int, prompt: string)
    requires history != [] && |prompt| > limit
    ensures Sent(history, limit, prompt) == [history[0]]
  {
  }

  /** A turn that gets a choice stores the sent history followed by the first
      choice and answers with that choice's content only, without its role. */
  lemma LegacySuccess(history: seq<Message>, limit: int, prompt: string,
                      request: seq<Message> -> RequestOutcome)
    requires var out := request(Sent(history, limit, prompt)); out.Responded? && |out.choices| > 0
    ensures var sent := Sent(history, limit, prompt);
            var choice := request(sent).choices[0];
            LegacyTurn(history, limit, prompt, request) == (sent + [choice], choice.content)
  {
  }

  /** A turn whose request raises (including an empty `choices` list) keeps the sent
      history and answers with the error text. That history ends with the user turn
      unless trimming cut the history down to its oldest message. */
  lemma LegacyFailure(history: seq<Message>, limit: int, prompt: string,
                      request: seq<Message> -> RequestOutcome)
    requires var out := request(Sent(history, limit, prompt)); !(out.Responded? && |out.choices| > 0)
    ensures var sent := Sent(history, limit, prompt);
            var out := request(sent);
            && LegacyTurn(history, limit, prompt, request)
               == (sent, FailureText(if out.RequestFailed? then out.error else IndexErrorText))
            && (sent == history + [UserMessage(prompt)] || (history != [] && sent == [history[0]]))
  {
  }

  class Chat {
    var messages: seq<Message>
    const wordLimit: int

    constructor ()
      ensures messages == [] && wordLimit == DefaultWordLimit
    {
      messages := [];
      wordLimit := DefaultWordLimit;
    }

    /** `limit_messages`: walk a reversed copy of the history, adding each message's
        length to a running total, and pop the tail while the total is over the limit
        and more than one message is left. */
    method LimitMessages()
      modifies this`messages
      ensures messages == LimitByLength(old(messages), wordLimit)
    {
      var copy := messages;
      var totalLen := 0;
      var i := 0;
      while i < |copy|
        invariant 0 <= i <= |copy|
        invariant messages == copy[..|copy| - i]
        invariant i > 0 ==> i < |copy| && |copy[|copy| - 1].content| > wordLimit
        invariant i == 0 ==> totalLen == 0
        invariant i > 0 ==> totalLen >= |copy[|copy| - 1].content|
      {
        var msg := copy[|copy| - 1 - i];
        totalLen := totalLen + |msg.content|;
        if totalLen > wordLimit && |messages| > 1 {
          messages := messages[..|messages| - 1];
        } else {
          break;
        }
        i := i + 1;
      }
    }

    /** `chat(prompt)`: append the user turn, trim, send, and append the first choice
        only when there is one. */
    method Send(prompt: string, request: seq<Message> -> RequestOutcome) returns (reply: string)
      modifies this`messages
      ensures (messages, reply) == LegacyTurn(old(messages), wordLimit, prompt, request)
    {
      messages := messages + [UserMessage(prompt)];
      LimitMessages();
      var outcome := request(messages);
      var respMsg: Message;
      if outcome.Responded? && |outcome.choices| > 0 {
        respMsg := outcome.choices[0];
        messages := messages + [respMsg];
      } else {
        // every exception lands here; the user turn stays in the history
        var e := if outcome.RequestFailed? then outcome.error else IndexErrorText;
        respMsg := Message(BotRole, FailureText(e));
      }
      reply := respMsg.content;
    }
  }
}
