/**
 * The Lingxi assistant page: the transcript it opens with, the text box, and the send
 * cycle. A send appends the user's message, clears the box and waits; the reply (or an
 * apology when the request fails) is then appended and the page accepts input again.
 */
module LingxiAssistant {
  import opened Wrappers
  import opened JsValue
  import opened LingxiApi

  /** How many messages the page opens with. */
  const OpeningLength := 4

  /** The conversation the page opens with: the opening texts, from the user and the assistant in turn. */
  function Transcript(texts: seq<string>): (ms: seq<Message>)
    ensures |ms| == |texts| && Alternates(ms)
    ensures forall i :: 0 <= i < |texts| ==> ms[i].content == texts[i]
  {
    seq(|texts|, i requires 0 <= i < |texts| => Message(if i % 2 == 0 then "user" else "assistant", texts[i]))
  }

  /** The assistant message shown when the request fails. */
  const Apology := "很抱歉，我在处理您的请求时遇到了问题。请稍后再试。"

  /** How many of the latest messages go with a request as context. */
  const ContextSize := 6

  /** A request in flight: the text sent and the context sent with it. */
  datatype Request = Request(message: string, history: seq<Message>)

  /** `messages.slice(-6)`: the last six messages, or all of them when there are fewer. */
  function LastSix(ms: seq<Message>): (r: seq<Message>)
    ensures |r| == if |ms| < ContextSize then |ms| else ContextSize
  {
    if |ms| <= ContextSize then ms else ms[|ms| - ContextSize..]
  }

  /** The context is the tail of the conversation: the messages before it, then it. */
  lemma LastSixIsSuffix(ms: seq<Message>)
    ensures ms == ms[..|ms| - |LastSix(ms)|] + LastSix(ms)
  {
  }

  /** The transcript alternates, starting with the user. */
  predicate Alternates(ms: seq<Message>)
  {
    forall i :: 0 <= i < |ms| ==> ms[i].role == (if i % 2 == 0 then "user" else "assistant")
  }

  /** A message by the party whose turn it is keeps the transcript alternating. */
  lemma AlternatesPush(ms: seq<Message>, m: Message)
    requires Alternates(ms) && m.role == (if |ms| % 2 == 0 then "user" else "assistant")
    ensures Alternates(ms + [m])
  {
    forall i | 0 <= i < |ms| + 1
      ensures (ms + [m])[i].role == (if i % 2 == 0 then "user" else "assistant")
    {
      if i < |ms| {
        assert (ms + [m])[i] == ms[i];
      }
    }
  }

  lemma EvenShift(k: nat, i: nat)
    requires k % 2 == 0
    ensures (k + i) % 2 == i % 2
  {
    var h := k / 2;
    assert k + i == 2 * h + i;
  }

  /** Dropping an even number of leading messages keeps the transcript alternating. */
  lemma AlternatesSuffix(ms: seq<Message>, k: nat)
    requires Alternates(ms) && k <= |ms| && k % 2 == 0
    ensures Alternates(ms[k..])
  {
    forall i | 0 <= i < |ms| - k
      ensures ms[k..][i].role == (if i % 2 == 0 then "user" else "assistant")
    {
      assert ms[k..][i] == ms[k + i];
      EvenShift(k, i);
    }
  }

  /** The context of a settled conversation opens with a user message and ends with an assistant one. */
  lemma ContextIsWholeExchanges(ms: seq<Message>)
    requires Alternates(ms) && |ms| % 2 == 0 && |ms| > 0
    ensures Alternates(LastSix(ms))
    ensures LastSix(ms)[0].role == "user" && LastSix(ms)[|LastSix(ms)| - 1].role == "assistant"
  {
    var r := LastSix(ms);
    var k := if |ms| <= ContextSize then 0 else |ms| - ContextSize;
    assert r == ms[k..];
    AlternatesSuffix(ms, k);
    assert (|r| - 1) % 2 == 1;
  }

  /** The send button is enabled: there is text besides white space and no request is in flight. */
  predicate SendEnabled(inputValue: string, isLoading: bool)
  {
    Trim(inputValue) != "" && !isLoading
  }

  /** What the request settles with: the assistant's reply, or the apology when it failed. */
  function Answer(request: Request, failed: bool): (m: Message)
    ensures m.role == "assistant"
    ensures m.content == if failed then Apology else ReplyOf(TopicOf(request.message))
  {
    if failed then Message("assistant", Apology) else SendMessageToLingxi(request.message, request.history)
  }

  class Chat {
    var messages: seq<Message>
    var inputValue: string
    var isLoading: bool

    /** The transcript alternates, and a request is in flight exactly when the user spoke last. */
    ghost predicate Valid()
      reads this
    {
      Alternates(messages) && (isLoading <==> |messages| % 2 == 1)
    }

    /** The page as loaded, opening with the four fixed texts of its transcript. */
    constructor(openingTexts: seq<string>)
      requires |openingTexts| == OpeningLength
      ensures Valid()
      ensures messages == Transcript(openingTexts) && inputValue == "" && !isLoading
    {
      messages := Transcript(openingTexts);
      inputValue := "";
      isLoading := false;
    }

    /** Typing in the text box, which is disabled while a request is in flight. */
    method Edit(text: string)
      requires Valid()
      modifies this
      ensures Valid()
      ensures messages == old(messages) && isLoading == old(isLoading)
      ensures inputValue == if old(isLoading) then old(inputValue) else text
    {
      if !isLoading {
        inputValue := text;
      }
    }

    /**
     * `handleSendMessage()`: with text in the box and nothing in flight, the text is appended
     * as a user message, the box is cleared and the request starts, carrying the text and the
     * last six messages from before the send.
     */
    method HandleSendMessage() returns (request: Option<Request>)
      requires Valid()
      modifies this
      ensures Valid()
      ensures request.Some? <==> old(SendEnabled(inputValue, isLoading))
      ensures request.None? ==> messages == old(messages) && inputValue == old(inputValue) && isLoading == old(isLoading)
      ensures request.Some? ==>
        request.value == Request(old(inputValue), LastSix(old(messages))) &&
        messages == old(messages) + [Message("user", old(inputValue))] && inputValue == "" && isLoading
    {
      var enabled := SendEnabled(inputValue, isLoading);
      if enabled {
        var text := inputValue;
        var history := LastSix(messages);
        AlternatesPush(messages, Message("user", text));
        messages := messages + [Message("user", text)];
        inputValue := "";
        isLoading := true;
        request := Some(Request(text, history));
      } else {
        request := None;
      }
    }

    /** The request settles: the reply, or the apology when it failed, is appended and loading ends. */
    method Complete(request: Request, failed: bool)
      requires Valid() && isLoading
      modifies this
      ensures Valid() && !isLoading && inputValue == old(inputValue)
      ensures messages == old(messages) + [Answer(request, failed)]
    {
      var reply := Answer(request, failed);
      AlternatesPush(messages, reply);
      messages := messages + [reply];
      isLoading := false;
    }

    /** `handleKeyDown(e)`: Enter without Shift is kept from the text box and sends. */
    method HandleKeyDown(key: string, shift: bool) returns (preventDefault: bool, request: Option<Request>)
      requires Valid()
      modifies this
      ensures Valid()
      ensures preventDefault <==> key == "Enter" && !shift
      ensures request.Some? <==> preventDefault && old(SendEnabled(inputValue, isLoading))
      ensures request.None? ==> messages == old(messages) && inputValue == old(inputValue) && isLoading == old(isLoading)
      ensures request.Some? ==>
        request.value == Request(old(inputValue), LastSix(old(messages))) &&
        messages == old(messages) + [Message("user", old(inputValue))] && inputValue == "" && isLoading
    {
      preventDefault := key == "Enter" && !shift;
      request := None;
      if preventDefault {
        request := HandleSendMessage();
      }
    }
  }
}
