// The chat with Sprout AI: the message list, the input box and the pending
// flag, updated around the one awaited reply.

module Chat {
  import opened Types
  import opened Strings
  import Gemini

  const Greeting :=
    "Hello! I'm Sprout AI. Ask me anything about your farm's operations, and I'll analyze the data for you."
  const Thinking := "Thinking..."

  function GreetingMessage(): ChatMessage {
    ChatMessage("initial", AI, Greeting, false)
  }

  /** The user's message, carrying the input exactly as typed. */
  function UserMessage(text: string, now: int): (r: ChatMessage)
    ensures r.sender == User && r.text == text && !r.isLoading
  {
    ChatMessage("user-" + IntToString(now), User, text, false)
  }

  /** The placeholder shown while the reply is pending. */
  function LoadingMessage(now: int): (r: ChatMessage)
    ensures r.sender == AI && r.text == Thinking && r.isLoading
  {
    ChatMessage("ai-loading-" + IntToString(now), AI, Thinking, true)
  }

  function ReplyMessage(text: string, now: int): (r: ChatMessage)
    ensures r.sender == AI && r.text == text && !r.isLoading
  {
    ChatMessage("ai-response-" + IntToString(now), AI, text, false)
  }

  predicate HasLoading(ms: seq<ChatMessage>) {
    exists i :: 0 <= i < |ms| && ms[i].isLoading
  }

  /** `prev.filter(msg => !msg.isLoading)`. */
  function WithoutLoading(ms: seq<ChatMessage>): (r: seq<ChatMessage>)
    ensures |r| <= |ms|
    ensures forall m :: m in r <==> m in ms && !m.isLoading
  {
    if |ms| == 0 then []
    else if ms[0].isLoading then WithoutLoading(ms[1..])
    else [ms[0]] + WithoutLoading(ms[1..])
  }

  /** Filtering works piecewise, so the kept messages stay in their order. */
  lemma {:induction false} WithoutLoadingAppend(a: seq<ChatMessage>, b: seq<ChatMessage>)
    ensures WithoutLoading(a + b) == WithoutLoading(a) + WithoutLoading(b)
    decreases |a|
  {
    if |a| > 0 {
      assert (a + b)[0] == a[0] && (a + b)[1..] == a[1..] + b;
      WithoutLoadingAppend(a[1..], b);
    } else {
      assert a + b == b;
    }
  }

  /** A list without placeholders is left as it is. */
  lemma {:induction false} WithoutLoadingKeeps(ms: seq<ChatMessage>)
    requires !HasLoading(ms)
    ensures WithoutLoading(ms) == ms
    decreases |ms|
  {
    if |ms| > 0 {
      assert !ms[0].isLoading;
      assert !HasLoading(ms[1..]) by {
        forall i | 0 <= i < |ms[1..]| ensures !ms[1..][i].isLoading {
          assert ms[1..][i] == ms[i + 1];
        }
      }
      WithoutLoadingKeeps(ms[1..]);
    }
  }

  /** Filtering leaves no placeholder behind and filtering twice changes nothing. */
  lemma WithoutLoadingIdempotent(ms: seq<ChatMessage>)
    ensures !HasLoading(WithoutLoading(ms))
    ensures WithoutLoading(WithoutLoading(ms)) == WithoutLoading(ms)
  {
    WithoutLoadingKeeps(WithoutLoading(ms));
  }

  /**
   * A send followed by its reply, starting from a list with nothing pending:
   * the list gains the user's message and then the reply, the placeholder
   * having come and gone.
   */
  lemma SendThenReply(ms: seq<ChatMessage>, text: string, reply: string, now: int, later: int)
    requires !HasLoading(ms)
    ensures WithoutLoading(ms + [UserMessage(text, now), LoadingMessage(now)]) + [ReplyMessage(reply, later)]
            == ms + [UserMessage(text, now), ReplyMessage(reply, later)]
  {
    var u, l := UserMessage(text, now), LoadingMessage(now);
    assert ms + [u, l] == ms + [u] + [l];
    WithoutLoadingAppend(ms + [u], [l]);
    WithoutLoadingAppend(ms, [u]);
    WithoutLoadingKeeps(ms);
    WithoutLoadingSingle(u);
    WithoutLoadingSingle(l);
  }

  /** A single message is kept exactly when it is not a placeholder. */
  lemma WithoutLoadingSingle(m: ChatMessage)
    ensures WithoutLoading([m]) == if m.isLoading then [] else [m]
  {
    assert [m][1..] == [];
  }

  /** `!input.trim() || isLoading`: a blank input or a pending reply blocks a send. */
  predicate SendBlocked(input: string, pending: bool) {
    Trim(input) == "" || pending
  }

  class Conversation {
    var messages: seq<ChatMessage>
    var input: string
    var isLoading: bool

    /** The pending flag is up exactly while a placeholder is in the list. */
    predicate Valid()
      reads this
    {
      isLoading <==> HasLoading(messages)
    }

    /** The initial state: the greeting only, an empty input, nothing pending. */
    constructor()
      ensures Valid()
      ensures messages == [GreetingMessage()] && input == "" && !isLoading
    {
      messages := [GreetingMessage()];
      input := "";
      isLoading := false;
    }

    /** Typing into the input box. */
    method SetInput(text: string)
      requires Valid()
      modifies this`input
      ensures Valid()
      ensures input == text
    {
      input := text;
    }

    /**
     * The synchronous half of `handleSendMessage`: unless blocked, appends the
     * user's message and a placeholder, clears the input and raises the
     * pending flag; returns the query the reply is asked for.
     */
    method Send(now: int) returns (query: Option<string>)
      requires Valid()
      modifies this
      ensures Valid()
      ensures SendBlocked(old(input), old(isLoading)) ==>
                query.None? && messages == old(messages) && input == old(input) && isLoading == old(isLoading)
      ensures !SendBlocked(old(input), old(isLoading)) ==>
                && query == Some(old(input))
                && messages == old(messages) + [UserMessage(old(input), now), LoadingMessage(now)]
                && input == ""
                && isLoading
    {
      if SendBlocked(input, isLoading) {
        return None;
      }
      query := Some(input);
      var userMessage := UserMessage(input, now);
      var loadingMessage := LoadingMessage(now);
      messages := messages + [userMessage, loadingMessage];
      assert messages[|messages| - 1].isLoading;
      input := "";
      isLoading := true;
    }

    /**
     * The half after the awaited reply: every placeholder is dropped, the
     * other messages keep their order, the reply comes last and nothing is
     * pending any more. The chat call never rejects; a failure is its
     * fallback text.
     */
    method Receive(response: Outcome<string>, now: int)
      modifies this`messages, this`isLoading
      ensures Valid()
      ensures messages == WithoutLoading(old(messages)) + [ReplyMessage(Gemini.ChatReply(response), now)]
      ensures !isLoading
    {
      var reply := ReplyMessage(Gemini.ChatReply(response), now);
      WithoutLoadingIdempotent(messages);
      messages := WithoutLoading(messages) + [reply];
      WithoutLoadingAppend(WithoutLoading(old(messages)), [reply]);
      assert WithoutLoading([reply]) == [reply] + WithoutLoading([]);
      isLoading := false;
    }

    /**
     * `handleSendMessage` as a whole, when nothing else runs in between: a
     * send that goes through leaves the previous messages, the user's
     * message and the reply, in that order.
     */
    method SendMessage(now: int, response: Outcome<string>, later: int) returns (query: Option<string>)
      requires Valid()
      modifies this
      ensures Valid()
      ensures SendBlocked(old(input), old(isLoading)) ==>
                query.None? && messages == old(messages) && input == old(input) && isLoading == old(isLoading)
      ensures !SendBlocked(old(input), old(isLoading)) ==>
                && query == Some(old(input))
                && messages == old(messages) + [UserMessage(old(input), now),
                                                ReplyMessage(Gemini.ChatReply(response), later)]
                && input == ""
                && !isLoading
    {
      query := Send(now);
      if query.Some? {
        Receive(response, later);
        SendThenReply(old(messages), old(input), Gemini.ChatReply(response), now, later);
      }
    }
  }
}
