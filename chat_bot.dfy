/** `components/ChatBot.tsx`: the chat transcript with the assistant, its input
    box and the guard against sending while a reply is pending. */
module ChatBot {
  import opened Types
  import opened Strings

  const Greeting := "Meow! I'm Dr. Whiskers. I'm here to help you parse through your risk analysis results. Ask me anything about your wellness journey!"

  /** Shown when the service answers with no text. */
  const FallbackReply := "I'm paw-fully sorry, I couldn't process that."

  /** Shown when the service call fails. */
  const ErrorReply := "Error connecting to service. Please try again later."

  const GreetingMessage := ChatMessage(Model, Greeting)

  /** How the chat service call ended: with a reply text ("" when it carried none)
      or with an error. */
  datatype ChatOutcome = Answered(text: string) | Errored

  /** The model turn `handleSend` appends for an outcome: the reply itself when it
      has text, otherwise one of the two fixed messages. It is never empty. */
  function ModelTurn(outcome: ChatOutcome): (m: ChatMessage)
    ensures m.role == Model && m.text != []
    ensures outcome.Answered? && outcome.text != [] ==> m.text == outcome.text
    ensures outcome.Answered? && outcome.text == [] ==> m.text == FallbackReply
    ensures outcome.Errored? ==> m.text == ErrorReply
  {
    match outcome
    case Answered(text) => ChatMessage(Model, if text != [] then text else FallbackReply)
    case Errored => ChatMessage(Model, ErrorReply)
  }

  /** The guard of `handleSend`: there is something besides whitespace to send and
      no reply is pending. */
  function Accepts(input: string, isTyping: bool): (b: bool)
    ensures b <==> !AllWhitespace(input) && !isTyping
  {
    Trim(input) != [] && !isTyping
  }

  /** A user turn as `handleSend` writes it: trimmed, so neither empty nor with
      whitespace at either end. */
  predicate TrimmedText(t: string) {
    t != [] && !IsWhitespace(t[0]) && !IsWhitespace(t[|t| - 1])
  }

  /** The shape of the transcript: the greeting, then alternating user and model
      turns, every user turn trimmed, ending on a user turn exactly while a reply
      is pending. */
  predicate WellFormed(msgs: seq<ChatMessage>, isTyping: bool) {
    && |msgs| >= 1
    && msgs[0] == GreetingMessage
    && (forall i :: 1 <= i < |msgs| ==> (msgs[i].role == User <==> i % 2 == 1))
    && (forall i :: 1 <= i < |msgs| && msgs[i].role == User ==> TrimmedText(msgs[i].text))
    && (isTyping <==> |msgs| % 2 == 0)
  }

  /** Sending from a settled transcript leaves it well formed and pending. */
  lemma SendKeepsWellFormed(msgs: seq<ChatMessage>, input: string)
    requires WellFormed(msgs, false)
    requires Accepts(input, false)
    ensures WellFormed(msgs + [ChatMessage(User, Trim(input))], true)
  {
  }

  /** A reply to a pending transcript leaves it well formed and settled. */
  lemma ReplyKeepsWellFormed(msgs: seq<ChatMessage>, outcome: ChatOutcome)
    requires WellFormed(msgs, true)
    ensures WellFormed(msgs + [ModelTurn(outcome)], false)
  {
  }

  /** In a well-formed transcript every pending state has exactly one user turn
      waiting: the last message, and the message before it is not a user turn. */
  lemma {:induction false} PendingEndsOnOneUserTurn(msgs: seq<ChatMessage>, isTyping: bool)
    requires WellFormed(msgs, isTyping)
    ensures isTyping <==> msgs[|msgs| - 1].role == User
    ensures msgs[|msgs| - 1].role == User ==> msgs[|msgs| - 2].role == Model
  {
    var n := |msgs|;
    if n == 1 {
      assert msgs[0].role == Model;
    } else {
      assert msgs[n - 1].role == User <==> (n - 1) % 2 == 1;
      if msgs[n - 1].role == User && n >= 3 {
        assert msgs[n - 2].role == User <==> (n - 2) % 2 == 1;
      }
    }
  }

  class ChatState {
    var messages: seq<ChatMessage>
    var input: string
    var isTyping: bool
    var isOpen: bool

    ghost predicate Valid()
      reads this
    {
      WellFormed(messages, isTyping)
    }

    constructor ()
      ensures Valid()
      ensures messages == [GreetingMessage] && input == [] && !isTyping && !isOpen
    {
      messages := [GreetingMessage];
      input := [];
      isTyping := false;
      isOpen := false;
    }

    /** The floating button and the close button. */
    method SetOpen(open: bool)
      requires Valid()
      modifies this`isOpen
      ensures Valid() && isOpen == open
    {
      isOpen := open;
    }

    /** The input box's `onChange`. */
    method SetInput(text: string)
      requires Valid()
      modifies this`input
      ensures Valid() && input == text
    {
      input := text;
    }

    /** The synchronous part of `handleSend`, up to the `await`. When the guard
        holds, the trimmed input is appended as a user turn and returned as the
        message to send; otherwise nothing changes and nothing is sent. */
    method Send() returns (sent: Option<string>)
      requires Valid()
      modifies this`messages, this`input, this`isTyping
      ensures Valid()
      ensures !Accepts(old(input), old(isTyping)) ==>
        sent == None && messages == old(messages) && input == old(input) && isTyping == old(isTyping)
      ensures Accepts(old(input), old(isTyping)) ==>
        && sent == Some(Trim(old(input)))
        && messages == old(messages) + [ChatMessage(User, Trim(old(input)))]
        && input == [] && isTyping
    {
      if !Accepts(input, isTyping) {
        return None;
      }
      var text := Trim(input);
      SendKeepsWellFormed(messages, input);
      input := [];
      messages := messages + [ChatMessage(User, text)];
      isTyping := true;
      sent := Some(text);
    }

    /** The rest of `handleSend` once the service call has ended: one model turn is
        appended and the pending flag is cleared. */
    method Complete(outcome: ChatOutcome)
      requires Valid()
      requires isTyping
      modifies this`messages, this`isTyping
      ensures Valid()
      ensures messages == old(messages) + [ModelTurn(outcome)] && !isTyping
    {
      ReplyKeepsWellFormed(messages, outcome);
      messages := messages + [ModelTurn(outcome)];
      isTyping := false;
    }
  }
}
