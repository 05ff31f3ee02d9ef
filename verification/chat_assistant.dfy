/** The floating chat assistant: a message list, an input box, a pending
    flag, and an open/closed toggle. The recommender it calls is external;
    its reply is a parameter. */
module ChatAssistant {
  import opened Options
  import JsStrings

  datatype Role = User | Model
  datatype ChatMessage = ChatMessage(role: Role, text: string)

  const Greeting := ChatMessage(Model, "Hello! I am your Discover Tours assistant. Thinking of visiting the Pyramids or a Nile Cruise?")

  /** A call to the recommender: the new text and the history before it. */
  datatype RecommendationCall = RecommendationCall(text: string, history: seq<ChatMessage>)

  /** `!input.trim() || isLoading`: when a send does nothing. */
  predicate SendIgnored(input: string, isLoading: bool)
  {
    JsStrings.Trim(input) == "" || isLoading
  }

  /** A send is ignored exactly for whitespace-only input or while a reply
      is pending. */
  lemma SendIgnoredExactly(input: string, isLoading: bool)
    ensures SendIgnored(input, isLoading) <==> JsStrings.AllWhitespace(input) || isLoading
  {
    JsStrings.TrimEmptyIffWhitespace(input);
  }

  class ChatState {
    var isOpen: bool
    var messages: seq<ChatMessage>
    var input: string
    var isLoading: bool

    /** The greeting stays first, and while a reply is pending the last
        message is the user's. */
    ghost predicate Valid()
      reads this
    {
      |messages| >= 1 && messages[0] == Greeting
      && (isLoading ==> |messages| >= 2 && messages[|messages| - 1].role == User)
    }

    constructor()
      ensures Valid()
      ensures !isOpen && messages == [Greeting] && input == "" && !isLoading
    {
      isOpen := false;
      messages := [Greeting];
      input := "";
      isLoading := false;
    }

    method SetInput(text: string)
      modifies this
      ensures input == text
      ensures messages == old(messages) && isLoading == old(isLoading) && isOpen == old(isOpen)
    {
      input := text;
    }

    /** `handleSend` up to the call: ignored, or the user message (untrimmed)
        appended, the input cleared and loading set; the call carries the
        list as it was before the new message. */
    method BeginSend() returns (call: Option<RecommendationCall>)
      requires Valid()
      modifies this
      ensures Valid()
      ensures SendIgnored(old(input), old(isLoading)) ==>
        call.None? && messages == old(messages) && input == old(input) && isLoading == old(isLoading)
      ensures !SendIgnored(old(input), old(isLoading)) ==>
        && call == Some(RecommendationCall(old(input), old(messages)))
        && messages == old(messages) + [ChatMessage(User, old(input))]
        && input == "" && isLoading
      ensures isOpen == old(isOpen)
    {
      if SendIgnored(input, isLoading) {
        return None;
      }
      call := Some(RecommendationCall(input, messages));
      messages := messages + [ChatMessage(User, input)];
      input := "";
      isLoading := true;
    }

    /** The end of `handleSend`: one model message on a reply, none on an
        error; loading is cleared either way. */
    method SendSettled(reply: Option<string>)
      requires Valid()
      modifies this
      ensures Valid() && !isLoading
      ensures reply.Some? ==> messages == old(messages) + [ChatMessage(Model, reply.value)]
      ensures reply.None? ==> messages == old(messages)
      ensures input == old(input) && isOpen == old(isOpen)
    {
      if reply.Some? {
        messages := messages + [ChatMessage(Model, reply.value)];
      }
      isLoading := false;
    }

    method Toggle()
      requires Valid()
      modifies this
      ensures Valid()
      ensures isOpen == !old(isOpen)
      ensures messages == old(messages) && input == old(input) && isLoading == old(isLoading)
    {
      isOpen := !isOpen;
    }
  }
}
