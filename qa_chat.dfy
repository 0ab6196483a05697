/**
 * The question-and-answer chat: an append-only message log, the input guard,
 * and the loading flag around the call to the answering service.
 */
module QAChat {
  import opened Wrappers
  import opened Strings

  datatype Role = User | Assistant

  datatype Message = Message(role: Role, content: string)

  const Apology := "Sorry, I couldn't get an answer. Please try again."

  /** The assistant's message for an outcome of the answering service. */
  function Reply(answer: Result<string, string>): (m: Message)
    ensures m.role == Assistant
    ensures answer.Success? ==> m.content == answer.value
    ensures answer.Failure? ==> m.content == Apology
  {
    match answer
    case Success(text) => Message(Assistant, text)
    case Failure(_) => Message(Assistant, Apology)
  }

  /** The log alternates user, assistant, user, ... starting with the user. */
  ghost predicate Alternating(log: seq<Message>)
  {
    forall i :: 0 <= i < |log| ==> log[i].role == (if i % 2 == 0 then User else Assistant)
  }

  /** `input.trim()` is non-empty: accepted exactly when some character is not whitespace. */
  function Accepts(input: string): (accepted: bool)
    ensures accepted <==> exists i :: 0 <= i < |input| && !IsJsWhitespace(input[i])
  {
    TrimEmptyIffBlank(input);
    Trim(input) != ""
  }

  /** The send button is disabled while loading or while the input is blank. */
  function SendDisabled(loading: bool, input: string): (disabled: bool)
    ensures !disabled <==> !loading && exists i :: 0 <= i < |input| && !IsJsWhitespace(input[i])
  {
    loading || !Accepts(input)
  }

  /** Appending a question and its reply to an idle log keeps it alternating. */
  lemma ExchangeKeepsAlternation(log: seq<Message>, question: string, answer: Result<string, string>)
    requires Alternating(log) && |log| % 2 == 0
    ensures Alternating(log + [Message(User, question)] + [Reply(answer)])
    ensures |log + [Message(User, question)] + [Reply(answer)]| % 2 == 0
  {
  }

  class QAChat {
    var messages: seq<Message>
    var inputValue: string
    var loading: bool

    /** Under sequential use: the log alternates, and it has odd length exactly while a question is awaiting its reply. */
    ghost predicate Valid()
      reads this
    {
      Alternating(messages) && (loading <==> |messages| % 2 == 1)
    }

    constructor ()
      ensures Valid()
      ensures messages == [] && inputValue == "" && !loading
    {
      messages, inputValue, loading := [], "", false;
    }

    /** Typing into the field, which is disabled while loading. */
    method Type(value: string)
      requires !loading
      modifies this
      ensures inputValue == value
      ensures messages == old(messages) && loading == old(loading)
    {
      inputValue := value;
    }

    /**
     * The part of `handleSubmit` before the call: a blank input changes nothing; any
     * other input is appended as typed, the field is cleared, loading starts, and
     * the question to send is the input as typed.
     */
    method BeginSubmit() returns (query: Option<string>)
      requires Valid() && !loading
      modifies this
      ensures Valid()
      ensures !Accepts(old(inputValue)) ==>
                query == None && messages == old(messages) && inputValue == old(inputValue) && !loading
      ensures Accepts(old(inputValue)) ==>
                query == Some(old(inputValue))
                && messages == old(messages) + [Message(User, old(inputValue))]
                && inputValue == "" && loading
                && SendDisabled(loading, inputValue)
    {
      if Trim(inputValue) == "" {
        return None;
      }
      var question := inputValue;
      messages := messages + [Message(User, question)];
      inputValue := "";
      loading := true;
      query := Some(question);
    }

    /** The part after the call: exactly one assistant message, the answer or the apology; loading ends. */
    method CompleteSubmit(answer: Result<string, string>)
      requires Valid() && loading
      modifies this
      ensures Valid()
      ensures messages == old(messages) + [Reply(answer)]
      ensures inputValue == old(inputValue) && !loading
      ensures SendDisabled(loading, inputValue) <==> !Accepts(inputValue)
    {
      messages := messages + [Reply(answer)];
      loading := false;
    }

    /** The whole handler, with the answering service as a function of the question. */
    method HandleSubmit(getAnswer: string -> Result<string, string>) returns (query: Option<string>)
      requires Valid() && !loading
      modifies this
      ensures Valid() && !loading
      ensures |messages| % 2 == 0
      ensures !Accepts(old(inputValue)) ==>
                query == None && messages == old(messages) && inputValue == old(inputValue)
      ensures Accepts(old(inputValue)) ==>
                query == Some(old(inputValue))
                && messages == old(messages) + [Message(User, old(inputValue)), Reply(getAnswer(old(inputValue)))]
                && inputValue == ""
    {
      query := BeginSubmit();
      if query.Some? {
        CompleteSubmit(getAnswer(query.value));
      }
    }
  }
}
