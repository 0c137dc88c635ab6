/** The request state every form component keeps (`isLoading`, `error`,
    `result`) and how its submit handler moves it: reset, call the flow, record
    the outcome, clear the loading flag. */
module FormState {
  import opened Provider

  /** The message shown when something other than an Error object is thrown. */
  const UnexpectedError: string := "An unexpected error occurred."

  /** What a `catch` receives. */
  datatype Thrown = ErrorInstance(message: string) | OtherValue

  /** `e instanceof Error ? e.message : fallback`. */
  function ErrorText(t: Thrown, fallback: string): string
  {
    match t
    case ErrorInstance(m) => m
    case OtherValue => fallback
  }

  /** Without an Error object the fallback is shown; with one, its message is
      shown whatever the fallback. */
  lemma FallbackOnlyForNonErrors(t: Thrown)
    ensures t.OtherValue? <==> forall fallback :: ErrorText(t, fallback) == fallback
  {
    if t.ErrorInstance? {
      var other := t.message + "?";
      assert ErrorText(t, other) != other;
    }
  }

  /** A flow's outcome as its caller sees it: a success reaches the form as the
      same value, and every failure of a modelled flow as an Error object, so
      the form never shows its fallback text for it. */
  function AsThrown<T>(r: Result<T, Error>, library: LibraryText): (t: Result<T, Thrown>)
    ensures t.Success? <==> r.Success?
    ensures t.Success? ==> t.value == r.value
    ensures r.Failure? ==> forall fallback :: ErrorText(t.error, fallback) == Message(r.error, library)
  {
    match r
    case Success(v) => Success(v)
    case Failure(e) => Failure(ErrorInstance(Message(e, library)))
  }

  class RequestState<T> {
    var isLoading: bool
    var error: Option<string>
    var result: Option<T>

    /** `useState(false)`, `useState(null)`, `useState(null)`. */
    constructor ()
      ensures !isLoading && error == None && result == None
    {
      isLoading, error, result := false, None, None;
    }

    /** The start of `onSubmit`: loading, and no error or result left from before. */
    method Begin()
      modifies this
      ensures isLoading && error == None && result == None
    {
      isLoading := true;
      error := None;
      result := None;
    }

    /** The `try`/`catch`/`finally` after the flow call: a success sets only the
        result, a failure sets only the error text, and either way loading ends. */
    method Settle(outcome: Result<T, Thrown>, fallback: string)
      modifies this
      ensures !isLoading
      ensures outcome.Success? ==> result == Some(outcome.value) && error == old(error)
      ensures outcome.Failure? ==> error == Some(ErrorText(outcome.error, fallback)) && result == old(result)
    {
      match outcome {
        case Success(response) => result := Some(response);
        case Failure(e) => error := Some(ErrorText(e, fallback));
      }
      isLoading := false;
    }
  }
}
