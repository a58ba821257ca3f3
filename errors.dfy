/** `getErrorMessage` (src/lib/errors.ts), which turns whatever a `catch` received into the
    text the older client's forms show. */
module Errors {
  /** What a `catch` can receive: an `Error` instance, a string, or any other value. */
  datatype Thrown = ErrorObject(message: string) | Text(text: string) | OtherValue

  const Unexpected := "An unexpected error occurred."

  /** An error's message when it has one, a thrown string as it is, and the fixed sentence
      for anything else. */
  function ErrorMessage(e: Thrown): (m: string)
    ensures e.ErrorObject? && e.message != "" ==> m == e.message
    ensures e.Text? ==> m == e.text
    ensures e.ErrorObject? && e.message == "" ==> m == Unexpected
    ensures e.OtherValue? ==> m == Unexpected
  {
    match e
    case ErrorObject(message) => if message != "" then message else Unexpected
    case Text(text) => text
    case OtherValue => Unexpected
  }

  /** Only a thrown empty string gives an empty message; everything else shows some text. */
  lemma EmptyOnlyForEmptyText(e: Thrown)
    ensures ErrorMessage(e) == "" <==> e == Text("")
  {
    assert |Unexpected| > 0;
  }

  /** The fallback sentence is a fixed point: reporting it again, as an error or as a string,
      reports the same sentence. */
  lemma MessageStable(e: Thrown)
    ensures ErrorMessage(ErrorObject(ErrorMessage(e))) == ErrorMessage(e) || ErrorMessage(e) == ""
    ensures ErrorMessage(Text(ErrorMessage(e))) == ErrorMessage(e)
  {
  }
}
