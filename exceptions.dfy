/**
 * Error messages, DomainException and, in general, the Java exceptions the
 * core throws and catches, as values.
 */
module Exceptions {

  /** ErrorMessage: one human-readable failure text, kept verbatim. */
  datatype ErrorMessage = ErrorMessage(message: string)

  /**
   * DomainException: the message handed to the exception's superclass and
   * the list of errors it carries. Both are fixed at construction.
   */
  datatype DomainException = DomainException(message: string, errors: seq<ErrorMessage>)

  /** A thrown exception: a DomainException, or any other exception with its message. */
  datatype Failure = Domain(ex: DomainException) | Other(message: string)

  /** What a call that may throw gives back: a returned value or the exception thrown. */
  datatype Outcome<+T> = Ok(value: T) | Fail(failure: Failure)

  /** Throwable.getMessage(): a DomainException gives back the message it was built with. */
  function MessageOf(f: Failure): (m: string)
    ensures f.Domain? ==> m == f.ex.message
    ensures f.Other? ==> m == f.message
  {
    match f
    case Domain(ex) => ex.message
    case Other(m) => m
  }

  /** The errors a DomainException carries (getErrors); another exception carries none. */
  function ErrorsOf(f: Failure): (r: seq<ErrorMessage>)
    ensures f.Domain? ==> r == f.ex.errors
    ensures f.Other? ==> r == []
  {
    if f.Domain? then f.ex.errors else []
  }

  /** DomainException.with(error): one error, and the error's text as the message. */
  function With(error: ErrorMessage): (f: Failure)
    ensures f.Domain? && ErrorsOf(f) == [error]
    ensures MessageOf(f) == error.message
  {
    Domain(DomainException(error.message, [error]))
  }

  /** DomainException.with(errors): the list verbatim and in order, with an empty message. */
  function WithAll(errors: seq<ErrorMessage>): (f: Failure)
    ensures f.Domain? && ErrorsOf(f) == errors
    ensures MessageOf(f) == ""
  {
    Domain(DomainException("", errors))
  }

  /**
   * The two factories build the same error list from one error; they build
   * the same exception exactly when that error's text is empty.
   */
  lemma WithAgreesWithWithAll(error: ErrorMessage)
    ensures ErrorsOf(With(error)) == ErrorsOf(WithAll([error]))
    ensures With(error) == WithAll([error]) <==> error.message == ""
  {
  }

  /** getErrors gives back exactly the list passed to the constructor. */
  lemma GetErrorsIsConstructorList(message: string, errors: seq<ErrorMessage>)
    ensures ErrorsOf(Domain(DomainException(message, errors))) == errors
    ensures MessageOf(Domain(DomainException(message, errors))) == message
  {
  }
}
