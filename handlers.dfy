/**
 * The ValidationHandler capability and its two strategies: Notification,
 * which accumulates errors in order and never throws, and
 * ThrowsValidationHandler, which keeps nothing and throws on the first error.
 *
 * A validation step (Validation<T>) is given by what running it produces:
 * `Ok(v)` when it returns `v`, `Fail(f)` when it throws `f`.
 */
module Handlers {
  import opened Wrappers
  import opened Exceptions

  /** The error list a Notification gains from a validation step that ran to `step`. */
  function Captured<T>(step: Outcome<T>): (r: seq<ErrorMessage>)
    ensures step.Ok? ==> r == []
    ensures step.Fail? && step.failure.Domain? ==> r == step.failure.ex.errors
    ensures step.Fail? && step.failure.Other? ==> r == [ErrorMessage(step.failure.message)]
  {
    match step
    case Ok(_) => []
    case Fail(Domain(ex)) => ex.errors
    case Fail(Other(m)) => [ErrorMessage(m)]
  }

  /** The accumulating strategy. Its error list is only ever extended at the end. */
  class Notification {
    var errors: seq<ErrorMessage>

    /** Notification.create(): no errors. */
    constructor Create()
      ensures errors == []
    {
      errors := [];
    }

    /** Notification.create(error): an empty notification with `error` appended. */
    constructor CreateWith(error: ErrorMessage)
      ensures errors == [error]
    {
      errors := [];
      new;
      var _ := Append(error);
    }

    /** Notification.create(throwable): one error carrying the exception's message. */
    constructor CreateFrom(thrown: Failure)
      ensures errors == [ErrorMessage(MessageOf(thrown))]
    {
      errors := [];
      new;
      var _ := Append(ErrorMessage(MessageOf(thrown)));
    }

    /** append(error): adds `error` at the end and gives back this notification. */
    method Append(error: ErrorMessage) returns (self: Notification)
      modifies this
      ensures self == this
      ensures errors == old(errors) + [error]
    {
      errors := errors + [error];
      self := this;
    }

    /**
     * append(handler): adds the other handler's errors, in order, at the end.
     * The other handler may be this very notification; its list is read
     * before it is extended, so the list is then doubled.
     */
    method AppendAll(other: Handler) returns (self: Notification)
      modifies this
      ensures self == this
      ensures errors == old(errors) + old(Errors(other))
    {
      errors := errors + Errors(other);
      self := this;
    }

    /**
     * validate(step): records what the step threw and never throws itself.
     * It always gives back null.
     */
    method Validate<T>(step: Outcome<T>) returns (r: Option<T>)
      modifies this
      ensures r == None
      ensures errors == old(errors) + Captured(step)
    {
      match step {
        case Ok(_) =>
        case Fail(Domain(ex)) =>
          errors := errors + ex.errors;
        case Fail(Other(m)) =>
          errors := errors + [ErrorMessage(m)];
      }
      r := None;
    }
  }

  /** A ValidationHandler: one of the two strategies. */
  datatype Handler = Notifying(notification: Notification) | Throwing

  /** The objects a handler's operations may change. */
  function Footprint(h: Handler): set<object> {
    if h.Notifying? then {h.notification} else {}
  }

  /** ThrowsValidationHandler.getErrors(): always the empty list. */
  function ThrowsErrors(): (r: seq<ErrorMessage>)
    ensures |r| == 0
  {
    []
  }

  /** ThrowsValidationHandler.append(error): throws a DomainException wrapping exactly `error`. */
  function ThrowsAppend(error: ErrorMessage): (r: Outcome<Handler>)
    ensures r.Fail? && r.failure.Domain?
    ensures ErrorsOf(r.failure) == [error] && MessageOf(r.failure) == error.message
  {
    Fail(With(error))
  }

  /**
   * ThrowsValidationHandler.append(handler): throws a DomainException carrying
   * all of the other handler's errors and an empty message.
   */
  function ThrowsAppendAll(other: Handler): (r: Outcome<Handler>)
    reads Footprint(other)
    ensures r.Fail? && r.failure.Domain?
    ensures ErrorsOf(r.failure) == Errors(other) && MessageOf(r.failure) == ""
  {
    Fail(WithAll(Errors(other)))
  }

  /**
   * ThrowsValidationHandler.validate(step): the step's value when it returns;
   * whatever it throws, even a DomainException with many errors, becomes a
   * DomainException with one error carrying the thrown message.
   */
  function ThrowsValidate<T>(step: Outcome<T>): (r: Outcome<T>)
    ensures step.Ok? ==> r == step
    ensures step.Fail? ==> r.Fail? && r.failure.Domain?
    ensures step.Fail? ==> ErrorsOf(r.failure) == [ErrorMessage(MessageOf(step.failure))]
    ensures step.Fail? ==> MessageOf(r.failure) == MessageOf(step.failure)
  {
    match step
    case Ok(_) => step
    case Fail(f) => Fail(With(ErrorMessage(MessageOf(f))))
  }

  /** getErrors(), dispatched to the strategy. */
  function Errors(h: Handler): (r: seq<ErrorMessage>)
    reads Footprint(h)
    ensures h.Throwing? ==> r == []
  {
    match h
    case Notifying(n) => n.errors
    case Throwing => ThrowsErrors()
  }

  /** ValidationHandler.hasErrors(): true exactly when the error list is not empty. */
  function HasErrors(h: Handler): (b: bool)
    reads Footprint(h)
    ensures b <==> Errors(h) != []
    ensures h.Throwing? ==> !b
  {
    |Errors(h)| > 0
  }

  /** append(error), dispatched: a notification records it, the fail-fast handler throws. */
  method Append(h: Handler, error: ErrorMessage) returns (r: Outcome<Handler>)
    modifies Footprint(h)
    ensures h.Notifying? ==> r == Ok(h) && h.notification.errors == old(h.notification.errors) + [error]
    ensures h.Throwing? ==> r == ThrowsAppend(error)
  {
    match h {
      case Notifying(n) =>
        var self := n.Append(error);
        r := Ok(Notifying(self));
      case Throwing =>
        r := ThrowsAppend(error);
    }
  }

  /** append(handler), dispatched. */
  method AppendAll(h: Handler, other: Handler) returns (r: Outcome<Handler>)
    modifies Footprint(h)
    ensures h.Notifying? ==> r == Ok(h) && h.notification.errors == old(h.notification.errors) + old(Errors(other))
    ensures h.Throwing? ==> r == ThrowsAppendAll(other)
  {
    match h {
      case Notifying(n) =>
        var self := n.AppendAll(other);
        r := Ok(Notifying(self));
      case Throwing =>
        r := ThrowsAppendAll(other);
    }
  }

  /** validate(step), dispatched; a notification always gives back null. */
  method Validate<T>(h: Handler, step: Outcome<T>) returns (r: Outcome<Option<T>>)
    modifies Footprint(h)
    ensures h.Notifying? ==> r == Ok(None) && h.notification.errors == old(h.notification.errors) + Captured(step)
    ensures h.Throwing? && step.Ok? ==> r == Ok(Some(step.value))
    ensures h.Throwing? && step.Fail? ==> r == Fail(ThrowsValidate(step).failure)
  {
    match h {
      case Notifying(n) =>
        var v := n.Validate(step);
        r := Ok(v);
      case Throwing =>
        var t := ThrowsValidate(step);
        r := if t.Ok? then Ok(Some(t.value)) else Fail(t.failure);
    }
  }

  /**
   * The two strategies on the same step: the fail-fast handler lets the step
   * through exactly when the notification would record nothing, except for a
   * DomainException with an empty error list, which a notification swallows
   * and the fail-fast handler still throws.
   */
  lemma StrategiesOnOneStep<T>(step: Outcome<T>)
    ensures ThrowsValidate(step).Ok? ==> Captured(step) == []
    ensures Captured(step) == [] <==> step.Ok? || (step.failure.Domain? && step.failure.ex.errors == [])
  {
  }

  /**
   * The fail-fast handler loses the errors of a DomainException built from a
   * list: what it rethrows carries one error, with the empty message.
   */
  lemma RethrownListLosesErrors<T>(errors: seq<ErrorMessage>)
    ensures var r := ThrowsValidate<T>(Fail(WithAll(errors)));
      ErrorsOf(r.failure) == [ErrorMessage("")]
  {
  }
}
