/**
 * The update-category use case: load the category, change it, validate it
 * into a fresh notification, and store it only when no error was found.
 * A missing category is a thrown DomainException; a failure of the final
 * store call is caught and reported as a one-error notification.
 */
module UpdateCategory {
  import opened Wrappers
  import opened Exceptions
  import opened Handlers
  import opened Categories
  import opened CategoryValidator
  import opened Gateway

  /** notFound(id): the exception thrown when no category has the given id. */
  function NotFound(id: CategoryID): (f: Failure)
    ensures f.Domain? && |ErrorsOf(f)| == 1
    ensures MessageOf(f) == ErrorsOf(f)[0].message == "Não foi encontrado nenhuma categoria com o ID " + id.value
  {
    With(ErrorMessage("Não foi encontrado nenhuma categoria com o ID " + id.value))
  }

  class DefaultUpdateCategoryUseCase {
    const gateway: CategoryGateway

    constructor (gateway: CategoryGateway)
      ensures this.gateway == gateway
    {
      this.gateway := gateway;
    }

    /**
     * execute(command), for a command whose id is `id`. `now` and `stampNow`
     * are the clock readings update() takes. `Fail` is a thrown exception;
     * `Ok` holds the use case's Either result.
     */
    method Execute(id: CategoryID, name: Option<string>, description: Option<string>, isActive: bool,
                   now: Instant, stampNow: Instant)
      returns (r: Outcome<Either<Notification, CategoryID>>)
      modifies gateway
      ensures gateway.findByIdCalls == old(gateway.findByIdCalls) + [id]
      ensures gateway.createCalls == old(gateway.createCalls)
      ensures var found := gateway.findByIdAnswer(id);
        && (found.Fail? ==> r == Fail(found.failure) && gateway.updateCalls == old(gateway.updateCalls))
        && (found == Ok(None) ==> r == Fail(NotFound(id)) && gateway.updateCalls == old(gateway.updateCalls))
      ensures var found := gateway.findByIdAnswer(id);
        found.Ok? && found.value.Some? ==>
          var changed := Updated(found.value.value, name, description, isActive, now, stampNow);
          && (NameError(name).Some? ==>
                && r.Ok? && r.value.Left? && fresh(r.value.left)
                && r.value.left.errors == [NameError(name).value]
                && gateway.updateCalls == old(gateway.updateCalls))
          && (NameError(name).None? ==>
                && gateway.updateCalls == old(gateway.updateCalls) + [changed]
                && (gateway.updateAnswer(changed).Ok? ==> r == Ok(Right(gateway.updateAnswer(changed).value.id)))
                && (gateway.updateAnswer(changed).Fail? ==>
                      && r.Ok? && r.value.Left? && fresh(r.value.left)
                      && r.value.left.errors == [ErrorMessage(MessageOf(gateway.updateAnswer(changed).failure))]))
      ensures r.Ok? && r.value.Left? ==> r.value.left.errors != []
    {
      var notification := new Notification.Create();
      var found := gateway.FindById(id);
      if found.Fail? {
        return Fail(found.failure);
      }
      if found.value.None? {
        return Fail(NotFound(id));
      }
      var outcome := UpdateLoaded(found.value.value, notification, name, description, isActive, now, stampNow);
      r := Ok(outcome);
    }

    /**
     * The rest of execute once the category is loaded: change it in place,
     * validate it into the empty notification, and either give back the
     * notification or store the category.
     */
    method UpdateLoaded(category: Category, notification: Notification, name: Option<string>,
                        description: Option<string>, isActive: bool, now: Instant, stampNow: Instant)
      returns (r: Either<Notification, CategoryID>)
      requires notification.errors == []
      modifies category, notification, gateway
      ensures category.Snapshot() == Updated(old(category.Snapshot()), name, description, isActive, now, stampNow)
      ensures gateway.createCalls == old(gateway.createCalls) && gateway.findByIdCalls == old(gateway.findByIdCalls)
      ensures NameError(name).Some? ==>
                && r == Left(notification) && notification.errors == [NameError(name).value]
                && gateway.updateCalls == old(gateway.updateCalls)
      ensures NameError(name).None? ==>
                var changed := category.Snapshot();
                && gateway.updateCalls == old(gateway.updateCalls) + [changed]
                && (gateway.updateAnswer(changed).Ok? ==> r == Right(gateway.updateAnswer(changed).value.id))
                && (gateway.updateAnswer(changed).Fail? ==>
                      && r.Left? && fresh(r.left)
                      && r.left.errors == [ErrorMessage(MessageOf(gateway.updateAnswer(changed).failure))])
    {
      var _ := category.Update(name, description, isActive, now, stampNow);
      var _ := CategoryValidator.Validate(category, Notifying(notification));
      if HasErrors(Notifying(notification)) {
        r := Left(notification);
      } else {
        r := UpdateInStore(category);
      }
    }

    /** The private update(category): the store's call, with a failure turned into a one-error notification. */
    method UpdateInStore(category: Category) returns (r: Either<Notification, CategoryID>)
      modifies gateway
      ensures var sent := category.Snapshot();
        && gateway.updateCalls == old(gateway.updateCalls) + [sent]
        && (gateway.updateAnswer(sent).Ok? ==> r == Right(gateway.updateAnswer(sent).value.id))
        && (gateway.updateAnswer(sent).Fail? ==>
              && r.Left? && fresh(r.left)
              && r.left.errors == [ErrorMessage(MessageOf(gateway.updateAnswer(sent).failure))])
      ensures gateway.createCalls == old(gateway.createCalls) && gateway.findByIdCalls == old(gateway.findByIdCalls)
    {
      var attempt := gateway.Update(category);
      if attempt.Ok? {
        r := Right(attempt.value.id);
      } else {
        var n := new Notification.CreateFrom(attempt.failure);
        r := Left(n);
      }
    }
  }
}
