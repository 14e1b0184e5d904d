/**
 * The create-category use case: build a category, validate it into a fresh
 * notification, and store it only when no error was found. A failure of the
 * store is caught and reported as a one-error notification.
 */
module CreateCategory {
  import opened Wrappers
  import opened Exceptions
  import opened Handlers
  import opened Categories
  import opened CategoryValidator
  import opened Gateway

  class DefaultCreateCategoryUseCase {
    const gateway: CategoryGateway

    constructor (gateway: CategoryGateway)
      ensures this.gateway == gateway
    {
      this.gateway := gateway;
    }

    /**
     * execute(command). `freshId` and `now` are what the id generator and the
     * clock give the factory. On success the output is the stored category's id.
     */
    method Execute(name: Option<string>, description: Option<string>, isActive: bool, freshId: CategoryID, now: Instant)
      returns (r: Either<Notification, CategoryID>)
      modifies gateway
      ensures var built := Created(freshId, name, description, isActive, now);
        && (NameError(name).Some? ==>
              && r.Left? && fresh(r.left) && r.left.errors == [NameError(name).value]
              && gateway.createCalls == old(gateway.createCalls))
        && (NameError(name).None? ==>
              && gateway.createCalls == old(gateway.createCalls) + [built]
              && (gateway.createAnswer(built).Ok? ==> r == Right(gateway.createAnswer(built).value.id))
              && (gateway.createAnswer(built).Fail? ==>
                    && r.Left? && fresh(r.left)
                    && r.left.errors == [ErrorMessage(MessageOf(gateway.createAnswer(built).failure))]))
      ensures r.Left? ==> r.left.errors != []
      ensures gateway.updateCalls == old(gateway.updateCalls) && gateway.findByIdCalls == old(gateway.findByIdCalls)
    {
      var notification := new Notification.Create();
      var category := Category.Create(freshId, name, description, isActive, now);
      r := ValidateThenCreate(category, notification);
    }

    /**
     * The rest of execute once the category is built: validate it into the
     * empty notification, then either give back the notification or store
     * the category.
     */
    method ValidateThenCreate(category: Category, notification: Notification)
      returns (r: Either<Notification, CategoryID>)
      requires notification.errors == []
      modifies notification, gateway
      ensures unchanged(category)
      ensures NameError(category.name).Some? ==>
                && r == Left(notification) && notification.errors == [NameError(category.name).value]
                && gateway.createCalls == old(gateway.createCalls)
      ensures NameError(category.name).None? ==>
                var sent := category.Snapshot();
                && gateway.createCalls == old(gateway.createCalls) + [sent]
                && (gateway.createAnswer(sent).Ok? ==> r == Right(gateway.createAnswer(sent).value.id))
                && (gateway.createAnswer(sent).Fail? ==>
                      && r.Left? && fresh(r.left)
                      && r.left.errors == [ErrorMessage(MessageOf(gateway.createAnswer(sent).failure))])
      ensures gateway.updateCalls == old(gateway.updateCalls) && gateway.findByIdCalls == old(gateway.findByIdCalls)
    {
      ghost var reported := OptionToSeq(NameError(category.name));
      var _ := CategoryValidator.Validate(category, Notifying(notification));
      assert notification.errors == reported;
      if HasErrors(Notifying(notification)) {
        r := Left(notification);
      } else {
        assert NameError(category.name).None?;
        r := CreateInStore(category);
      }
    }

    /** The private create(category): the store's call, with a failure turned into a one-error notification. */
    method CreateInStore(category: Category) returns (r: Either<Notification, CategoryID>)
      modifies gateway
      ensures var sent := category.Snapshot();
        && gateway.createCalls == old(gateway.createCalls) + [sent]
        && (gateway.createAnswer(sent).Ok? ==> r == Right(gateway.createAnswer(sent).value.id))
        && (gateway.createAnswer(sent).Fail? ==>
              && r.Left? && fresh(r.left)
              && r.left.errors == [ErrorMessage(MessageOf(gateway.createAnswer(sent).failure))])
      ensures gateway.updateCalls == old(gateway.updateCalls) && gateway.findByIdCalls == old(gateway.findByIdCalls)
    {
      var attempt := gateway.Create(category);
      if attempt.Ok? {
        r := Right(attempt.value.id);
      } else {
        var n := new Notification.CreateFrom(attempt.failure);
        r := Left(n);
      }
    }
  }
}
