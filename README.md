# Category catalog: domain and use cases, modelled in Dafny

This project models the core of a catalog administration service built around
one aggregate, `Category`, and proves properties of that model:

- the `Category` aggregate. It is Active or Inactive and carries a soft-delete
  stamp `deletedAt`. `activate`, `deactivate` and `update` change it in place
  and keep the invariant "`deletedAt` is set exactly when the category is
  inactive". They never touch its id or its creation time.
- the name rule of `CategoryValidator`. The rule is checked in order: null,
  then blank, then a trimmed length in [3, 255]. It returns early, so at most
  one error is reported.
- the `ValidationHandler` capability and its two strategies. `Notification`
  accumulates errors in order and never throws. `ThrowsValidationHandler`
  keeps nothing and throws a `DomainException` on the first error.
- `DomainException` and the identity rules of `Entity`.
- the create and update use cases, which orchestrate the aggregate, its
  validation and a persistence gateway.

Modelling choices:

- A Java `null` is `None` (`Wrappers.Option`). Instants are integers.
- A thrown exception is a value. `Exceptions.Failure` is either
  `Domain(DomainException)` or `Other(message)`. A call that may throw gives
  back `Exceptions.Outcome`: `Ok(value)` or `Fail(failure)`. vavr's `Either`
  is `Wrappers.Either`.
- A validation step (`Validation<T>`) is given by the `Outcome` that running
  it produces.
- A `ValidationHandler` is a `Handlers.Handler`: either `Notifying(n)` for a
  `Notification` object `n`, or `Throwing`. `Notification` is a class whose
  error list is a `seq` field that its methods extend. The fail-fast handler
  has no state; it is a set of functions.
- `Category` is a class with the source's seven fields; `id` and `createdAt`
  are `const`. `Snapshot()` gives its field values as a `CategoryData` value.
  Each mutating method is specified by a function on snapshots (`Created`,
  `Activated`, `Deactivated`, `Updated`). The lemmas are about those functions.
  The getters are plain field reads.
- The clock and the id generator are parameters. `deactivate` reads the clock
  twice, at Category.java:54 for `deletedAt` and at Category.java:56 for
  `updatedAt`. So it takes two instants, `stampNow` and `now`, and the two
  timestamps may differ.
- `CategoryGateway` is an oracle. A class holds one fixed answer function per
  operation, and ghost logs record each call's argument in order. So "called
  once, with this category" and "never called" can be stated. `findById`
  hands out a new `Category` object loaded from the stored form.
- One whitespace predicate, `Text.IsWhitespace(c) == (c <= ' ')`, serves both
  "is blank" and "trim". It is the set of characters that Java's `String.trim`
  strips.
- Lengths are Java's: `Text.Utf16Length` counts UTF-16 code units, so a
  character above U+FFFF counts twice, as `String.length()` counts it.

The code and the project's own test disagree on the create use case.
DefaultCreateCategoryUseCase.java:35-39 wraps the gateway call in vavr's
`Try`, so a gateway failure becomes a `Left` notification with one error.
CreateCategoryUseCaseTest.java:119 instead expects the failure to propagate.
The model follows the code:
`CreateCategory.DefaultCreateCategoryUseCase.Execute` never propagates a
gateway failure. This rests on the gateway never returning null, which the
model does not allow (see "Left out").

## Model

| member | source | states |
|---|---|---|
| `Categories.Created` | domain/src/main/java/com/matheusjfa/domain/category/Category.java:34-40 | The factory validates nothing: any name, including null, is kept, and so is any description, including null. Both timestamps are `now`. An inactive category gets `deletedAt == now`. The soft-delete invariant holds. |
| `Categories.Activated` | domain/src/main/java/com/matheusjfa/domain/category/Category.java:42-50 | After activate the category is active, with no stamp and `updatedAt == now`. The invariant holds from any state. No other field changes. |
| `Categories.Deactivated` | domain/src/main/java/com/matheusjfa/domain/category/Category.java:52-61 | After deactivate the category is inactive with `updatedAt == now`. An existing stamp is kept; a missing one becomes `stampNow`. The invariant holds. No other field changes. |
| `Categories.Updated` | domain/src/main/java/com/matheusjfa/domain/category/Category.java:63-74 | After update the category has the new name and description and the requested active flag. The invariant holds. The id and `createdAt` are kept, and `updatedAt == now`. |
| `Categories.ActivateIdempotent` | domain/src/main/java/com/matheusjfa/domain/category/Category.java:42-50 | Activating twice equals activating once with the later clock reading. |
| `Categories.DeactivateIdempotent` | domain/src/main/java/com/matheusjfa/domain/category/Category.java:52-61 | Deactivating twice keeps the first stamp and the later `updatedAt`. |
| `Categories.TransitionsWithinAState` | domain/src/main/java/com/matheusjfa/domain/category/Category.java:42-61 | On a consistent state, activating an active category or deactivating an inactive one changes only `updatedAt`. |
| `Categories.UpdateKeepsIdentity` | domain/src/main/java/com/matheusjfa/domain/category/Category.java:63-74 | Whatever it is given, update yields an entity equal to the original. |
| `Categories.SameIdSameEntity` | domain/src/main/java/com/matheusjfa/domain/Entity.java:21-26 | Two categories with the same id are equal entities, whatever their other fields. |
| `Categories.Category.constructor` | domain/src/main/java/com/matheusjfa/domain/category/Category.java:16-32 | The private constructor stores its seven arguments as given. |
| `Categories.Category.Create` | domain/src/main/java/com/matheusjfa/domain/category/Category.java:34-40 | Returns a new object whose fields are `Created(...)` for the given fresh id and clock reading. |
| `Categories.Category.Activate` | domain/src/main/java/com/matheusjfa/domain/category/Category.java:42-50 | Changes this object in place to `Activated(old state, now)` and returns this same object. |
| `Categories.Category.Deactivate` | domain/src/main/java/com/matheusjfa/domain/category/Category.java:52-61 | Changes this object in place to `Deactivated(old state, stampNow, now)` and returns this same object. |
| `Categories.Category.Update` | domain/src/main/java/com/matheusjfa/domain/category/Category.java:63-74 | Changes this object in place, through `Activate` or `Deactivate`, to `Updated(...)`, and returns this same object. |
| `CategoryValidator.NameError` | domain/src/main/java/com/matheusjfa/domain/category/CategoryValidator.java:22-41 | A name passes exactly when it is non-null and its trimmed length, in UTF-16 code units, is in [3, 255]. The null message is given exactly for null. The blank message is given exactly for a blank name. The length message is given exactly for a non-blank name whose trimmed UTF-16 length is out of bounds. |
| `CategoryValidator.LimitsInDecimal` | domain/src/main/java/com/matheusjfa/domain/category/CategoryValidator.java:39 | The limits are written as "3" and "255". |
| `CategoryValidator.NameLengthText` | domain/src/main/java/com/matheusjfa/domain/category/CategoryValidator.java:8-9 | The length message, built from the two constants, reads "… entre 3 e 255 caracteres". |
| `CategoryValidator.NullNameRejected` | domain/src/test/java/com/matheusjfa/domain/category/CategoryTest.java:126-146 | A null name gets the null-name message. |
| `CategoryValidator.EmptyNameRejected` | domain/src/test/java/com/matheusjfa/domain/category/CategoryTest.java:150-170 | The empty name gets the blank-name message. |
| `CategoryValidator.ShortNameRejected` | domain/src/test/java/com/matheusjfa/domain/category/CategoryTest.java:174-194 | "ab" gets the length message. |
| `CategoryValidator.LongNameRejected` | domain/src/test/java/com/matheusjfa/domain/category/CategoryTest.java:198-218 | A name of 256 × 'a' gets the length message. |
| `CategoryValidator.BlankNameRejected` | application/src/test/java/com/matheusjfa/application/category/create/CreateCategoryUseCaseTest.java:82-102 | The name "  " gets the blank-name message. |
| `CategoryValidator.ValidNameAccepted` | application/src/test/java/com/matheusjfa/application/category/create/CreateCategoryUseCaseTest.java:18-47 | "Valid Category", the name the use case validates and then stores, passes the rule. |
| `CategoryValidator.CheckNameConstraints` | domain/src/main/java/com/matheusjfa/domain/category/CategoryValidator.java:22-41 | With a notification, it never throws and appends exactly the rule's error, if there is one, so at most one error. With the fail-fast handler, it throws exactly when the rule reports an error: a DomainException with that single error and its text as the message. The category is unchanged. |
| `CategoryValidator.Validate` | domain/src/main/java/com/matheusjfa/domain/category/Category.java:76-80 | Running a category's validator with a handler has exactly the effect of `CheckNameConstraints` on that category. |
| `Text.TrimStart` | domain/src/main/java/com/matheusjfa/domain/category/CategoryValidator.java:36 | Removing leading whitespace gives a suffix of the input. The removed prefix is all whitespace, and the result does not start with whitespace. |
| `Text.TrimEnd` | domain/src/main/java/com/matheusjfa/domain/category/CategoryValidator.java:36 | Removing trailing whitespace gives a prefix of the input. The removed suffix is all whitespace, and the result does not end with whitespace. |
| `Text.Trim` | domain/src/main/java/com/matheusjfa/domain/category/CategoryValidator.java:31-36 | The trimmed string is no longer than the input and neither starts nor ends with whitespace. It is empty exactly when the input is blank. |
| `Text.TrimKeepsSolidEnds` | domain/src/main/java/com/matheusjfa/domain/category/CategoryValidator.java:36 | A string whose first and last characters are not whitespace is its own trim and is not blank. |
| `Text.TrimIsSlice` | domain/src/main/java/com/matheusjfa/domain/category/CategoryValidator.java:36 | The trimmed string is the contiguous slice of the input that starts after the leading whitespace. |
| `Text.Decimal` | domain/src/main/java/com/matheusjfa/domain/category/CategoryValidator.java:39 | An int written into a string is a non-empty run of decimal digits that denotes exactly that int (`DigitsValue(Decimal(n)) == n`). |
| `Text.DigitChar` | domain/src/main/java/com/matheusjfa/domain/category/CategoryValidator.java:39 | A digit below ten is written as the character whose offset from '0' is that digit. |
| `Text.BlankIffNothingLeft` | domain/src/main/java/com/matheusjfa/domain/category/CategoryValidator.java:31 | `isBlank()` holds exactly when trimming the front of the string leaves nothing. |
| `Text.Utf16Units` | domain/src/main/java/com/matheusjfa/domain/category/CategoryValidator.java:36 | A character takes one UTF-16 code unit, or two exactly when it lies above U+FFFF. |
| `Text.Utf16Length` | domain/src/main/java/com/matheusjfa/domain/category/CategoryValidator.java:36 | `length()` counts UTF-16 code units: at least one and at most two per character. |
| `Text.Utf16LengthOfBmp` | domain/src/main/java/com/matheusjfa/domain/category/CategoryValidator.java:36 | For a string without characters above U+FFFF, `length()` is the number of characters. |
| `Text.Utf16LengthOfPair` | domain/src/main/java/com/matheusjfa/domain/category/CategoryValidator.java:36 | A two-character string has the code units of its two characters. |
| `CategoryValidator.SolidNameJudgedByLength` | domain/src/main/java/com/matheusjfa/domain/category/CategoryValidator.java:31-40 | A non-null name whose ends are not whitespace passes exactly when its UTF-16 length is within the bounds, and otherwise gets the length message. |
| `CategoryValidator.SupplementaryCharactersCountTwice` | domain/src/main/java/com/matheusjfa/domain/category/CategoryValidator.java:36-38 | Two characters above U+FFFF make four code units, so the name passes the length bound. |
| `Handlers.Captured` | domain/src/main/java/com/matheusjfa/domain/validation/handler/Notification.java:43-51 | A step that returns adds no errors. A DomainException adds all its errors in order. Any other exception adds one error carrying its message. |
| `Handlers.Notification.Create` | domain/src/main/java/com/matheusjfa/domain/validation/handler/Notification.java:18-20 | A new notification has no errors. |
| `Handlers.Notification.CreateFrom` | domain/src/main/java/com/matheusjfa/domain/validation/handler/Notification.java:22-24 | A notification made from an exception has exactly one error, carrying the exception's message. |
| `Handlers.Notification.CreateWith` | domain/src/main/java/com/matheusjfa/domain/validation/handler/Notification.java:26-28 | A notification made from one error has exactly that error. |
| `Handlers.Notification.Append` | domain/src/main/java/com/matheusjfa/domain/validation/handler/Notification.java:30-34 | Appending an error adds it at the end, keeps the earlier errors in order, and returns the same notification. |
| `Handlers.Notification.AppendAll` | domain/src/main/java/com/matheusjfa/domain/validation/handler/Notification.java:36-40 | Appending a handler adds that handler's errors, as they were before the call, in order at the end, and returns the same notification. |
| `Handlers.Notification.Validate` | domain/src/main/java/com/matheusjfa/domain/validation/handler/Notification.java:42-53 | Validating a step appends exactly `Captured(step)`, never throws, and returns null. |
| `Handlers.ThrowsErrors` | domain/src/main/java/com/matheusjfa/domain/validation/handler/ThrowsValidationHandler.java:30-33 | The fail-fast handler's error list is always empty. |
| `Handlers.ThrowsAppend` | domain/src/main/java/com/matheusjfa/domain/validation/handler/ThrowsValidationHandler.java:11-14 | Appending an error always throws a DomainException whose errors are exactly that error and whose message is its text. |
| `Handlers.ThrowsAppendAll` | domain/src/main/java/com/matheusjfa/domain/validation/handler/ThrowsValidationHandler.java:16-19 | Appending a handler always throws a DomainException carrying that handler's errors and an empty message. |
| `Handlers.ThrowsValidate` | domain/src/main/java/com/matheusjfa/domain/validation/handler/ThrowsValidationHandler.java:21-28 | A step that returns gives its value back unchanged. Any exception, even a DomainException with several errors, is rethrown as a DomainException with exactly one error carrying the caught message. |
| `Handlers.Errors` | domain/src/main/java/com/matheusjfa/domain/validation/handler/Notification.java:55-58 | `getErrors` is the notification's own list, and always empty for the fail-fast handler. |
| `Handlers.HasErrors` | domain/src/main/java/com/matheusjfa/domain/validation/ValidationHandler.java:14-16 | `hasErrors` is true exactly when the error list is non-empty, so it is always false for the fail-fast handler. |
| `Handlers.Append` | domain/src/main/java/com/matheusjfa/domain/validation/ValidationHandler.java:6 | Appending an error through either strategy: a notification records it and returns itself; the fail-fast handler throws. |
| `Handlers.AppendAll` | domain/src/main/java/com/matheusjfa/domain/validation/ValidationHandler.java:8 | Appending a handler through either strategy: a notification records the other handler's errors; the fail-fast handler throws. |
| `Handlers.Validate` | domain/src/main/java/com/matheusjfa/domain/validation/ValidationHandler.java:10 | Validating through either strategy: a notification records the step's failure and returns null; the fail-fast handler returns the step's value or rethrows. |
| `Handlers.StrategiesOnOneStep` | domain/src/main/java/com/matheusjfa/domain/validation/handler/ThrowsValidationHandler.java:22-28 | On the same step, the fail-fast handler passes only when a notification would record nothing. A notification records nothing exactly when the step returns, or when it throws a DomainException with no errors. |
| `Handlers.RethrownListLosesErrors` | domain/src/main/java/com/matheusjfa/domain/validation/handler/ThrowsValidationHandler.java:25-27 | A DomainException built from a list is rethrown by the fail-fast handler with one error whose text is empty. |
| `Exceptions.MessageOf` | domain/src/main/java/com/matheusjfa/domain/exceptions/DomainException.java:10-13 | `getMessage()` of a DomainException is the message it was built with; any other exception gives its own message. |
| `Exceptions.ErrorsOf` | domain/src/main/java/com/matheusjfa/domain/exceptions/DomainException.java:23-25 | `getErrors()` is the list the DomainException was built with; any other exception carries no errors. |
| `Exceptions.With` | domain/src/main/java/com/matheusjfa/domain/exceptions/DomainException.java:15-17 | `with(error)` carries exactly that one error, with the error's text as the message. |
| `Exceptions.WithAll` | domain/src/main/java/com/matheusjfa/domain/exceptions/DomainException.java:19-21 | `with(list)` carries the list verbatim and in order, with an empty message. |
| `Exceptions.WithAgreesWithWithAll` | domain/src/main/java/com/matheusjfa/domain/exceptions/DomainException.java:15-21 | The two factories give the same errors for one error, and give equal exceptions exactly when its text is empty. |
| `Exceptions.GetErrorsIsConstructorList` | domain/src/main/java/com/matheusjfa/domain/exceptions/DomainException.java:10-13 | `getErrors` and the message are exactly what the constructor was given. |
| `Entities.NewEntity` | domain/src/main/java/com/matheusjfa/domain/Entity.java:10-12 | Construction fails exactly for a null id, with the message "O Identificador não pode ser nulo". Otherwise the entity keeps the given id. |
| `Entities.GetIdIsConstructorId` | domain/src/main/java/com/matheusjfa/domain/Entity.java:14-16 | `getId` returns the constructor's id. |
| `Entities.Equals` | domain/src/main/java/com/matheusjfa/domain/Entity.java:21-26 | The same object is always equal, and equality implies the same runtime class and equal ids. |
| `Entities.HashCode` | domain/src/main/java/com/matheusjfa/domain/Entity.java:29-31 | The hash is the hash of the id alone; the runtime class does not enter it. |
| `Entities.EqualsIffSameClassAndId` | domain/src/main/java/com/matheusjfa/domain/Entity.java:21-26 | Two entities are equal exactly when they have the same runtime class and equal ids. |
| `Entities.EqualsReflexive` | domain/src/main/java/com/matheusjfa/domain/Entity.java:22 | Every entity equals itself. |
| `Entities.EqualsFalseForNullOrOtherClass` | domain/src/main/java/com/matheusjfa/domain/Entity.java:23 | An entity never equals null or an object of another runtime class. |
| `Entities.EqualEntitiesHashAlike` | domain/src/main/java/com/matheusjfa/domain/Entity.java:29-31 | Equal entities have equal hash codes, for any hash of ids. |
| `Gateway.CategoryGateway.Create` | domain/src/main/java/com/matheusjfa/domain/category/CategoryGateway.java:9 | The store's answer is recorded once, with the category as it was at the call. |
| `Gateway.CategoryGateway.Update` | domain/src/main/java/com/matheusjfa/domain/category/CategoryGateway.java:11 | The store's answer is recorded once, with the category as it was at the call. |
| `Gateway.CategoryGateway.FindById` | domain/src/main/java/com/matheusjfa/domain/category/CategoryGateway.java:15 | Gives back the store's failure, none, or a new object holding the stored fields. The call is recorded once. |
| `CreateCategory.DefaultCreateCategoryUseCase.Execute` | application/src/main/java/com/matheusjfa/application/category/create/DefaultCreateCategoryUseCase.java:19-33 | A rejected name gives `Left` with exactly the rule's one error, and the store's create is never called. Otherwise create is called exactly once, with `Created(...)` of the command fields. Then a stored category gives `Right` with its id, and a store failure gives `Left` with one error carrying the failure's message. Every `Left` has an error. Update and findById are not called. |
| `CreateCategory.DefaultCreateCategoryUseCase.ValidateThenCreate` | application/src/main/java/com/matheusjfa/application/category/create/DefaultCreateCategoryUseCase.java:27-31 | The built category is left as it was. Into an empty notification, a rejected name gives back that notification, holding just the rule's error, with no create call. A valid name calls create once, with the category. Success gives the stored id; a store failure gives a fresh notification with one error carrying the thrown message. |
| `CreateCategory.DefaultCreateCategoryUseCase.CreateInStore` | application/src/main/java/com/matheusjfa/application/category/create/DefaultCreateCategoryUseCase.java:35-39 | One create call. A failure is caught and becomes a one-error notification; success gives the returned category's id. |
| `UpdateCategory.NotFound` | application/src/main/java/com/matheusjfa/application/category/update/DefaultUpdateCategoryUseCase.java:24-26 | The not-found exception is a DomainException with one error, whose text and message read "Não foi encontrado nenhuma categoria com o ID " followed by the id. |
| `UpdateCategory.DefaultUpdateCategoryUseCase.Execute` | application/src/main/java/com/matheusjfa/application/category/update/DefaultUpdateCategoryUseCase.java:28-44 | findById is called exactly once and create never. A findById failure propagates unchanged, and a missing category throws `NotFound(id)`; in both cases update is never called. Otherwise the loaded category is changed to `Updated(...)` before validation. A rejected new name gives `Left` with exactly the rule's one error and no update call. A valid one calls update exactly once, with the changed category. Then success gives `Right` with the returned id, and a store failure gives `Left` with one error carrying the thrown message. Every `Left` has an error. |
| `UpdateCategory.DefaultUpdateCategoryUseCase.UpdateLoaded` | application/src/main/java/com/matheusjfa/application/category/update/DefaultUpdateCategoryUseCase.java:40-43 | The loaded category ends up exactly `Updated(...)` of what it was. Into an empty notification, a rejected name gives back that notification, holding just the rule's error, with no update call. A valid name calls update once, with the changed category. Success gives the stored id; a store failure gives a fresh notification with one error carrying the thrown message. findById and create are not called. |
| `UpdateCategory.DefaultUpdateCategoryUseCase.UpdateInStore` | application/src/main/java/com/matheusjfa/application/category/update/DefaultUpdateCategoryUseCase.java:46-48 | One update call. A failure is caught and becomes a one-error notification; success gives the returned category's id. |

## Left out

- Getters of `Category` and `Entity`: they are field reads of the class (`Snapshot()` gathers them), so they carry no contract of their own.
- Whitespace: Java's `isBlank` uses `Character.isWhitespace`, which differs from the `<= U+0020` set that `trim` strips. The model uses the `trim` set for both. So it does not capture a name such as "\u0000", which Java finds non-blank but trims to nothing. Nor does it capture a name made of Unicode spaces, which Java finds blank but does not trim.
- Exception messages are always strings. A Java exception whose `getMessage()` is null, which would give an `ErrorMessage` with a null text, is not modelled.
- Throwables that are not `Exception`s (Java `Error`s) are not modelled. `Notification.validate` does not catch them, and vavr's `Try` lets fatal ones through.
- `NoStackTraceException` is not part of this model. A DomainException's message is taken to be the one passed to its constructor.
- `CategoryID.generate()` and `Instant.now()` are parameters (`freshId`; `now`, `stampNow`). No ordering of clock readings is assumed.
- `CategoryID.from(command.id())` is not part of this model: its parsing is not visible. The update use case takes the command's id as an already built `CategoryID`, and `getValue()` is its `value` string.
- Command records are replaced by the use cases' parameters. The output records are replaced by the `CategoryID` they project.
- Entity's null-id check is modelled in `Entities.NewEntity`. A `Category` always has an id, because `CategoryID.generate()` and the stored form always supply one.
- Gateway: each answer is a fixed function of the argument; a real store is stateful. `create` and `update` give back the stored fields rather than an object, and only the id is used from them. `deleteById` and `findAll`, with `CategorySearchQuery` and `Pagination`, are not used by the core and are left out.
- Gateway answers are never null. In Java, `create` or `update` returning null makes the output mapping inside `bimap` throw a NullPointerException outside the `Try` (DefaultCreateCategoryUseCase.java:38, DefaultUpdateCategoryUseCase.java:47), so it propagates from the use case; `findById` returning null throws at DefaultUpdateCategoryUseCase.java:37-38. The oracle's answers cannot be null, so these paths are not modelled.
- List aliasing: `Notification.getErrors()` hands out the live list (Notification.java:56-58), and `DomainException.with(list)` keeps that reference (DomainException.java:19-21). So an exception thrown by `ThrowsValidationHandler.append(notification)` sees errors appended to the notification afterwards. The model's lists are values: an exception holds the errors as they were when it was thrown.
- `Entity.hashCode` takes the hash of ids as a parameter (`Objects.hashCode` of the id is not modelled further).
- `UseCase`, `CreateCategoryUseCase`, `UpdateCategoryUseCase`, `AggregateRoot` and `Validator` are abstract holders. They are folded into the modelled classes and modules.
