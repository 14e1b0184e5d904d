/**
 * CategoryGateway, the persistence collaborator, as an oracle: each
 * operation's answer is a fixed function of its argument, and ghost logs
 * record every call, in order, with the argument it got. `create` and
 * `update` receive the category as it is at the call.
 */
module Gateway {
  import opened Wrappers
  import opened Exceptions
  import opened Categories

  class CategoryGateway {
    /** What the store gives back (or throws) for create, update and findById. */
    const createAnswer: CategoryData -> Outcome<CategoryData>
    const updateAnswer: CategoryData -> Outcome<CategoryData>
    const findByIdAnswer: CategoryID -> Outcome<Option<CategoryData>>

    ghost var createCalls: seq<CategoryData>
    ghost var updateCalls: seq<CategoryData>
    ghost var findByIdCalls: seq<CategoryID>

    constructor (createAnswer: CategoryData -> Outcome<CategoryData>,
                 updateAnswer: CategoryData -> Outcome<CategoryData>,
                 findByIdAnswer: CategoryID -> Outcome<Option<CategoryData>>)
      ensures this.createAnswer == createAnswer && this.updateAnswer == updateAnswer
      ensures this.findByIdAnswer == findByIdAnswer
      ensures createCalls == [] && updateCalls == [] && findByIdCalls == []
    {
      this.createAnswer := createAnswer;
      this.updateAnswer := updateAnswer;
      this.findByIdAnswer := findByIdAnswer;
      createCalls, updateCalls, findByIdCalls := [], [], [];
    }

    /** create(category): the stored form, or what the store threw. */
    method Create(category: Category) returns (r: Outcome<CategoryData>)
      modifies this
      ensures r == createAnswer(category.Snapshot())
      ensures createCalls == old(createCalls) + [category.Snapshot()]
      ensures updateCalls == old(updateCalls) && findByIdCalls == old(findByIdCalls)
    {
      createCalls := createCalls + [category.Snapshot()];
      r := createAnswer(category.Snapshot());
    }

    /** update(category): the stored form, or what the store threw. */
    method Update(category: Category) returns (r: Outcome<CategoryData>)
      modifies this
      ensures r == updateAnswer(category.Snapshot())
      ensures updateCalls == old(updateCalls) + [category.Snapshot()]
      ensures createCalls == old(createCalls) && findByIdCalls == old(findByIdCalls)
    {
      updateCalls := updateCalls + [category.Snapshot()];
      r := updateAnswer(category.Snapshot());
    }

    /** findById(id): a new Category object loaded from the stored form, none, or what the store threw. */
    method FindById(id: CategoryID) returns (r: Outcome<Option<Category>>)
      modifies this
      ensures findByIdAnswer(id).Fail? ==> r == Fail(findByIdAnswer(id).failure)
      ensures findByIdAnswer(id) == Ok(None) ==> r == Ok(None)
      ensures findByIdAnswer(id).Ok? && findByIdAnswer(id).value.Some? ==>
                r.Ok? && r.value.Some? && fresh(r.value.value)
                && r.value.value.Snapshot() == findByIdAnswer(id).value.value
      ensures findByIdCalls == old(findByIdCalls) + [id]
      ensures createCalls == old(createCalls) && updateCalls == old(updateCalls)
    {
      findByIdCalls := findByIdCalls + [id];
      var answer := findByIdAnswer(id);
      if answer.Fail? {
        r := Fail(answer.failure);
      } else if answer.value.None? {
        r := Ok(None);
      } else {
        var d := answer.value.value;
        var c := new Category(d.id, d.name, d.description, d.isActive, d.createdAt, d.updatedAt, d.deletedAt);
        r := Ok(Some(c));
      }
    }
  }
}
