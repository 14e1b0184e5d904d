/**
 * The Category aggregate: a catalog entry that is Active or Inactive, with a
 * soft-delete stamp that is set exactly while it is inactive.
 *
 * A Java null is `None`; instants are integers. The clock and the id
 * generator are parameters: `now` is the instant read for updatedAt, and
 * `stampNow` the instant deactivation reads for deletedAt before it reads
 * the clock again for updatedAt.
 */
module Categories {
  import opened Wrappers
  import Entities

  type Instant = int

  /** CategoryID: an identifier with value equality. */
  datatype CategoryID = CategoryID(value: string)

  /** The fields of a Category at one moment. */
  datatype CategoryData = CategoryData(
    id: CategoryID,
    name: Option<string>,
    description: Option<string>,
    isActive: bool,
    createdAt: Instant,
    updatedAt: Instant,
    deletedAt: Option<Instant>)

  /** The aggregate's invariant: soft-deleted exactly when inactive. */
  predicate SoftDeleteMirrorsInactive(d: CategoryData) {
    d.deletedAt.Some? <==> !d.isActive
  }

  /** What the factory builds. It validates nothing: any name is kept. */
  function Created(id: CategoryID, name: Option<string>, description: Option<string>, isActive: bool, now: Instant): (d: CategoryData)
    ensures SoftDeleteMirrorsInactive(d)
    ensures d.id == id && d.name == name && d.description == description && d.isActive == isActive
    ensures d.createdAt == now && d.updatedAt == now
    ensures !isActive ==> d.deletedAt == Some(now)
  {
    CategoryData(id, name, description, isActive, now, now, if isActive then None else Some(now))
  }

  /** The state after activate(): active, stamp cleared, updatedAt refreshed, all else kept. */
  function Activated(d: CategoryData, now: Instant): (r: CategoryData)
    ensures SoftDeleteMirrorsInactive(r) && r.isActive && r.updatedAt == now
    ensures r.(isActive := d.isActive, updatedAt := d.updatedAt, deletedAt := d.deletedAt) == d
  {
    d.(deletedAt := None, updatedAt := now, isActive := true)
  }

  /**
   * The state after deactivate(): inactive, updatedAt refreshed, a stamp set
   * only when there was none, all else kept.
   */
  function Deactivated(d: CategoryData, stampNow: Instant, now: Instant): (r: CategoryData)
    ensures SoftDeleteMirrorsInactive(r) && !r.isActive && r.updatedAt == now
    ensures d.deletedAt.Some? ==> r.deletedAt == d.deletedAt
    ensures d.deletedAt.None? ==> r.deletedAt == Some(stampNow)
    ensures r.(isActive := d.isActive, updatedAt := d.updatedAt, deletedAt := d.deletedAt) == d
  {
    var stamped := if d.deletedAt.None? then d.(deletedAt := Some(stampNow)) else d;
    stamped.(updatedAt := now, isActive := false)
  }

  /**
   * The state after update(name, description, isActive): the new name and
   * description, then activation or deactivation as asked. Identity and
   * creation time are never touched.
   */
  function Updated(d: CategoryData, name: Option<string>, description: Option<string>, isActive: bool, now: Instant, stampNow: Instant): (r: CategoryData)
    ensures SoftDeleteMirrorsInactive(r)
    ensures r.name == name && r.description == description && r.isActive == isActive
    ensures r.id == d.id && r.createdAt == d.createdAt && r.updatedAt == now
  {
    var renamed := d.(name := name, description := description);
    if isActive then Activated(renamed, now) else Deactivated(renamed, stampNow, now)
  }

  /** A category as entity equality sees it. */
  function AsEntity(d: CategoryData): (e: Entities.Entity<CategoryID>)
    ensures e.id == d.id
  {
    Entities.Entity("Category", d.id)
  }

  /** Activating twice is activating once, with the later updatedAt. */
  lemma ActivateIdempotent(d: CategoryData, first: Instant, second: Instant)
    ensures Activated(Activated(d, first), second) == Activated(d, second)
  {
  }

  /** Deactivating twice keeps the first stamp and the later updatedAt. */
  lemma DeactivateIdempotent(d: CategoryData, stamp1: Instant, now1: Instant, stamp2: Instant, now2: Instant)
    ensures Deactivated(Deactivated(d, stamp1, now1), stamp2, now2) == Deactivated(d, stamp1, now2)
  {
  }

  /**
   * The Active/Inactive state machine on consistent states: activating an
   * active category and deactivating an inactive one only refresh updatedAt.
   */
  lemma TransitionsWithinAState(d: CategoryData, stampNow: Instant, now: Instant)
    requires SoftDeleteMirrorsInactive(d)
    ensures d.isActive ==> Activated(d, now) == d.(updatedAt := now)
    ensures !d.isActive ==> Deactivated(d, stampNow, now) == d.(updatedAt := now)
  {
  }

  /** The updated category is the same entity as before. */
  lemma UpdateKeepsIdentity(d: CategoryData, name: Option<string>, description: Option<string>, isActive: bool, now: Instant, stampNow: Instant)
    ensures var r := Updated(d, name, description, isActive, now, stampNow);
      Entities.Equals(AsEntity(d), Some(AsEntity(r)))
  {
  }

  /** Two categories with the same id are equal entities, whatever their other fields. */
  lemma SameIdSameEntity(a: CategoryData, b: CategoryData)
    requires a.id == b.id
    ensures Entities.Equals(AsEntity(a), Some(AsEntity(b)))
  {
  }

  /** The aggregate object; its first and fifth fields are final. */
  class Category {
    const id: CategoryID
    var name: Option<string>
    var description: Option<string>
    var isActive: bool
    const createdAt: Instant
    var updatedAt: Instant
    var deletedAt: Option<Instant>

    /** The current field values. */
    function Snapshot(): CategoryData
      reads this
    {
      CategoryData(id, name, description, isActive, createdAt, updatedAt, deletedAt)
    }

    /** The private all-fields constructor, used by the factory and by storage. */
    constructor (id: CategoryID, name: Option<string>, description: Option<string>, isActive: bool,
                 createdAt: Instant, updatedAt: Instant, deletedAt: Option<Instant>)
      ensures Snapshot() == CategoryData(id, name, description, isActive, createdAt, updatedAt, deletedAt)
    {
      this.id := id;
      this.name := name;
      this.description := description;
      this.isActive := isActive;
      this.createdAt := createdAt;
      this.updatedAt := updatedAt;
      this.deletedAt := deletedAt;
    }

    /** Category.create: a new category with a fresh id and both timestamps `now`. */
    static method Create(freshId: CategoryID, name: Option<string>, description: Option<string>, isActive: bool, now: Instant)
      returns (c: Category)
      ensures fresh(c)
      ensures c.Snapshot() == Created(freshId, name, description, isActive, now)
    {
      var deleted := if isActive then None else Some(now);
      c := new Category(freshId, name, description, isActive, now, now, deleted);
    }

    /** activate(): changes this category in place and gives it back. */
    method Activate(now: Instant) returns (self: Category)
      modifies this
      ensures self == this
      ensures Snapshot() == Activated(old(Snapshot()), now)
    {
      if deletedAt != None {
        deletedAt := None;
      }
      updatedAt := now;
      isActive := true;
      self := this;
    }

    /** deactivate(): changes this category in place and gives it back. */
    method Deactivate(stampNow: Instant, now: Instant) returns (self: Category)
      modifies this
      ensures self == this
      ensures Snapshot() == Deactivated(old(Snapshot()), stampNow, now)
    {
      if deletedAt == None {
        deletedAt := Some(stampNow);
      }
      updatedAt := now;
      isActive := false;
      self := this;
    }

    /** update(name, description, isActive): changes this category in place and gives it back. */
    method Update(name: Option<string>, description: Option<string>, isActive: bool, now: Instant, stampNow: Instant)
      returns (self: Category)
      modifies this
      ensures self == this
      ensures Snapshot() == Updated(old(Snapshot()), name, description, isActive, now, stampNow)
    {
      this.name := name;
      this.description := description;
      if isActive {
        var _ := Activate(now);
      } else {
        var _ := Deactivate(stampNow, now);
      }
      self := this;
    }
  }
}
