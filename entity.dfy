/**
 * The identity part every entity shares: an id that is fixed at
 * construction, and equality and hashing that look only at the runtime
 * class and the id.
 */
module Entities {
  import opened Wrappers
  import opened Exceptions

  /** The message Objects.requireNonNull raises when an entity gets no id. */
  const NULL_ID_MESSAGE := "O Identificador não pode ser nulo"

  /** An entity as equality sees it: its runtime class and its final id. */
  datatype Entity<ID> = Entity(runtimeClass: string, id: ID)

  /** The entity constructor: a null id is refused with a NullPointerException. */
  function NewEntity<ID>(runtimeClass: string, id: Option<ID>): (r: Outcome<Entity<ID>>)
    ensures r.Fail? <==> id.None?
    ensures r.Fail? ==> r.failure.Other? && MessageOf(r.failure) == NULL_ID_MESSAGE
    ensures r.Ok? ==> r.value.id == id.value && r.value.runtimeClass == runtimeClass
  {
    match id
    case None => Fail(Other(NULL_ID_MESSAGE))
    case Some(i) => Ok(Entity(runtimeClass, i))
  }

  /**
   * equals(o): the same object is equal; null or another runtime class is
   * not; otherwise the ids decide. The same object has the same class and id.
   */
  function Equals<ID(==)>(self: Entity<ID>, o: Option<Entity<ID>>): (b: bool)
    ensures o == Some(self) ==> b
    ensures b ==> o.Some? && o.value.runtimeClass == self.runtimeClass && o.value.id == self.id
  {
    if o == Some(self) then true
    else if o.None? || self.runtimeClass != o.value.runtimeClass then false
    else self.id == o.value.id
  }

  /** hashCode(): the hash of the id alone, for a given hash of ids. */
  function HashCode<ID>(self: Entity<ID>, idHash: ID -> int): (h: int)
    ensures h == idHash(self.id)
  {
    idHash(self.id)
  }

  /** Equality is exactly "same runtime class and same id". */
  lemma EqualsIffSameClassAndId<ID>(a: Entity<ID>, b: Entity<ID>)
    ensures Equals(a, Some(b)) <==> a.runtimeClass == b.runtimeClass && a.id == b.id
  {
  }

  lemma EqualsReflexive<ID>(a: Entity<ID>)
    ensures Equals(a, Some(a))
  {
  }

  lemma EqualsFalseForNullOrOtherClass<ID>(a: Entity<ID>, o: Option<Entity<ID>>)
    requires o.None? || o.value.runtimeClass != a.runtimeClass
    ensures !Equals(a, o)
  {
  }

  /** Equal entities hash alike, whatever hash of ids is used. */
  lemma EqualEntitiesHashAlike<ID>(a: Entity<ID>, b: Entity<ID>, idHash: ID -> int)
    requires Equals(a, Some(b))
    ensures HashCode(a, idHash) == HashCode(b, idHash)
  {
  }

  /** getId(): the id given to the constructor. */
  lemma GetIdIsConstructorId<ID>(runtimeClass: string, id: ID)
    ensures NewEntity(runtimeClass, Some(id)) == Ok(Entity(runtimeClass, id))
  {
  }
}
