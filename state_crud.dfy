/** The State specialisation of the CRUD engine.  It inherits insert,
    update, find-by-id and find-all unchanged and overrides remove: after
    the State's own removal it deletes every City that references the
    State, whatever the removal answered, and returns the removal's
    envelope.  The cascade's call is not inside the engine's error
    handling, so a failure of it rejects the operation instead. */
module StateCrud {
  import opened Documents
  import opened Store
  import opened Envelope
  import opened GenericCrud
  import HttpStatus

  /** The State schema's unique fields. */
  const STATE_UNIQUE: set<string> := {"name", "abbreviation"}

  /** The City field that references the owning State. */
  const STATE_REF := "state"

  /** The cascade's filter: the Cities whose State is `id`. */
  function CitiesOf(id: Id): (filter: Doc)
    ensures forall c: Record :: Matches(c.fields, filter) <==> STATE_REF in c.fields && c.fields[STATE_REF] == Ref(id)
  {
    map[STATE_REF := Ref(id)]
  }

  predicate References(c: Record, id: Id)
  {
    STATE_REF in c.fields && c.fields[STATE_REF] == Ref(id)
  }

  /** Every City references a State that exists. */
  predicate NoOrphans(states: seq<Record>, cities: seq<Record>)
  {
    forall c | c in cities :: STATE_REF in c.fields && c.fields[STATE_REF].Ref? && c.fields[STATE_REF].ref in Ids(states)
  }

  /** How a State removal settles, with both collections after it. */
  datatype Removal = Removal(settled: Settled<Response>, states: seq<Record>, cities: seq<Record>)

  function CascadingRemoveOutcome(isValid: Id -> bool, states: seq<Record>, cities: seq<Record>, id: Id,
                                  fault: Option<StoreError>, cascadeFault: Option<StoreError>): (o: Removal)
    // the State removal's effect stands whatever the cascade does
    ensures o.states == GenericCrud.RemoveOutcome(isValid, states, id, fault).records
    // the envelope is the generic removal's; the cascade's result is dropped
    ensures o.settled.Resolved? <==> cascadeFault.None?
    ensures o.settled.Resolved? ==> o.settled.value == GenericCrud.RemoveOutcome(isValid, states, id, fault).response
    ensures o.settled.Rejected? ==> o.settled.error == cascadeFault.value && o.cities == cities
    // the cascade removes exactly the Cities of `id`
    ensures o.settled.Resolved? ==> forall c :: c in o.cities <==> c in cities && !References(c, id)
  {
    var removed := GenericCrud.RemoveOutcome(isValid, states, id, fault);
    var cascade := DeleteManyCall(cities, CitiesOf(id), cascadeFault);
    match cascade.result
    case Ok(_) => Removal(Resolved(removed.response), removed.records, cascade.records)
    case Err(e) => Removal(Rejected(e), removed.records, cities)
  }

  /** After a State removal that settles, no City references the State. */
  lemma NoCityReferencesRemovedState(isValid: Id -> bool, states: seq<Record>, cities: seq<Record>, id: Id,
                                     fault: Option<StoreError>)
    ensures var o := CascadingRemoveOutcome(isValid, states, cities, id, fault, None);
      forall c | c in o.cities :: !References(c, id)
  {
  }

  /** The cascade is unconditional: when the State is not found the envelope
      is 404, and the Cities that reference the identifier are deleted all
      the same. */
  lemma CascadeRunsOnNotFound(isValid: Id -> bool, states: seq<Record>, cities: seq<Record>, id: Id)
    requires isValid(id) && id !in Ids(states)
    ensures var o := CascadingRemoveOutcome(isValid, states, cities, id, None, None);
      o.settled == Resolved(Response(Undefined, "Document not found", 404))
      && o.states == states
      && forall c :: c in o.cities <==> c in cities && !References(c, id)
  {
    MissingIdIsNotFound(isValid, states, STATE_UNIQUE, id, map[], AsStored);
  }

  /** Removing a State keeps every other State and every City of another
      State. */
  lemma RemoveKeepsTheRest(isValid: Id -> bool, states: seq<Record>, cities: seq<Record>, id: Id,
                           fault: Option<StoreError>, cascadeFault: Option<StoreError>)
    ensures var o := CascadingRemoveOutcome(isValid, states, cities, id, fault, cascadeFault);
      (forall s | s in states && s.id != id :: s in o.states)
      && (forall c | c in cities && !References(c, id) :: c in o.cities)
  {
  }

  /** If every City had its State before, a removal that settles leaves no
      orphan either. */
  lemma RemoveKeepsNoOrphans(isValid: Id -> bool, states: seq<Record>, cities: seq<Record>, id: Id,
                             fault: Option<StoreError>)
    requires NoOrphans(states, cities)
    ensures var o := CascadingRemoveOutcome(isValid, states, cities, id, fault, None);
      NoOrphans(o.states, o.cities)
  {
    var o := CascadingRemoveOutcome(isValid, states, cities, id, fault, None);
    forall c | c in o.cities
      ensures STATE_REF in c.fields && c.fields[STATE_REF].Ref? && c.fields[STATE_REF].ref in Ids(o.states)
    {
      var ref := c.fields[STATE_REF].ref;
      var s :| s in states && s.id == ref;
      assert s in o.states;
    }
  }

  /** The two writes are not atomic: when the State goes but the cascade
      fails, its Cities stay behind as orphans. */
  lemma FailedCascadeLeavesOrphans(isValid: Id -> bool, states: seq<Record>, cities: seq<Record>, id: Id,
                                   city: Record, failure: StoreError)
    requires isValid(id) && id in Ids(states) && city in cities && References(city, id)
    ensures var o := CascadingRemoveOutcome(isValid, states, cities, id, None, Some(failure));
      o.settled == Rejected(failure) && id !in Ids(o.states) && !NoOrphans(o.states, o.cities)
  {
  }

  /** A State whose name or abbreviation is already taken is refused with 409
      by the inherited insert, through the duplicate-key classification. */
  lemma DuplicateStateConflicts(states: seq<Record>, document: Doc, newId: Id, existing: Record, field: string)
    requires newId !in Ids(states) && existing in states && field in STATE_UNIQUE
    requires field in document && field in existing.fields && existing.fields[field] == document[field]
    ensures InsertOutcome(states, STATE_UNIQUE, document, newId, None) == Outcome(Response(Undefined, "Document already exists", 409), states)
  {
    DuplicateInsertConflicts(states, STATE_UNIQUE, document, newId, existing, field);
  }

  /** The State CRUD: the engine bound to the State collection, and the City
      collection its cascade deletes from. */
  class StateCRUD {
    const engine: GenericCRUD
    const cities: Collection

    ghost predicate Valid()
      reads engine.model, cities
    {
      engine.model != cities && engine.model.unique == STATE_UNIQUE
      && engine.model.Valid() && cities.Valid()
    }

    constructor (states: Collection, cities: Collection, isValid: Id -> bool)
      requires states != cities && states.unique == STATE_UNIQUE && states.Valid() && cities.Valid()
      ensures Valid() && engine.model == states && engine.isValid == isValid && this.cities == cities
    {
      engine := new GenericCRUD(states, isValid);
      this.cities := cities;
    }

    method Insert(document: Doc, newId: Id, fault: Option<StoreError>) returns (response: ApplicationResponse)
      requires Valid() && newId !in Ids(engine.model.records)
      modifies engine.model
      ensures Valid() && fresh(response)
      ensures Outcome(response.View(), engine.model.records)
        == InsertOutcome(old(engine.model.records), STATE_UNIQUE, document, newId, fault)
    {
      response := engine.Insert(document, newId, fault);
    }

    method Update(id: Id, document: Doc, fault: Option<StoreError>) returns (response: ApplicationResponse)
      requires Valid()
      modifies engine.model
      ensures Valid() && fresh(response)
      ensures Outcome(response.View(), engine.model.records)
        == UpdateOutcome(engine.isValid, old(engine.model.records), STATE_UNIQUE, id, document, fault)
    {
      response := engine.Update(id, document, fault);
    }

    method FindById(id: Id, fault: Option<StoreError>) returns (response: ApplicationResponse)
      ensures fresh(response)
      ensures response.View() == FindByIdResponse(engine.isValid, engine.model.records, id, fault, AsStored)
    {
      response := engine.FindById(id, fault, AsStored);
    }

    method GetAll(filter: Doc -> bool, fault: Option<StoreError>) returns (response: ApplicationResponse)
      ensures fresh(response)
      ensures response.View() == GetAllResponse(engine.model.records, filter, fault, AsStored)
    {
      response := engine.GetAll(filter, fault, AsStored);
    }

    /** The overridden remove: the State's removal, then the cascade. */
    method Remove(id: Id, fault: Option<StoreError>, cascadeFault: Option<StoreError>)
      returns (settled: Settled<ApplicationResponse>)
      requires Valid()
      modifies engine.model, cities
      ensures Valid()
      ensures settled.Resolved? ==> fresh(settled.value)
      ensures Removal(Viewed(settled), engine.model.records, cities.records)
        == CascadingRemoveOutcome(engine.isValid, old(engine.model.records), old(cities.records), id, fault, cascadeFault)
    {
      var result := engine.Remove(id, fault);
      var cityRemovalResult := cities.DeleteMany(CitiesOf(id), cascadeFault);
      match cityRemovalResult
      case Ok(_) =>
        settled := Resolved(result);
      case Err(e) =>
        settled := Rejected(e);
    }
  }
}
