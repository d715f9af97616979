/** The City specialisation of the CRUD engine.  Before insert and update it
    asks the store whether some City already matches every field of the
    submitted document; if one does it answers 409 without writing, and
    otherwise it hands over to the generic operation.  Its read hooks
    populate each City's `state` reference with the State record.  The
    existence check is not inside the engine's error handling, so a failure
    of it rejects the operation. */
module CityCrud {
  import opened Documents
  import opened Store
  import opened Envelope
  import opened GenericCrud
  import HttpStatus

  /** The City schema declares no unique field. */
  const CITY_UNIQUE: set<string> := {}

  /** The field the read hooks populate. */
  const STATE_PATH := "state"

  /** The envelope of the pre-write duplicate check. */
  const CONFLICT_RESPONSE := Response(Undefined, ALREADY_EXISTS, HttpStatus.CONFLICT)

  /** A City write, with the City collection after it. */
  datatype Write = Write(settled: Settled<Response>, records: seq<Record>)

  /** The read hooks of the City CRUD. */
  function PopulateState(states: seq<Record>): (shaping: Shaping)
    ensures forall r :: OnFindDocument(shaping, r) == Populate(r, STATE_PATH, states)
  {
    PopulatePath(STATE_PATH, states)
  }

  predicate SomeCityMatches(cities: seq<Record>, document: Doc)
  {
    exists c | c in cities :: Matches(c.fields, document)
  }

  function CheckedInsertOutcome(cities: seq<Record>, document: Doc, newId: Id,
                                existsFault: Option<StoreError>, createFault: Option<StoreError>): (o: Write)
    requires newId !in Ids(cities)
    ensures existsFault.Some? ==> o == Write(Rejected(existsFault.value), cities)
    ensures existsFault.None? && SomeCityMatches(cities, document) ==> o == Write(Resolved(CONFLICT_RESPONSE), cities)
    ensures existsFault.None? && !SomeCityMatches(cities, document) ==>
      var g := InsertOutcome(cities, CITY_UNIQUE, document, newId, createFault);
      o == Write(Resolved(g.response), g.records)
  {
    match ExistsCall(cities, document, existsFault)
    case Err(e) => Write(Rejected(e), cities)
    case Ok(documentExists) =>
      if documentExists then Write(Resolved(CONFLICT_RESPONSE), cities)
      else
        var g := InsertOutcome(cities, CITY_UNIQUE, document, newId, createFault);
        Write(Resolved(g.response), g.records)
  }

  function CheckedUpdateOutcome(isValid: Id -> bool, cities: seq<Record>, id: Id, patch: Doc,
                                existsFault: Option<StoreError>, updateFault: Option<StoreError>): (o: Write)
    ensures existsFault.Some? ==> o == Write(Rejected(existsFault.value), cities)
    ensures existsFault.None? && SomeCityMatches(cities, patch) ==> o == Write(Resolved(CONFLICT_RESPONSE), cities)
    ensures existsFault.None? && !SomeCityMatches(cities, patch) ==>
      var g := UpdateOutcome(isValid, cities, CITY_UNIQUE, id, patch, updateFault);
      o == Write(Resolved(g.response), g.records)
  {
    match ExistsCall(cities, patch, existsFault)
    case Err(e) => Write(Rejected(e), cities)
    case Ok(documentExists) =>
      if documentExists then Write(Resolved(CONFLICT_RESPONSE), cities)
      else
        var g := UpdateOutcome(isValid, cities, CITY_UNIQUE, id, patch, updateFault);
        Write(Resolved(g.response), g.records)
  }

  /** No two Cities have the same fields. */
  predicate NoTwinCities(cities: seq<Record>)
  {
    forall i, j | 0 <= i < j < |cities| :: cities[i].fields != cities[j].fields
  }

  /** The pre-write conflict envelope is the one the classifier gives a
      duplicate-key failure, so the two ways of refusing look the same. */
  lemma ConflictIsDuplicateKeyEnvelope(message: string)
    ensures CONFLICT_RESPONSE == FailedResponse(Persistence(MongoError(DUPLICATE_KEY, message)))
  {
  }

  /** The duplicate check runs before the identifier is validated: an invalid
      identifier with a patch that some City matches gets 409, not 400. */
  lemma ConflictPrecedesIdValidation(isValid: Id -> bool, cities: seq<Record>, id: Id, patch: Doc,
                                     city: Record, updateFault: Option<StoreError>)
    requires !isValid(id) && city in cities && Matches(city.fields, patch)
    ensures CheckedUpdateOutcome(isValid, cities, id, patch, None, updateFault)
      == Write(Resolved(Response(Undefined, "Document already exists", 409)), cities)
    ensures UpdateOutcome(isValid, cities, CITY_UNIQUE, id, patch, updateFault).response
      == Response(Undefined, "Invalid ID", 400)
  {
  }

  /** An empty patch matches every City, so on a non-empty collection it is
      always refused with 409, whatever the identifier. */
  lemma EmptyPatchConflicts(isValid: Id -> bool, cities: seq<Record>, id: Id, updateFault: Option<StoreError>)
    requires cities != []
    ensures CheckedUpdateOutcome(isValid, cities, id, map[], None, updateFault).settled == Resolved(CONFLICT_RESPONSE)
  {
    assert Matches(cities[0].fields, map[]);
  }

  /** Saving a City with values it already has is refused with 409, because
      the City matches its own patch; the generic update would have
      answered 200. */
  lemma UnchangedSaveConflicts(isValid: Id -> bool, cities: seq<Record>, target: Record, patch: Doc)
    requires WellFormed(cities, CITY_UNIQUE) && target in cities && isValid(target.id)
    requires Matches(target.fields, patch)
    ensures CheckedUpdateOutcome(isValid, cities, target.id, patch, None, None).settled == Resolved(CONFLICT_RESPONSE)
    ensures UpdateOutcome(isValid, cities, CITY_UNIQUE, target.id, patch, None).response.statusCode == HttpStatus.OK
  {
    UnchangedPatchSucceeds(isValid, cities, CITY_UNIQUE, target.id, patch, target);
  }

  /** A City insert never creates a twin of an existing City. */
  lemma InsertKeepsNoTwins(cities: seq<Record>, document: Doc, newId: Id,
                           existsFault: Option<StoreError>, createFault: Option<StoreError>)
    requires newId !in Ids(cities) && NoTwinCities(cities)
    ensures NoTwinCities(CheckedInsertOutcome(cities, document, newId, existsFault, createFault).records)
  {
    var o := CheckedInsertOutcome(cities, document, newId, existsFault, createFault);
    if o.records != cities {
      assert existsFault.None? && !SomeCityMatches(cities, document);
      var all := cities + [Record(newId, document)];
      assert o.records == all;
      forall i, j | 0 <= i < j < |all|
        ensures all[i].fields != all[j].fields
      {
        if j == |cities| {
          assert all[i] == cities[i] && cities[i] in cities;
          assert !Matches(cities[i].fields, document);
        }
      }
    }
  }

  /** Setting a patch that no City matches cannot make two Cities twins. */
  lemma SetFieldsKeepsNoTwins(cities: seq<Record>, id: Id, patch: Doc)
    requires DistinctIds(cities) && NoTwinCities(cities)
    requires forall c | c in cities :: !Matches(c.fields, patch)
    ensures NoTwinCities(SetFields(cities, id, patch))
  {
    var updated := SetFields(cities, id, patch);
    forall i, j | 0 <= i < j < |updated|
      ensures updated[i].fields != updated[j].fields
    {
      if cities[i].id == id {
        assert cities[j].id != id && updated[j] == cities[j] && cities[j] in cities;
        assert Matches(updated[i].fields, patch);
      } else if cities[j].id == id {
        assert updated[i] == cities[i] && cities[i] in cities;
        assert Matches(updated[j].fields, patch);
      }
    }
  }

  /** A City update never turns a City into the twin of another. */
  lemma UpdateKeepsNoTwins(isValid: Id -> bool, cities: seq<Record>, id: Id, patch: Doc,
                           existsFault: Option<StoreError>, updateFault: Option<StoreError>)
    requires DistinctIds(cities) && NoTwinCities(cities)
    ensures NoTwinCities(CheckedUpdateOutcome(isValid, cities, id, patch, existsFault, updateFault).records)
  {
    var o := CheckedUpdateOutcome(isValid, cities, id, patch, existsFault, updateFault);
    if o.records != cities {
      SetFieldsKeepsNoTwins(cities, id, patch);
    }
  }

  /** Find-by-id returns the City with its State populated. */
  lemma FindByIdPopulatesState(isValid: Id -> bool, cities: seq<Record>, states: seq<Record>,
                               city: Record, state: Record)
    requires DistinctIds(cities) && DistinctIds(states) && city in cities && state in states
    requires isValid(city.id) && STATE_PATH in city.fields && city.fields[STATE_PATH] == Ref(state.id)
    ensures FindByIdResponse(isValid, cities, city.id, None, PopulateState(states))
      == Response(Document(Record(city.id, city.fields[STATE_PATH := Embedded(state.id, state.fields)])), "", 200)
  {
    LookupFinds(cities, city);
    LookupFinds(states, state);
  }

  /** Find-all returns every matching City, each with its State populated,
      and nothing else. */
  lemma GetAllPopulatesEach(cities: seq<Record>, states: seq<Record>, filter: Doc -> bool)
    ensures var r := GetAllResponse(cities, filter, None, PopulateState(states));
      r.statusCode == HttpStatus.OK && r.data.Documents?
      && (forall d | d in r.data.records ::
            exists c | c in cities && filter(c.fields) :: d == Populate(c, STATE_PATH, states))
      && (forall c | c in cities && filter(c.fields) :: Populate(c, STATE_PATH, states) in r.data.records)
  {
    var r := GetAllResponse(cities, filter, None, PopulateState(states));
    forall c | c in cities && filter(c.fields)
      ensures Populate(c, STATE_PATH, states) in r.data.records
    {
      assert Populate(c, STATE_PATH, states) == OnFindDocument(PopulateState(states), c);
    }
  }

  /** The City CRUD: the engine bound to the City collection, and the State
      collection its read hooks populate from. */
  class CityCRUD {
    const engine: GenericCRUD
    const states: Collection

    ghost predicate Valid()
      reads engine.model, states
    {
      engine.model != states && engine.model.unique == CITY_UNIQUE
      && engine.model.Valid() && states.Valid()
    }

    constructor (cities: Collection, states: Collection, isValid: Id -> bool)
      requires cities != states && cities.unique == CITY_UNIQUE && cities.Valid() && states.Valid()
      ensures Valid() && engine.model == cities && engine.isValid == isValid && this.states == states
    {
      engine := new GenericCRUD(cities, isValid);
      this.states := states;
    }

    method NewConflictResponse() returns (response: ApplicationResponse)
      ensures fresh(response) && response.View() == CONFLICT_RESPONSE
    {
      response := new ApplicationResponse(Undefined);
      response.SetMessage(ALREADY_EXISTS);
      response.SetStatusCode(HttpStatus.CONFLICT);
    }

    /** The overridden insert: the duplicate check, then the generic insert. */
    method Insert(document: Doc, newId: Id, existsFault: Option<StoreError>, createFault: Option<StoreError>)
      returns (settled: Settled<ApplicationResponse>)
      requires Valid() && newId !in Ids(engine.model.records)
      modifies engine.model
      ensures Valid()
      ensures settled.Resolved? ==> fresh(settled.value)
      ensures Write(Viewed(settled), engine.model.records)
        == CheckedInsertOutcome(old(engine.model.records), document, newId, existsFault, createFault)
    {
      var documentExists := engine.model.Exists(document, existsFault);
      match documentExists
      case Err(e) =>
        settled := Rejected(e);
      case Ok(true) =>
        var response := NewConflictResponse();
        settled := Resolved(response);
      case Ok(false) =>
        var response := engine.Insert(document, newId, createFault);
        settled := Resolved(response);
    }

    /** The overridden update: the duplicate check, then the generic update. */
    method Update(id: Id, document: Doc, existsFault: Option<StoreError>, updateFault: Option<StoreError>)
      returns (settled: Settled<ApplicationResponse>)
      requires Valid()
      modifies engine.model
      ensures Valid()
      ensures settled.Resolved? ==> fresh(settled.value)
      ensures Write(Viewed(settled), engine.model.records)
        == CheckedUpdateOutcome(engine.isValid, old(engine.model.records), id, document, existsFault, updateFault)
    {
      var documentExists := engine.model.Exists(document, existsFault);
      match documentExists
      case Err(e) =>
        settled := Rejected(e);
      case Ok(true) =>
        var response := NewConflictResponse();
        settled := Resolved(response);
      case Ok(false) =>
        var response := engine.Update(id, document, updateFault);
        settled := Resolved(response);
    }

    method Remove(id: Id, fault: Option<StoreError>) returns (response: ApplicationResponse)
      requires Valid()
      modifies engine.model
      ensures Valid() && fresh(response)
      ensures Outcome(response.View(), engine.model.records)
        == RemoveOutcome(engine.isValid, old(engine.model.records), id, fault)
    {
      response := engine.Remove(id, fault);
    }

    /** Find-by-id through the populating read hook. */
    method FindById(id: Id, fault: Option<StoreError>) returns (response: ApplicationResponse)
      ensures fresh(response)
      ensures response.View() == FindByIdResponse(engine.isValid, engine.model.records, id, fault, PopulateState(states.records))
    {
      response := engine.FindById(id, fault, PopulateState(states.records));
    }

    /** Find-all through the populating read hook. */
    method GetAll(filter: Doc -> bool, fault: Option<StoreError>) returns (response: ApplicationResponse)
      ensures fresh(response)
      ensures response.View() == GetAllResponse(engine.model.records, filter, fault, PopulateState(states.records))
    {
      response := engine.GetAll(filter, fault, PopulateState(states.records));
    }
  }
}
