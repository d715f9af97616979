/** The generic CRUD engine: insert, update, remove, find by id and find
    all over one collection, each ending in an envelope.  Every failure the
    engine catches goes through one classifier.

    The functions describe each operation's envelope and the collection it
    leaves behind; the class `GenericCRUD` performs them step by step on a
    `Collection` and is proved to agree with them. */
module GenericCrud {
  import opened Documents
  import opened Store
  import opened ApiErrors
  import opened Envelope
  import HttpStatus

  /** What the engine can catch: an error it raised itself, or one raised by
      the persistence layer. */
  datatype Thrown = Api(apiError: APIError) | Persistence(storeError: StoreError)

  const INVALID_ID := APIError("Invalid ID", HttpStatus.BAD_REQUEST)
  const DOCUMENT_NOT_FOUND := APIError("Document not found", HttpStatus.NOT_FOUND)
  const ALREADY_EXISTS := "Document already exists"
  const UPDATED := "Document successfully updated"
  const REMOVED := "Document successfully removed"

  /** The read hook a specialisation supplies: records as stored, or with
      the reference under `path` populated from the collection `from`. */
  datatype Shaping = AsStored | PopulatePath(path: string, from: seq<Record>)

  /** An operation's envelope together with the collection after it. */
  datatype Outcome = Outcome(response: Response, records: seq<Record>)

  function SuccessResponse(data: Payload): (r: Response)
    ensures r.statusCode == HttpStatus.OK && r.data == data && r.message == ""
  {
    Response(data, "", HttpStatus.OK)
  }

  /** The classifier.  An `APIError` gives its own code and message; a
      `MongoError` with the duplicate-key code gives 409; any other
      `MongoError` leaves the status code at its initial 0 and keeps the
      error's message; anything else gives 500 with the error's message. */
  function FailedResponse(error: Thrown): (r: Response)
    ensures r.data == Undefined
    ensures error.Api? ==>
      r.statusCode == error.apiError.GetStatusCode() && r.message == error.apiError.message
    ensures error.Persistence? && error.storeError.MongoError? && error.storeError.code == DUPLICATE_KEY ==>
      r.statusCode == HttpStatus.CONFLICT && r.message == ALREADY_EXISTS
    ensures error.Persistence? && error.storeError.MongoError? && error.storeError.code != DUPLICATE_KEY ==>
      r.statusCode == 0 && r.message == error.storeError.message
    ensures error.Persistence? && error.storeError.OtherError? ==>
      r.statusCode == HttpStatus.INTERNAL_SERVER_ERROR && r.message == error.storeError.message
  {
    match error
    case Api(e) => Response(Undefined, e.message, e.GetStatusCode())
    case Persistence(MongoError(code, message)) =>
      if code == DUPLICATE_KEY then Response(Undefined, ALREADY_EXISTS, HttpStatus.CONFLICT)
      else Response(Undefined, message, 0)
    case Persistence(OtherError(message)) => Response(Undefined, message, HttpStatus.INTERNAL_SERVER_ERROR)
  }

  /** The default read hooks return records unchanged. */
  function OnFindDocument(shaping: Shaping, r: Record): (shaped: Record)
    ensures shaped.id == r.id
    ensures shaping.AsStored? ==> shaped == r
  {
    match shaping
    case AsStored => r
    case PopulatePath(path, from) => Populate(r, path, from)
  }

  function OnFindDocuments(shaping: Shaping, rs: seq<Record>): (shaped: seq<Record>)
    ensures |shaped| == |rs|
    ensures forall i | 0 <= i < |rs| :: shaped[i] == OnFindDocument(shaping, rs[i])
    ensures forall d :: d in shaped <==> exists c | c in rs :: d == OnFindDocument(shaping, c)
  {
    seq(|rs|, i requires 0 <= i < |rs| => OnFindDocument(shaping, rs[i]))
  }

  function InsertOutcome(rs: seq<Record>, unique: set<string>, document: Doc, newId: Id,
                         fault: Option<StoreError>): (o: Outcome)
    requires newId !in Ids(rs)
    ensures o.response.statusCode == HttpStatus.OK <==> fault.None? && !Collides(rs, unique, newId, document)
    ensures o.response.statusCode == HttpStatus.OK ==>
      o.response.data == Document(Record(newId, document)) && o.records == rs + [Record(newId, document)]
    ensures o.response.statusCode != HttpStatus.OK ==> o.records == rs && o.response.data == Undefined
    // a failing store call is answered by the classifier's envelope
    ensures fault.Some? ==> o == Outcome(FailedResponse(Persistence(fault.value)), rs)
  {
    var call := CreateCall(rs, unique, document, newId, fault);
    match call.result
    case Ok(created) => Outcome(SuccessResponse(Document(created)), call.records)
    case Err(e) => Outcome(FailedResponse(Persistence(e)), call.records)
  }

  function UpdateOutcome(isValid: Id -> bool, rs: seq<Record>, unique: set<string>, id: Id, patch: Doc,
                         fault: Option<StoreError>): (o: Outcome)
    ensures o.response.statusCode == HttpStatus.OK <==>
      isValid(id) && fault.None? && id in Ids(rs) && !Collides(rs, unique, id, Lookup(rs, id).value.fields + patch)
    ensures o.response.statusCode == HttpStatus.OK ==>
      o.response.data == Notice(UPDATED) && o.records == SetFields(rs, id, patch)
    ensures o.response.statusCode != HttpStatus.OK ==> o.records == rs && o.response.data == Undefined
    ensures isValid(id) && fault.Some? ==> o == Outcome(FailedResponse(Persistence(fault.value)), rs)
  {
    if isValid(id) then
      var call := UpdateOneCall(rs, unique, id, patch, fault);
      match call.result
      case Err(e) => Outcome(FailedResponse(Persistence(e)), call.records)
      case Ok(n) =>
        if n > 0 then Outcome(SuccessResponse(Notice(UPDATED)), call.records)
        else Outcome(FailedResponse(Api(DOCUMENT_NOT_FOUND)), call.records)
    else Outcome(FailedResponse(Api(INVALID_ID)), rs)
  }

  function RemoveOutcome(isValid: Id -> bool, rs: seq<Record>, id: Id, fault: Option<StoreError>): (o: Outcome)
    ensures o.response.statusCode == HttpStatus.OK <==> isValid(id) && fault.None? && id in Ids(rs)
    ensures o.response.statusCode == HttpStatus.OK ==> o.response.data == Notice(REMOVED)
    ensures o.response.statusCode != HttpStatus.OK ==> o.response.data == Undefined
    ensures id !in Ids(o.records) || o.records == rs
    ensures forall r | r in rs && r.id != id :: r in o.records
    ensures forall r | r in o.records :: r in rs
    ensures isValid(id) && fault.Some? ==> o == Outcome(FailedResponse(Persistence(fault.value)), rs)
  {
    if isValid(id) then
      var call := DeleteOneCall(rs, id, fault);
      match call.result
      case Err(e) => Outcome(FailedResponse(Persistence(e)), call.records)
      case Ok(n) =>
        if n > 0 then Outcome(SuccessResponse(Notice(REMOVED)), call.records)
        else Outcome(FailedResponse(Api(DOCUMENT_NOT_FOUND)), call.records)
    else Outcome(FailedResponse(Api(INVALID_ID)), rs)
  }

  function FindByIdResponse(isValid: Id -> bool, rs: seq<Record>, id: Id, fault: Option<StoreError>,
                            shaping: Shaping): (r: Response)
    ensures r.statusCode == HttpStatus.OK <==> isValid(id) && fault.None? && id in Ids(rs)
    ensures r.statusCode == HttpStatus.OK ==>
      r.data.Document? && r.data.record == OnFindDocument(shaping, Lookup(rs, id).value)
    ensures r.statusCode != HttpStatus.OK ==> r.data == Undefined
    ensures isValid(id) && fault.Some? ==> r == FailedResponse(Persistence(fault.value))
  {
    if isValid(id) then
      match FindByIdCall(rs, id, fault)
      case Err(e) => FailedResponse(Persistence(e))
      case Ok(None) => FailedResponse(Api(DOCUMENT_NOT_FOUND))
      case Ok(Some(document)) => SuccessResponse(Document(OnFindDocument(shaping, document)))
    else FailedResponse(Api(INVALID_ID))
  }

  function GetAllResponse(rs: seq<Record>, filter: Doc -> bool, fault: Option<StoreError>,
                          shaping: Shaping): (r: Response)
    ensures r.statusCode == HttpStatus.OK <==> fault.None?
    ensures fault.None? ==> r.data.Documents? && |r.data.records| <= |rs|
    // the records returned are exactly the matching ones, each through the read hook
    ensures fault.None? ==>
      forall d :: d in r.data.records <==> exists c | c in rs && filter(c.fields) :: d == OnFindDocument(shaping, c)
    ensures fault.None? && shaping.AsStored? ==>
      forall d :: d in r.data.records <==> d in rs && filter(d.fields)
    // each matching record is returned once
    ensures fault.None? && DistinctIds(rs) ==> DistinctIds(r.data.records)
    ensures fault.Some? ==> r == FailedResponse(Persistence(fault.value))
  {
    match FindCall(rs, filter, fault)
    case Err(e) => FailedResponse(Persistence(e))
    case Ok(documents) => SuccessResponse(Documents(OnFindDocuments(shaping, documents)))
  }

  // Properties of the engine that relate its operations and the store.

  /** An identifier that fails the validity check gets 400 "Invalid ID" from
      update, remove and find-by-id, before the store is asked anything. */
  lemma InvalidIdIsBadRequest(isValid: Id -> bool, rs: seq<Record>, unique: set<string>, id: Id,
                              patch: Doc, fault: Option<StoreError>, shaping: Shaping)
    requires !isValid(id)
    ensures UpdateOutcome(isValid, rs, unique, id, patch, fault) == Outcome(Response(Undefined, "Invalid ID", 400), rs)
    ensures RemoveOutcome(isValid, rs, id, fault) == Outcome(Response(Undefined, "Invalid ID", 400), rs)
    ensures FindByIdResponse(isValid, rs, id, fault, shaping) == Response(Undefined, "Invalid ID", 400)
  {
  }

  /** A valid identifier that matches nothing gets 404 "Document not found"
      from update, remove and find-by-id, and the collection is unchanged. */
  lemma MissingIdIsNotFound(isValid: Id -> bool, rs: seq<Record>, unique: set<string>, id: Id,
                            patch: Doc, shaping: Shaping)
    requires isValid(id) && id !in Ids(rs)
    ensures UpdateOutcome(isValid, rs, unique, id, patch, None) == Outcome(Response(Undefined, "Document not found", 404), rs)
    ensures RemoveOutcome(isValid, rs, id, None) == Outcome(Response(Undefined, "Document not found", 404), rs)
    ensures FindByIdResponse(isValid, rs, id, None, shaping) == Response(Undefined, "Document not found", 404)
  {
    var deleted := Filter(rs, IdOtherThan(id));
    assert deleted == rs by { FilterAllKept(rs, IdOtherThan(id)); }
  }

  /** Filtering with a predicate every record satisfies changes nothing. */
  lemma {:induction false} FilterAllKept(rs: seq<Record>, keep: Record -> bool)
    requires forall r | r in rs :: keep(r)
    ensures Filter(rs, keep) == rs
  {
    if rs != [] {
      assert forall r | r in rs[1..] :: r in rs;
      FilterAllKept(rs[1..], keep);
      assert [rs[0]] + rs[1..] == rs;
    }
  }

  /** The engine judges an update's success by the matched count, so a patch
      that changes nothing (the empty patch, or the record's current values)
      answers 200 and leaves the collection as it was. */
  lemma UnchangedPatchSucceeds(isValid: Id -> bool, rs: seq<Record>, unique: set<string>, id: Id,
                               patch: Doc, target: Record)
    requires WellFormed(rs, unique) && target in rs && target.id == id && isValid(id)
    requires Matches(target.fields, patch)
    ensures UpdateOutcome(isValid, rs, unique, id, patch, None).response == Response(Notice(UPDATED), "", 200)
    ensures UpdateOutcome(isValid, rs, unique, id, patch, None).records == rs
  {
    LookupFinds(rs, target);
    assert target.fields + patch == target.fields by {
      forall k | k in patch ensures k in target.fields && target.fields[k] == patch[k] {
      }
    }
    assert !Collides(rs, unique, id, target.fields);
    var call := UpdateOneCall(rs, unique, id, patch, None);
    assert call == Call(Ok(1), SetFields(rs, id, patch));
    assert SetFields(rs, id, patch) == rs;
  }

  /** Insert then find: the record created by a successful insert is the one
      find-by-id returns for the new identifier. */
  lemma InsertThenFind(isValid: Id -> bool, rs: seq<Record>, unique: set<string>, document: Doc, newId: Id)
    requires DistinctIds(rs) && newId !in Ids(rs) && isValid(newId)
    requires !Collides(rs, unique, newId, document)
    ensures var o := InsertOutcome(rs, unique, document, newId, None);
      o.response == Response(Document(Record(newId, document)), "", 200)
      && FindByIdResponse(isValid, o.records, newId, None, AsStored) == Response(Document(Record(newId, document)), "", 200)
  {
    var o := InsertOutcome(rs, unique, document, newId, None);
    AppendKeepsDistinct(rs, Record(newId, document));
    LookupFinds(o.records, Record(newId, document));
  }

  /** Update then find: after a successful update, find-by-id returns the
      record with the patch applied. */
  lemma UpdateThenFind(isValid: Id -> bool, rs: seq<Record>, unique: set<string>, id: Id, patch: Doc,
                       target: Record)
    requires DistinctIds(rs) && target in rs && target.id == id
    requires UpdateOutcome(isValid, rs, unique, id, patch, None).response.statusCode == HttpStatus.OK
    ensures var o := UpdateOutcome(isValid, rs, unique, id, patch, None);
      FindByIdResponse(isValid, o.records, id, None, AsStored) == Response(Document(Record(id, target.fields + patch)), "", 200)
  {
    var o := UpdateOutcome(isValid, rs, unique, id, patch, None);
    var updated := SetFields(rs, id, patch);
    var i :| 0 <= i < |rs| && rs[i] == target;
    assert updated[i] == Record(id, target.fields + patch);
    assert DistinctIds(updated) by {
      forall a, b | 0 <= a < b < |updated| ensures updated[a].id != updated[b].id {
        assert rs[a].id != rs[b].id;
      }
    }
    LookupFinds(updated, updated[i]);
  }

  /** Remove then find: after a successful remove the identifier is gone,
      so find-by-id and a second remove both answer 404. */
  lemma RemoveThenFind(isValid: Id -> bool, rs: seq<Record>, id: Id)
    requires isValid(id) && RemoveOutcome(isValid, rs, id, None).response.statusCode == HttpStatus.OK
    ensures var o := RemoveOutcome(isValid, rs, id, None);
      FindByIdResponse(isValid, o.records, id, None, AsStored) == Response(Undefined, "Document not found", 404)
      && RemoveOutcome(isValid, o.records, id, None).response == Response(Undefined, "Document not found", 404)
  {
    var o := RemoveOutcome(isValid, rs, id, None);
    MissingIdIsNotFound(isValid, o.records, {}, id, map[], AsStored);
  }

  /** A duplicate-key failure of insert answers 409 and inserts nothing. */
  lemma DuplicateInsertConflicts(rs: seq<Record>, unique: set<string>, document: Doc, newId: Id, existing: Record, k: string)
    requires newId !in Ids(rs) && existing in rs && k in unique
    requires k in document && k in existing.fields && existing.fields[k] == document[k]
    ensures InsertOutcome(rs, unique, document, newId, None) == Outcome(Response(Undefined, ALREADY_EXISTS, 409), rs)
  {
    assert existing.id != newId;
    assert Collides(rs, unique, newId, document);
  }

  /** An update that would give the target a unique field's value another
      record holds fails with the duplicate key and answers 409, writing
      nothing. */
  lemma UpdateCollisionConflicts(isValid: Id -> bool, rs: seq<Record>, unique: set<string>, id: Id, patch: Doc,
                                 target: Record, other: Record, k: string)
    requires DistinctIds(rs) && isValid(id) && target in rs && target.id == id
    requires other in rs && other.id != id && k in unique
    requires k in patch && k in other.fields && other.fields[k] == patch[k]
    ensures UpdateOutcome(isValid, rs, unique, id, patch, None) == Outcome(Response(Undefined, ALREADY_EXISTS, 409), rs)
  {
    LookupFinds(rs, target);
    assert Collides(rs, unique, id, target.fields + patch);
  }

  /** Find-all on an empty collection answers 200 with the empty list. */
  lemma GetAllEmpty(filter: Doc -> bool, shaping: Shaping)
    ensures GetAllResponse([], filter, None, shaping) == Response(Documents([]), "", 200)
  {
  }

  /** Unless the store fails with a `MongoError` that is not a duplicate key
      (which leaves the status at 0), update and remove answer with one of
      200, 400, 404, 409 and 500. */
  lemma StatusCodesAreKnown(isValid: Id -> bool, rs: seq<Record>, unique: set<string>, id: Id,
                            patch: Doc, fault: Option<StoreError>)
    requires fault.None? || fault.value.OtherError? || fault.value.code == DUPLICATE_KEY
    ensures UpdateOutcome(isValid, rs, unique, id, patch, fault).response.statusCode in {200, 400, 404, 409, 500}
    ensures RemoveOutcome(isValid, rs, id, fault).response.statusCode in {200, 400, 404, 409, 500}
  {
  }

  /** The engine, bound to one collection.  `isValid` is the persistence
      layer's identifier check (mongoose's `ObjectId.isValid`), whose rule
      lives outside this model. */
  class GenericCRUD {
    const model: Collection
    const isValid: Id -> bool

    constructor (model: Collection, isValid: Id -> bool)
      ensures this.model == model && this.isValid == isValid
    {
      this.model := model;
      this.isValid := isValid;
    }

    method GenerateSuccessResponse(document: Payload) returns (response: ApplicationResponse)
      ensures fresh(response) && response.View() == SuccessResponse(document)
    {
      response := new ApplicationResponse(document);
      response.SetStatusCode(HttpStatus.OK);
    }

    method GenerateFailedResponse(error: Thrown) returns (response: ApplicationResponse)
      ensures fresh(response) && response.View() == FailedResponse(error)
    {
      response := new ApplicationResponse(Undefined);
      match error
      case Api(e) =>
        response.SetMessage(e.message);
        var code := e.GetStatusCode();
        response.SetStatusCode(code);
      case Persistence(MongoError(code, message)) =>
        response.SetMessage(message);
        if code == DUPLICATE_KEY {
          response.SetMessage(ALREADY_EXISTS);
          response.SetStatusCode(HttpStatus.CONFLICT);
        }
      case Persistence(OtherError(message)) =>
        response.SetMessage(message);
        response.SetStatusCode(HttpStatus.INTERNAL_SERVER_ERROR);
    }

    method Insert(document: Doc, newId: Id, fault: Option<StoreError>) returns (response: ApplicationResponse)
      requires model.Valid() && newId !in Ids(model.records)
      modifies model
      ensures model.Valid() && fresh(response)
      ensures Outcome(response.View(), model.records) == InsertOutcome(old(model.records), model.unique, document, newId, fault)
    {
      var result := model.Create(document, newId, fault);
      match result
      case Ok(created) =>
        response := GenerateSuccessResponse(Document(created));
      case Err(e) =>
        response := GenerateFailedResponse(Persistence(e));
    }

    method Update(id: Id, document: Doc, fault: Option<StoreError>) returns (response: ApplicationResponse)
      requires model.Valid()
      modifies model
      ensures model.Valid() && fresh(response)
      ensures Outcome(response.View(), model.records) == UpdateOutcome(isValid, old(model.records), model.unique, id, document, fault)
    {
      if isValid(id) {
        var result := model.UpdateOne(id, document, fault);
        match result
        case Err(e) =>
          response := GenerateFailedResponse(Persistence(e));
        case Ok(n) =>
          if n > 0 {
            response := GenerateSuccessResponse(Notice(UPDATED));
          } else {
            response := GenerateFailedResponse(Api(DOCUMENT_NOT_FOUND));
          }
      } else {
        response := GenerateFailedResponse(Api(INVALID_ID));
      }
    }

    method Remove(id: Id, fault: Option<StoreError>) returns (response: ApplicationResponse)
      requires model.Valid()
      modifies model
      ensures model.Valid() && fresh(response)
      ensures Outcome(response.View(), model.records) == RemoveOutcome(isValid, old(model.records), id, fault)
    {
      if isValid(id) {
        var result := model.DeleteOne(id, fault);
        match result
        case Err(e) =>
          response := GenerateFailedResponse(Persistence(e));
        case Ok(n) =>
          if n > 0 {
            response := GenerateSuccessResponse(Notice(REMOVED));
          } else {
            response := GenerateFailedResponse(Api(DOCUMENT_NOT_FOUND));
          }
      } else {
        response := GenerateFailedResponse(Api(INVALID_ID));
      }
    }

    method FindById(id: Id, fault: Option<StoreError>, shaping: Shaping) returns (response: ApplicationResponse)
      ensures fresh(response)
      ensures response.View() == FindByIdResponse(isValid, model.records, id, fault, shaping)
    {
      if isValid(id) {
        var result := model.FindById(id, fault);
        match result
        case Err(e) =>
          response := GenerateFailedResponse(Persistence(e));
        case Ok(None) =>
          response := GenerateFailedResponse(Api(DOCUMENT_NOT_FOUND));
        case Ok(Some(document)) =>
          response := GenerateSuccessResponse(Document(OnFindDocument(shaping, document)));
      } else {
        response := GenerateFailedResponse(Api(INVALID_ID));
      }
    }

    method GetAll(filter: Doc -> bool, fault: Option<StoreError>, shaping: Shaping) returns (response: ApplicationResponse)
      ensures fresh(response)
      ensures response.View() == GetAllResponse(model.records, filter, fault, shaping)
    {
      var result := model.Find(filter, fault);
      match result
      case Err(e) =>
        response := GenerateFailedResponse(Persistence(e));
      case Ok(documents) =>
        response := GenerateSuccessResponse(Documents(OnFindDocuments(shaping, documents)));
    }
  }
}
