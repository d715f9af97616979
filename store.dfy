/** The persistence capability the CRUD layer calls: per collection, create,
    find by id, find many, update one, delete one, delete many and exists.
    A failure of the connection or of the store is not decided here: each
    call takes the failure it ends with, if any, as a parameter. */
module Store {
  import opened Documents

  /** Mongo's error code for a duplicate key in a unique index. */
  const DUPLICATE_KEY := 11000
  const DUPLICATE_KEY_MESSAGE := "E11000 duplicate key error"

  /** A failure raised by the persistence layer: a `MongoError` from the
      server, or any other error (cast, validation or driver errors). */
  datatype StoreError =
    | MongoError(code: int, message: string)
    | OtherError(message: string)

  datatype Result<T> = Ok(value: T) | Err(error: StoreError)

  /** The result of a writing call together with the collection after it. */
  datatype Call<T> = Call(result: Result<T>, records: seq<Record>)

  /** A promise that either resolves to a value or rejects with an error
      nobody caught. */
  datatype Settled<T> = Resolved(value: T) | Rejected(error: StoreError)

  /** `doc`, stored under `id`, would share the value of a unique field with
      some other record. */
  predicate Collides(rs: seq<Record>, unique: set<string>, id: Id, doc: Doc)
  {
    exists r, k | r in rs && k in unique ::
      r.id != id && k in doc && k in r.fields && r.fields[k] == doc[k]
  }

  /** The unique indexes hold: two records never share a unique field's value. */
  predicate UniqueRespected(rs: seq<Record>, unique: set<string>)
  {
    forall r, s, k | r in rs && s in rs && k in unique ::
      r.id != s.id && k in r.fields && k in s.fields ==> r.fields[k] != s.fields[k]
  }

  /** The store's invariant for a collection. */
  predicate WellFormed(rs: seq<Record>, unique: set<string>)
  {
    DistinctIds(rs) && UniqueRespected(rs, unique)
  }

  /** The record `id` with the fields of `patch` set (Mongo's `$set`). */
  function SetFields(rs: seq<Record>, id: Id, patch: Doc): (updated: seq<Record>)
    ensures |updated| == |rs|
    ensures forall i | 0 <= i < |rs| :: updated[i].id == rs[i].id
    ensures forall i | 0 <= i < |rs| && rs[i].id != id :: updated[i] == rs[i]
    ensures forall i | 0 <= i < |rs| && rs[i].id == id :: updated[i].fields == rs[i].fields + patch
  {
    seq(|rs|, i requires 0 <= i < |rs| =>
      if rs[i].id == id then Record(id, rs[i].fields + patch) else rs[i])
  }

  /** `create(doc)`: the new record gets the generator's identifier `newId`,
      or the call fails with a duplicate key when a unique field collides. */
  function CreateCall(rs: seq<Record>, unique: set<string>, doc: Doc, newId: Id,
                      fault: Option<StoreError>): (c: Call<Record>)
    requires newId !in Ids(rs)
    ensures c.result.Ok? <==> fault.None? && !Collides(rs, unique, newId, doc)
    ensures c.result.Ok? ==> c.result.value == Record(newId, doc) && c.records == rs + [Record(newId, doc)]
    ensures c.result.Err? ==> c.records == rs
    ensures fault.None? && Collides(rs, unique, newId, doc) ==> c.result == Err(MongoError(DUPLICATE_KEY, DUPLICATE_KEY_MESSAGE))
  {
    if fault.Some? then Call(Err(fault.value), rs)
    else if Collides(rs, unique, newId, doc) then Call(Err(MongoError(DUPLICATE_KEY, DUPLICATE_KEY_MESSAGE)), rs)
    else Call(Ok(Record(newId, doc)), rs + [Record(newId, doc)])
  }

  /** `updateOne({_id: id}, {$set: patch})`: the result is the number of
      records matched, which counts a patch that changes nothing. */
  function UpdateOneCall(rs: seq<Record>, unique: set<string>, id: Id, patch: Doc,
                         fault: Option<StoreError>): (c: Call<nat>)
    ensures c.result.Ok? ==> c.result.value == (if id in Ids(rs) then 1 else 0)
    ensures c.result.Ok? && id in Ids(rs) ==> c.records == SetFields(rs, id, patch)
    ensures !(c.result.Ok? && id in Ids(rs)) ==> c.records == rs
    ensures fault.Some? ==> c.result == Err(fault.value)
    // with no fault the call fails exactly when the patched record collides
    ensures c.result.Ok? <==>
      fault.None? && (id !in Ids(rs) || !Collides(rs, unique, id, Lookup(rs, id).value.fields + patch))
    ensures fault.None? && id in Ids(rs) && Collides(rs, unique, id, Lookup(rs, id).value.fields + patch) ==>
      c.result == Err(MongoError(DUPLICATE_KEY, DUPLICATE_KEY_MESSAGE))
  {
    if fault.Some? then Call(Err(fault.value), rs)
    else match Lookup(rs, id)
      case None => Call(Ok(0), rs)
      case Some(target) =>
        if Collides(rs, unique, id, target.fields + patch) then
          Call(Err(MongoError(DUPLICATE_KEY, DUPLICATE_KEY_MESSAGE)), rs)
        else Call(Ok(1), SetFields(rs, id, patch))
  }

  /** `deleteOne({_id: id})`: the result is the number of records deleted. */
  function DeleteOneCall(rs: seq<Record>, id: Id, fault: Option<StoreError>): (c: Call<nat>)
    ensures fault.Some? <==> c.result.Err?
    ensures c.result.Ok? ==> c.result.value == (if id in Ids(rs) then 1 else 0)
    ensures c.result.Ok? ==> id !in Ids(c.records)
    ensures c.result.Ok? ==> forall r | r in rs && r.id != id :: r in c.records
    ensures forall r | r in c.records :: r in rs
    ensures c.result.Err? ==> c.records == rs
  {
    if fault.Some? then Call(Err(fault.value), rs)
    else Call(Ok(if id in Ids(rs) then 1 else 0), Filter(rs, IdOtherThan(id)))
  }

  /** `deleteMany(filter)`: every record matching `filter` goes. */
  function DeleteManyCall(rs: seq<Record>, filter: Doc, fault: Option<StoreError>): (c: Call<nat>)
    ensures fault.Some? <==> c.result.Err?
    ensures c.result.Ok? ==> forall r :: r in c.records <==> r in rs && !Matches(r.fields, filter)
    ensures c.result.Ok? ==> c.result.value == |rs| - |c.records|
    ensures c.result.Err? ==> c.records == rs
  {
    if fault.Some? then Call(Err(fault.value), rs)
    else
      var kept := Filter(rs, NotMatching(filter));
      Call(Ok(|rs| - |kept|), kept)
  }

  /** `findById(id)`. */
  function FindByIdCall(rs: seq<Record>, id: Id, fault: Option<StoreError>): (res: Result<Option<Record>>)
    ensures fault.Some? <==> res.Err?
    ensures res.Ok? ==> (res.value.Some? <==> id in Ids(rs))
    ensures res.Ok? && res.value.Some? ==> res.value.value in rs && res.value.value.id == id
  {
    if fault.Some? then Err(fault.value) else Ok(Lookup(rs, id))
  }

  /** `find(filter)`: the records whose fields satisfy the filter. */
  function FindCall(rs: seq<Record>, filter: Doc -> bool, fault: Option<StoreError>): (res: Result<seq<Record>>)
    ensures fault.Some? <==> res.Err?
    ensures res.Ok? ==> forall r :: r in res.value <==> r in rs && filter(r.fields)
    // each stored record comes back at most once
    ensures res.Ok? && DistinctIds(rs) ==> DistinctIds(res.value)
  {
    if fault.Some? then Err(fault.value)
    else
      var found := Filter(rs, FieldsSatisfy(filter));
      assert DistinctIds(rs) ==> DistinctIds(found) by {
        if DistinctIds(rs) { FilterKeepsDistinct(rs, FieldsSatisfy(filter)); }
      }
      Ok(found)
  }

  /** `exists(filter)`: some record matches every field of `filter`. */
  function ExistsCall(rs: seq<Record>, filter: Doc, fault: Option<StoreError>): (res: Result<bool>)
    ensures fault.Some? <==> res.Err?
    ensures res.Ok? ==> (res.value <==> exists r | r in rs :: Matches(r.fields, filter))
  {
    if fault.Some? then Err(fault.value) else Ok(exists r | r in rs :: Matches(r.fields, filter))
  }

  lemma FilterKeepsWellFormed(rs: seq<Record>, unique: set<string>, keep: Record -> bool)
    requires WellFormed(rs, unique)
    ensures WellFormed(Filter(rs, keep), unique)
  {
    FilterKeepsDistinct(rs, keep);
  }

  /** A successful create keeps identifiers distinct and the unique indexes intact. */
  lemma CreateKeepsWellFormed(rs: seq<Record>, unique: set<string>, doc: Doc, newId: Id,
                              fault: Option<StoreError>)
    requires WellFormed(rs, unique) && newId !in Ids(rs)
    ensures WellFormed(CreateCall(rs, unique, doc, newId, fault).records, unique)
  {
    var c := CreateCall(rs, unique, doc, newId, fault);
    if c.result.Ok? {
      AppendKeepsDistinct(rs, Record(newId, doc));
    }
  }

  /** A successful update keeps identifiers distinct and the unique indexes intact. */
  lemma UpdateOneKeepsWellFormed(rs: seq<Record>, unique: set<string>, id: Id, patch: Doc,
                                 fault: Option<StoreError>)
    requires WellFormed(rs, unique)
    ensures WellFormed(UpdateOneCall(rs, unique, id, patch, fault).records, unique)
  {
    var c := UpdateOneCall(rs, unique, id, patch, fault);
    if c.result.Ok? && id in Ids(rs) {
      var target := Lookup(rs, id).value;
      assert !Collides(rs, unique, id, target.fields + patch);
      var updated := SetFields(rs, id, patch);
      assert c.records == updated;
      forall i, j | 0 <= i < j < |updated|
        ensures updated[i].id != updated[j].id
      {
        assert rs[i].id != rs[j].id;
      }
      forall r, s, k | r in updated && s in updated && k in unique
        ensures r.id != s.id && k in r.fields && k in s.fields ==> r.fields[k] != s.fields[k]
      {
        var a :| 0 <= a < |updated| && updated[a] == r;
        var b :| 0 <= b < |updated| && updated[b] == s;
        assert rs[a] in rs && rs[b] in rs;
        if rs[a].id == id {
          LookupFinds(rs, rs[a]);
          assert r.fields == target.fields + patch;
        }
        if rs[b].id == id {
          LookupFinds(rs, rs[b]);
          assert s.fields == target.fields + patch;
        }
      }
    }
  }

  lemma DeleteOneKeepsWellFormed(rs: seq<Record>, unique: set<string>, id: Id, fault: Option<StoreError>)
    requires WellFormed(rs, unique)
    ensures WellFormed(DeleteOneCall(rs, id, fault).records, unique)
  {
    FilterKeepsWellFormed(rs, unique, IdOtherThan(id));
  }

  lemma DeleteManyKeepsWellFormed(rs: seq<Record>, unique: set<string>, filter: Doc, fault: Option<StoreError>)
    requires WellFormed(rs, unique)
    ensures WellFormed(DeleteManyCall(rs, filter, fault).records, unique)
  {
    FilterKeepsWellFormed(rs, unique, NotMatching(filter));
  }

  /** A mongoose model: one collection of the store, with the fields its
      schema declares unique. */
  class Collection {
    const unique: set<string>
    var records: seq<Record>

    ghost predicate Valid()
      reads this
    {
      WellFormed(records, unique)
    }

    constructor (unique: set<string>)
      ensures Valid() && this.unique == unique && records == []
    {
      this.unique := unique;
      records := [];
    }

    method Create(doc: Doc, newId: Id, fault: Option<StoreError>) returns (result: Result<Record>)
      requires Valid() && newId !in Ids(records)
      modifies this
      ensures Valid()
      ensures Call(result, records) == CreateCall(old(records), unique, doc, newId, fault)
    {
      CreateKeepsWellFormed(records, unique, doc, newId, fault);
      var c := CreateCall(records, unique, doc, newId, fault);
      result, records := c.result, c.records;
    }

    method UpdateOne(id: Id, patch: Doc, fault: Option<StoreError>) returns (result: Result<nat>)
      requires Valid()
      modifies this
      ensures Valid()
      ensures Call(result, records) == UpdateOneCall(old(records), unique, id, patch, fault)
    {
      UpdateOneKeepsWellFormed(records, unique, id, patch, fault);
      var c := UpdateOneCall(records, unique, id, patch, fault);
      result, records := c.result, c.records;
    }

    method DeleteOne(id: Id, fault: Option<StoreError>) returns (result: Result<nat>)
      requires Valid()
      modifies this
      ensures Valid()
      ensures Call(result, records) == DeleteOneCall(old(records), id, fault)
    {
      DeleteOneKeepsWellFormed(records, unique, id, fault);
      var c := DeleteOneCall(records, id, fault);
      result, records := c.result, c.records;
    }

    method DeleteMany(filter: Doc, fault: Option<StoreError>) returns (result: Result<nat>)
      requires Valid()
      modifies this
      ensures Valid()
      ensures Call(result, records) == DeleteManyCall(old(records), filter, fault)
    {
      DeleteManyKeepsWellFormed(records, unique, filter, fault);
      var c := DeleteManyCall(records, filter, fault);
      result, records := c.result, c.records;
    }

    method FindById(id: Id, fault: Option<StoreError>) returns (result: Result<Option<Record>>)
      ensures result == FindByIdCall(records, id, fault)
    {
      result := FindByIdCall(records, id, fault);
    }

    method Find(filter: Doc -> bool, fault: Option<StoreError>) returns (result: Result<seq<Record>>)
      ensures result == FindCall(records, filter, fault)
    {
      result := FindCall(records, filter, fault);
    }

    method Exists(filter: Doc, fault: Option<StoreError>) returns (result: Result<bool>)
      ensures result == ExistsCall(records, filter, fault)
    {
      result := ExistsCall(records, filter, fault);
    }
  }
}
