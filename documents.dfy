/** Documents as the document store keeps them: a record is an identifier
    and a map from field names to values, and a collection is the sequence
    of its records in the store's natural order. */
module Documents {

  /** A store-assigned identifier, in its textual form. */
  type Id = string

  /** A field value.  `Ref` is a reference to a record of another
      collection; `Embedded` is what a reference becomes once it is
      populated, and `Null` what it becomes when nothing has that id. */
  datatype Value =
    | Text(text: string)
    | Ref(ref: Id)
    | Null
    | Embedded(embeddedId: Id, embeddedFields: map<string, Value>)

  type Doc = map<string, Value>

  datatype Record = Record(id: Id, fields: Doc)

  datatype Option<T> = None | Some(value: T)

  function Ids(rs: seq<Record>): set<Id>
  {
    set r | r in rs :: r.id
  }

  /** No two records of the collection share an identifier. */
  predicate DistinctIds(rs: seq<Record>)
  {
    forall i, j | 0 <= i < j < |rs| :: rs[i].id != rs[j].id
  }

  /** Field-by-field agreement is inclusion of the field/value pairs. */
  lemma ItemsIncluded(d: Doc, filter: Doc)
    ensures (forall k | k in filter :: k in d && d[k] == filter[k]) <==> filter.Items <= d.Items
  {
    if forall k | k in filter :: k in d && d[k] == filter[k] {
      forall item | item in filter.Items ensures item in d.Items {
        assert item.0 in filter && filter[item.0] == item.1;
      }
    }
    if filter.Items <= d.Items {
      forall k | k in filter ensures k in d && d[k] == filter[k] {
        assert (k, filter[k]) in filter.Items;
      }
    }
  }

  /** A shallow equality filter: every field named in `filter` is present
      in `d` with the same value. */
  predicate Matches(d: Doc, filter: Doc): (b: bool)
    // an equality filter holds when its field/value pairs are among the document's
    ensures b <==> filter.Items <= d.Items
  {
    ItemsIncluded(d, filter);
    forall k | k in filter :: k in d && d[k] == filter[k]
  }

  /** The record with identifier `id`, if there is one. */
  function Lookup(rs: seq<Record>, id: Id): (found: Option<Record>)
    ensures found.Some? <==> id in Ids(rs)
    ensures found.Some? ==> found.value in rs && found.value.id == id
  {
    if rs == [] then None
    else if rs[0].id == id then Some(rs[0])
    else
      assert Ids(rs) == {rs[0].id} + Ids(rs[1..]) by {
        assert forall r | r in rs :: r == rs[0] || r in rs[1..];
      }
      Lookup(rs[1..], id)
  }

  /** The records satisfying `keep`, in their original order. */
  function Filter(rs: seq<Record>, keep: Record -> bool): (kept: seq<Record>)
    ensures |kept| <= |rs|
    ensures forall r :: r in kept <==> r in rs && keep(r)
  {
    if rs == [] then []
    else
      assert forall r | r in rs :: r == rs[0] || r in rs[1..];
      (if keep(rs[0]) then [rs[0]] else []) + Filter(rs[1..], keep)
  }

  /** The filter that drops the record with identifier `id`. */
  function IdOtherThan(id: Id): Record -> bool
  {
    (r: Record) => r.id != id
  }

  /** The filter that drops every record matching `filter`. */
  function NotMatching(filter: Doc): Record -> bool
  {
    (r: Record) => !Matches(r.fields, filter)
  }

  /** The filter that keeps the records whose fields satisfy `p`. */
  function FieldsSatisfy(p: Doc -> bool): Record -> bool
  {
    (r: Record) => p(r.fields)
  }

  /** Mongoose's `populate(path)`: a reference stored under `path` is
      replaced by the record it names in `from`, or by `Null` when no record
      of `from` has that identifier.  Every other field is left alone. */
  function Populate(r: Record, path: string, from: seq<Record>): (shaped: Record)
    ensures shaped.id == r.id && shaped.fields.Keys == r.fields.Keys
    ensures forall k | k in r.fields && k != path :: shaped.fields[k] == r.fields[k]
    ensures path in r.fields && !r.fields[path].Ref? ==> shaped == r
  {
    if path in r.fields && r.fields[path].Ref? then
      var target := match Lookup(from, r.fields[path].ref)
        case Some(s) => Embedded(s.id, s.fields)
        case None => Null;
      Record(r.id, r.fields[path := target])
    else r
  }

  lemma DistinctTail(rs: seq<Record>)
    requires DistinctIds(rs) && rs != []
    ensures DistinctIds(rs[1..]) && rs[0].id !in Ids(rs[1..])
  {
    forall i, j | 0 <= i < j < |rs[1..]|
      ensures rs[1..][i].id != rs[1..][j].id
    {
      assert rs[1..][i] == rs[i + 1] && rs[1..][j] == rs[j + 1];
    }
    forall r | r in rs[1..]
      ensures r.id != rs[0].id
    {
      var m :| 0 <= m < |rs[1..]| && rs[1..][m] == r;
      assert rs[m + 1] == r;
    }
  }

  lemma ConsDistinct(r: Record, tail: seq<Record>)
    requires DistinctIds(tail) && r.id !in Ids(tail)
    ensures DistinctIds([r] + tail)
  {
    var all := [r] + tail;
    forall i, j | 0 <= i < j < |all|
      ensures all[i].id != all[j].id
    {
      assert all[j] == tail[j - 1] && tail[j - 1] in tail;
      if i > 0 {
        assert all[i] == tail[i - 1];
      }
    }
  }

  /** Filtering never makes two records share an identifier. */
  lemma {:induction false} FilterKeepsDistinct(rs: seq<Record>, keep: Record -> bool)
    requires DistinctIds(rs)
    ensures DistinctIds(Filter(rs, keep))
  {
    if rs != [] {
      DistinctTail(rs);
      FilterKeepsDistinct(rs[1..], keep);
      var tail := Filter(rs[1..], keep);
      if keep(rs[0]) {
        assert Ids(tail) <= Ids(rs[1..]);
        ConsDistinct(rs[0], tail);
      } else {
        assert Filter(rs, keep) == tail;
      }
    }
  }

  /** In a collection with distinct identifiers, looking a record's
      identifier up finds that very record. */
  lemma {:induction false} LookupFinds(rs: seq<Record>, r: Record)
    requires DistinctIds(rs) && r in rs
    ensures Lookup(rs, r.id) == Some(r)
  {
    if rs[0] != r {
      DistinctTail(rs);
      assert r in rs[1..];
      LookupFinds(rs[1..], r);
    }
  }

  /** Appending a record with a fresh identifier keeps identifiers distinct. */
  lemma AppendKeepsDistinct(rs: seq<Record>, r: Record)
    requires DistinctIds(rs) && r.id !in Ids(rs)
    ensures DistinctIds(rs + [r])
  {
    var all := rs + [r];
    forall i, j | 0 <= i < j < |all|
      ensures all[i].id != all[j].id
    {
      assert all[i] == rs[i] && rs[i] in rs;
    }
  }

  /** A populated reference shows the referenced record itself. */
  lemma PopulateResolves(r: Record, path: string, from: seq<Record>, target: Record)
    requires DistinctIds(from) && target in from
    requires path in r.fields && r.fields[path] == Ref(target.id)
    ensures Populate(r, path, from).fields[path] == Embedded(target.id, target.fields)
  {
    LookupFinds(from, target);
  }

  /** A reference to an identifier that `from` does not hold populates to `Null`. */
  lemma PopulateDangling(r: Record, path: string, from: seq<Record>)
    requires path in r.fields && r.fields[path].Ref? && r.fields[path].ref !in Ids(from)
    ensures Populate(r, path, from).fields[path] == Null
  {
  }
}
