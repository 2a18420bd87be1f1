/**
 * The document store the application runs on (Cloud Firestore), as plain
 * values: documents are field maps, collections are sequences of documents in
 * listing order, and an update is a per-field write of a new value, a
 * deletion or the server's clock.
 */
module Store {
  import opened Results
  import opened JsValues

  /** A document's fields. */
  type Record = map<string, Value>

  /** One field of an `update()`: a value, `FieldValue.delete()` or `FieldValue.serverTimestamp()`. */
  datatype FieldWrite = Set(value: Value) | Delete | ServerTime

  /** The argument of `update()`: only the named fields are written. */
  type Patch = map<string, FieldWrite>

  /** Field `k` is the same (present with the same value, or absent) in both records. */
  predicate Agree(a: Record, b: Record, k: string) {
    (k in a <==> k in b) && (k in a ==> a[k] == b[k])
  }

  function Written(w: FieldWrite, now: int): Value
    requires !w.Delete?
  {
    if w.Set? then w.value else Time(now)
  }

  /** The document after an `update(patch)` committed at server time `now`. */
  function ApplyPatch(rec: Record, patch: Patch, now: int): (r: Record)
    ensures forall k :: k in patch && patch[k].Delete? ==> k !in r
    ensures forall k :: k in patch && patch[k].Set? ==> k in r && r[k] == patch[k].value
    ensures forall k :: k in patch && patch[k].ServerTime? ==> k in r && r[k] == Time(now)
    ensures forall k :: k !in patch ==> Agree(rec, r, k)
  {
    map k | k in rec.Keys + patch.Keys && !(k in patch && patch[k].Delete?) ::
      if k in patch then Written(patch[k], now) else rec[k]
  }

  /** Writing the same patch twice at the same server time is the same as writing it once. */
  lemma ApplyPatchIdempotent(rec: Record, patch: Patch, now: int)
    ensures ApplyPatch(ApplyPatch(rec, patch, now), patch, now) == ApplyPatch(rec, patch, now)
  {
    var once := ApplyPatch(rec, patch, now);
    var twice := ApplyPatch(once, patch, now);
    assert forall k :: Agree(once, twice, k);
  }

  /** An update that names no field leaves the document as it was. */
  lemma ApplyEmptyPatch(rec: Record, now: int)
    ensures ApplyPatch(rec, map[], now) == rec
  {
    assert forall k :: Agree(rec, ApplyPatch(rec, map[], now), k);
  }

  // ---------------------------------------------------------------------------
  // Collections
  // ---------------------------------------------------------------------------

  datatype Doc = Doc(id: string, data: Record)

  /** A collection, in the order the store lists it. */
  type Collection = seq<Doc>

  predicate HasDoc(c: Collection, id: string) {
    exists i :: 0 <= i < |c| && c[i].id == id
  }

  /** Document ids are unique within a collection. */
  predicate UniqueIds(c: Collection) {
    forall i, j :: 0 <= i < j < |c| ==> c[i].id != c[j].id
  }

  /** `getDoc`: the fields of document `id`, if it exists. */
  function Lookup(c: Collection, id: string): (r: Option<Record>)
    ensures r.Some? <==> HasDoc(c, id)
    ensures r.Some? ==> Doc(id, r.value) in c
    decreases |c|
  {
    if |c| == 0 then None
    else if c[0].id == id then Some(c[0].data)
    else
      var r := Lookup(c[1..], id);
      assert HasDoc(c, id) ==> HasDoc(c[1..], id) by {
        if HasDoc(c, id) {
          var i :| 0 <= i < |c| && c[i].id == id;
          assert c[1..][i - 1].id == id;
        }
      }
      assert HasDoc(c[1..], id) ==> HasDoc(c, id) by {
        if HasDoc(c[1..], id) {
          var i :| 0 <= i < |c[1..]| && c[1..][i].id == id;
          assert c[i + 1].id == id;
        }
      }
      r
  }

  /** The collection after `update(patch)` on document `id`; the ids and their order never change. */
  function UpdateDoc(c: Collection, id: string, patch: Patch, now: int): (r: Collection)
    ensures |r| == |c|
    ensures forall i :: 0 <= i < |c| ==> r[i].id == c[i].id
    decreases |c|
  {
    if |c| == 0 then []
    else
      var head := if c[0].id == id then Doc(id, ApplyPatch(c[0].data, patch, now)) else c[0];
      [head] + UpdateDoc(c[1..], id, patch, now)
  }

  /** Reading a document back after updating it gives the patched fields; every other document reads as before. */
  lemma {:induction false} ReadAfterUpdate(c: Collection, id: string, patch: Patch, now: int, other: string)
    ensures Lookup(c, id).Some? ==>
              Lookup(UpdateDoc(c, id, patch, now), id) == Some(ApplyPatch(Lookup(c, id).value, patch, now))
    ensures Lookup(c, id).None? ==> UpdateDoc(c, id, patch, now) == c
    ensures other != id ==> Lookup(UpdateDoc(c, id, patch, now), other) == Lookup(c, other)
    decreases |c|
  {
    if |c| > 0 {
      ReadAfterUpdate(c[1..], id, patch, now, other);
      var r := UpdateDoc(c, id, patch, now);
      assert r[1..] == UpdateDoc(c[1..], id, patch, now);
    }
  }

  /** `setDoc(id, data)`: replaces document `id`, or appends it when it does not exist. */
  function SetDoc(c: Collection, id: string, data: Record): (r: Collection)
    ensures Lookup(r, id) == Some(data)
    ensures forall other :: other != id ==> Lookup(r, other) == Lookup(c, other)
    decreases |c|
  {
    if |c| == 0 then [Doc(id, data)]
    else
      var head := if c[0].id == id then Doc(id, data) else c[0];
      [head] + SetDoc(c[1..], id, data)
  }

  /** `where(field, "==", v)`: the matching documents, in listing order. */
  function WhereEq(c: Collection, field: string, v: Value): (r: Collection)
    ensures forall d :: d in r <==> d in c && Get(d.data, field) == v
    ensures |r| <= |c|
    decreases |c|
  {
    if |c| == 0 then []
    else
      var rest := WhereEq(c[1..], field, v);
      assert forall d :: d in c <==> d == c[0] || d in c[1..];
      if Get(c[0].data, field) == v then [c[0]] + rest else rest
  }

  /** Filtering distributes over concatenation: the query keeps the listing order. */
  lemma {:induction false} WhereEqAppend(a: Collection, b: Collection, field: string, v: Value)
    ensures WhereEq(a + b, field, v) == WhereEq(a, field, v) + WhereEq(b, field, v)
    decreases |a|
  {
    if |a| > 0 {
      assert (a + b)[1..] == a[1..] + b;
      WhereEqAppend(a[1..], b, field, v);
    } else {
      assert a + b == b;
    }
  }

  /** `where(field, "==", v).limit(1)`: the first matching document. */
  function FirstWhere(c: Collection, field: string, v: Value): (r: Option<Doc>)
    ensures r.None? <==> forall d :: d in c ==> Get(d.data, field) != v
    ensures r.Some? ==> r.value in c && Get(r.value.data, field) == v
    decreases |c|
  {
    if |c| == 0 then None
    else if Get(c[0].data, field) == v then Some(c[0])
    else
      assert forall d :: d in c <==> d == c[0] || d in c[1..];
      FirstWhere(c[1..], field, v)
  }

  /** The first match is the head of the full query's result. */
  lemma {:induction false} FirstWhereIsHead(c: Collection, field: string, v: Value)
    ensures var all := WhereEq(c, field, v);
            FirstWhere(c, field, v) == if all == [] then None else Some(all[0])
    decreases |c|
  {
    if |c| > 0 && Get(c[0].data, field) != v {
      FirstWhereIsHead(c[1..], field, v);
    }
  }

  /** Firestore's client SDK refuses to store `undefined` in a field. */
  predicate HoldsUndefined(payload: Patch) {
    exists k :: k in payload && payload[k] == Set(Undef)
  }

  /** A field deletion, which only an update can carry. */
  predicate HoldsDelete(payload: Patch) {
    exists k :: k in payload && payload[k] == Delete
  }

  /** The message of the rejection `addDoc` raises for an `undefined` field. */
  const UndefinedFieldMessage: string :=
    "Function addDoc() called with invalid data. Unsupported field value: undefined"

  /** The message of the rejection `addDoc` raises for a field deletion. */
  const DeleteFieldMessage: string :=
    "Function addDoc() called with invalid data. deleteField() can only be used with update() and set() with {merge:true}"

  /** `addDoc(payload)`: a new document under `newId`, unless a field is `undefined` or a deletion. */
  function AddDoc(c: Collection, newId: string, payload: Patch, now: int): (r: Result<Collection, string>)
    ensures r.Err? <==> HoldsUndefined(payload) || HoldsDelete(payload)
    ensures r.Ok? ==> r.value == c + [Doc(newId, ApplyPatch(map[], payload, now))]
  {
    if HoldsUndefined(payload) then Err(UndefinedFieldMessage)
    else if HoldsDelete(payload) then Err(DeleteFieldMessage)
    else Ok(c + [Doc(newId, ApplyPatch(map[], payload, now))])
  }

  /** An added document holds exactly the payload's fields, server timestamps resolved to `now`. */
  lemma AddedDocument(c: Collection, newId: string, payload: Patch, now: int)
    requires AddDoc(c, newId, payload, now).Ok?
    ensures var r := AddDoc(c, newId, payload, now).value;
            && |r| == |c| + 1 && r[..|c|] == c && r[|c|].id == newId
            && r[|c|].data.Keys == payload.Keys
            && forall k :: k in payload ==>
                 r[|c|].data[k] == if payload[k].Set? then payload[k].value else Time(now)
  {
    var r := AddDoc(c, newId, payload, now).value;
    assert r[..|c|] == c;
  }

  // ---------------------------------------------------------------------------
  // The database
  // ---------------------------------------------------------------------------

  /**
   * The collections the application uses: `companies`, the per-company
   * subcollections `companies/{id}/company_automations` and
   * `companies/{id}/clients` (which, as in Firestore, exist independently of
   * the company document), `automations` (templates) and `users`.
   */
  datatype Db = Db(
    companies: Collection,
    automations: map<string, Collection>,
    clients: map<string, Collection>,
    templates: Collection,
    users: Collection)

  /** `companies/{companyId}/company_automations`. */
  function Instances(db: Db, companyId: string): Collection {
    if companyId in db.automations then db.automations[companyId] else []
  }

  /** `companies/{companyId}/clients`. */
  function Clients(db: Db, companyId: string): Collection {
    if companyId in db.clients then db.clients[companyId] else []
  }

  function UpdateIn(m: map<string, Collection>, companyId: string, docId: string, patch: Patch, now: int)
    : map<string, Collection>
  {
    var c := if companyId in m then m[companyId] else [];
    m[companyId := UpdateDoc(c, docId, patch, now)]
  }

  /**
   * `update()` of an instance document. Firestore refuses to update a
   * document that does not exist, which the result reports as `None`.
   */
  function UpdateInstance(db: Db, companyId: string, instanceId: string, patch: Patch, now: int): (r: Option<Db>)
    ensures r.None? <==> Lookup(Instances(db, companyId), instanceId).None?
    ensures r.Some? ==> r.value == db.(automations := UpdateIn(db.automations, companyId, instanceId, patch, now))
  {
    if Lookup(Instances(db, companyId), instanceId).None? then None
    else Some(db.(automations := UpdateIn(db.automations, companyId, instanceId, patch, now)))
  }

  /** `update()` of a client document; `None` when it does not exist. */
  function UpdateClient(db: Db, companyId: string, clientId: string, patch: Patch, now: int): (r: Option<Db>)
    ensures r.None? <==> Lookup(Clients(db, companyId), clientId).None?
    ensures r.Some? ==> r.value == db.(clients := UpdateIn(db.clients, companyId, clientId, patch, now))
  {
    if Lookup(Clients(db, companyId), clientId).None? then None
    else Some(db.(clients := UpdateIn(db.clients, companyId, clientId, patch, now)))
  }

  /** Every read of the subcollection map agrees, except possibly document `docId` of company `companyId`. */
  ghost predicate SameExcept(m: map<string, Collection>, m': map<string, Collection>, companyId: string, docId: string) {
    forall c, d :: (c, d) != (companyId, docId) ==>
      Lookup(if c in m' then m'[c] else [], d) == Lookup(if c in m then m[c] else [], d)
  }

  /** An update touches exactly one document: its own fields are patched and every other read is unchanged. */
  lemma UpdateInFrame(m: map<string, Collection>, companyId: string, docId: string, patch: Patch, now: int)
    requires Lookup(if companyId in m then m[companyId] else [], docId).Some?
    ensures var m' := UpdateIn(m, companyId, docId, patch, now);
            && SameExcept(m, m', companyId, docId)
            && Lookup(m'[companyId], docId)
               == Some(ApplyPatch(Lookup(m[companyId], docId).value, patch, now))
  {
    var m' := UpdateIn(m, companyId, docId, patch, now);
    var c := if companyId in m then m[companyId] else [];
    forall cc, d | (cc, d) != (companyId, docId)
      ensures Lookup(if cc in m' then m'[cc] else [], d) == Lookup(if cc in m then m[cc] else [], d)
    {
      if cc == companyId {
        ReadAfterUpdate(c, docId, patch, now, d);
      }
    }
    ReadAfterUpdate(c, docId, patch, now, docId);
  }

  lemma {:induction false} UpdateDocIdempotent(c: Collection, id: string, patch: Patch, now: int)
    ensures UpdateDoc(UpdateDoc(c, id, patch, now), id, patch, now) == UpdateDoc(c, id, patch, now)
    decreases |c|
  {
    if |c| > 0 {
      var once := UpdateDoc(c, id, patch, now);
      assert once[1..] == UpdateDoc(c[1..], id, patch, now);
      UpdateDocIdempotent(c[1..], id, patch, now);
      ApplyPatchIdempotent(c[0].data, patch, now);
    }
  }

  /** Patching the same document of the same subcollection twice is patching it once. */
  lemma UpdateInIdempotent(m: map<string, Collection>, companyId: string, docId: string, patch: Patch, now: int)
    ensures UpdateIn(UpdateIn(m, companyId, docId, patch, now), companyId, docId, patch, now)
            == UpdateIn(m, companyId, docId, patch, now)
  {
    var c := if companyId in m then m[companyId] else [];
    var m' := UpdateIn(m, companyId, docId, patch, now);
    assert m'[companyId] == UpdateDoc(c, docId, patch, now);
    UpdateDocIdempotent(c, docId, patch, now);
  }

  /** Repeating an instance update with the same patch at the same server time changes nothing more. */
  lemma UpdateInstanceIdempotent(db: Db, companyId: string, instanceId: string, patch: Patch, now: int)
    ensures var r := UpdateInstance(db, companyId, instanceId, patch, now);
            r.Some? ==> UpdateInstance(r.value, companyId, instanceId, patch, now) == r
  {
    var r := UpdateInstance(db, companyId, instanceId, patch, now);
    if r.Some? {
      var c := Instances(db, companyId);
      assert Instances(r.value, companyId) == UpdateDoc(c, instanceId, patch, now);
      ReadAfterUpdate(c, instanceId, patch, now, instanceId);
      UpdateInIdempotent(db.automations, companyId, instanceId, patch, now);
    }
  }
}
