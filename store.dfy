// The document store the view models write through: the collections
// `users`, `households` and `plants` held in memory by one class.
// `users` is only ever addressed by document id, so it is a map; the
// other two are read back by field queries whose order matters ("the first
// household with this code"). Firestore returns the documents of a query
// in ascending document-id order, so they are sequences kept in that order.

module Firestore {
  import opened Model
  import opened Lists

  // ---- document order ----

  /** Firestore's order on document ids: character by character, a proper prefix first. */
  predicate IdBefore(a: string, b: string)
    decreases |a|
  {
    if a == [] then b != []
    else b != [] && (if a[0] == b[0] then IdBefore(a[1..], b[1..]) else a[0] < b[0])
  }

  lemma {:induction false} IdBeforeIrreflexive(a: string)
    ensures !IdBefore(a, a)
  {
    if a != [] {
      IdBeforeIrreflexive(a[1..]);
    }
  }

  lemma {:induction false} IdBeforeTransitive(a: string, b: string, c: string)
    requires IdBefore(a, b) && IdBefore(b, c)
    ensures IdBefore(a, c)
  {
    if a != [] && a[0] == b[0] && b[0] == c[0] {
      IdBeforeTransitive(a[1..], b[1..], c[1..]);
    }
  }

  lemma {:induction false} IdBeforeTotal(a: string, b: string)
    requires a != b
    ensures IdBefore(a, b) || IdBefore(b, a)
  {
    if a != [] && b != [] && a[0] == b[0] {
      assert a == [a[0]] + a[1..] && b == [b[0]] + b[1..];
      IdBeforeTotal(a[1..], b[1..]);
    }
  }

  /** Documents in strictly ascending order of their ids. */
  predicate InIdOrder<T>(docs: seq<T>, id: T -> string) {
    forall i, j :: 0 <= i < j < |docs| ==> IdBefore(id(docs[i]), id(docs[j]))
  }

  lemma InIdOrderUnique<T>(docs: seq<T>, id: T -> string)
    requires InIdOrder(docs, id)
    ensures forall i, j :: 0 <= i < j < |docs| ==> id(docs[i]) != id(docs[j])
  {
    forall i, j | 0 <= i < j < |docs| ensures id(docs[i]) != id(docs[j]) {
      IdBeforeIrreflexive(id(docs[i]));
    }
  }

  /** A document placed before documents that all come after it keeps the order. */
  lemma ConsInIdOrder<T>(d: T, rest: seq<T>, id: T -> string)
    requires InIdOrder(rest, id)
    requires forall e :: e in rest ==> IdBefore(id(d), id(e))
    ensures InIdOrder([d] + rest, id)
  {
    var r := [d] + rest;
    forall i, j | 0 <= i < j < |r| ensures IdBefore(id(r[i]), id(r[j])) {
      assert r[j] == rest[j - 1];
      if i > 0 {
        assert r[i] == rest[i - 1];
      }
    }
  }

  lemma TailInIdOrder<T>(docs: seq<T>, id: T -> string)
    requires docs != [] && InIdOrder(docs, id)
    ensures InIdOrder(docs[1..], id)
    ensures forall e :: e in docs[1..] ==> IdBefore(id(docs[0]), id(e))
  {
    forall e | e in docs[1..] ensures IdBefore(id(docs[0]), id(e)) {
      var k :| 0 <= k < |docs[1..]| && docs[1..][k] == e;
      assert docs[k + 1] == e;
    }
  }

  /** Creating a document under a new id: it lands at its id's place in the order. */
  function InsertById<T>(docs: seq<T>, d: T, id: T -> string): (r: seq<T>)
    ensures multiset(r) == multiset(docs) + multiset{d}
  {
    if docs == [] || IdBefore(id(d), id(docs[0])) then [d] + docs
    else
      assert docs == [docs[0]] + docs[1..];
      [docs[0]] + InsertById(docs[1..], d, id)
  }

  lemma InsertByIdMembers<T>(docs: seq<T>, d: T, id: T -> string)
    ensures forall e :: e in InsertById(docs, d, id) <==> e == d || e in docs
  {
    var r := InsertById(docs, d, id);
    forall e ensures e in r <==> e == d || e in docs {
      assert e in r <==> e in multiset(r);
      assert e in docs <==> e in multiset(docs);
    }
  }

  /** Inserting under an id no document has keeps the documents in id order. */
  lemma {:induction false} InsertByIdInOrder<T>(docs: seq<T>, d: T, id: T -> string)
    requires InIdOrder(docs, id)
    requires forall k :: 0 <= k < |docs| ==> id(docs[k]) != id(d)
    ensures InIdOrder(InsertById(docs, d, id), id)
  {
    if docs == [] {
    } else if IdBefore(id(d), id(docs[0])) {
      forall e | e in docs ensures IdBefore(id(d), id(e)) {
        var k :| 0 <= k < |docs| && docs[k] == e;
        if k > 0 {
          IdBeforeTransitive(id(d), id(docs[0]), id(e));
        }
      }
      ConsInIdOrder(d, docs, id);
    } else {
      IdBeforeTotal(id(d), id(docs[0]));
      TailInIdOrder(docs, id);
      assert forall k :: 0 <= k < |docs[1..]| ==> docs[1..][k] == docs[k + 1];
      InsertByIdInOrder(docs[1..], d, id);
      forall e | e in InsertById(docs[1..], d, id) ensures IdBefore(id(docs[0]), id(e)) {
        var rest := InsertById(docs[1..], d, id);
        assert e in multiset(rest);
        assert e in multiset(docs[1..]) + multiset{d};
        if e != d {
          assert e in docs[1..];
        }
      }
      ConsInIdOrder(docs[0], InsertById(docs[1..], d, id), id);
    }
  }

  // ---- plants ----

  function PlantId(p: Plant): string { p.id }

  /** The plant queries the app issues (`whereEqualTo` / `whereIn`). */
  datatype PlantQuery =
    | OwnerIs(uid: string)              // whereEqualTo("ownerId", uid)
    | HouseholdIs(hid: string)          // whereEqualTo("householdId", hid)
    | HouseholdIn(hids: seq<string>)    // whereIn("householdId", hids)

  predicate Matches(q: PlantQuery, p: Plant) {
    match q
    case OwnerIs(uid) => p.ownerId == Some(uid)
    case HouseholdIs(hid) => p.householdId == Some(hid)
    case HouseholdIn(hids) => p.householdId.Some? && p.householdId.value in hids
  }

  /** The documents a query returns, in the store's (document-id) order. */
  function QueryPlants(ps: seq<Plant>, q: PlantQuery): (r: seq<Plant>)
    ensures forall p :: p in r <==> p in ps && Matches(q, p)
    ensures |r| <= |ps|
  {
    if ps == [] then []
    else if Matches(q, ps[0]) then [ps[0]] + QueryPlants(ps[1..], q)
    else QueryPlants(ps[1..], q)
  }

  /** A query distributes over concatenation: results keep the documents' order. */
  lemma {:induction false} QueryConcat(a: seq<Plant>, b: seq<Plant>, q: PlantQuery)
    ensures QueryPlants(a + b, q) == QueryPlants(a, q) + QueryPlants(b, q)
  {
    if a == [] {
      assert a + b == b;
    } else {
      assert (a + b)[0] == a[0];
      assert (a + b)[1..] == a[1..] + b;
      QueryConcat(a[1..], b, q);
    }
  }

  predicate UniquePlantIds(ps: seq<Plant>) {
    forall i, j :: 0 <= i < j < |ps| ==> ps[i].id != ps[j].id
  }

  predicate HasPlantId(ps: seq<Plant>, id: string) {
    exists i :: 0 <= i < |ps| && ps[i].id == id
  }

  /** `document(p.id).set(p)`: replace the document with that id in place, or create it at its id's place. */
  function SetPlantDoc(ps: seq<Plant>, p: Plant): (r: seq<Plant>)
    ensures HasPlantId(ps, p.id) ==> |r| == |ps| && forall i :: 0 <= i < |ps| ==> r[i].id == ps[i].id
    ensures !HasPlantId(ps, p.id) ==> r == InsertById(ps, p, PlantId)
  {
    if HasPlantId(ps, p.id) then seq(|ps|, i requires 0 <= i < |ps| => if ps[i].id == p.id then p else ps[i])
    else InsertById(ps, p, PlantId)
  }

  /** Writing a document leaves it as the only one with its id, keeps every other one and keeps the id order. */
  lemma SetPlantDocEffect(ps: seq<Plant>, p: Plant)
    requires InIdOrder(ps, PlantId)
    ensures InIdOrder(SetPlantDoc(ps, p), PlantId)
    ensures p in SetPlantDoc(ps, p)
    ensures forall q :: q in SetPlantDoc(ps, p) <==> q == p || (q in ps && q.id != p.id)
  {
    var r := SetPlantDoc(ps, p);
    InIdOrderUnique(ps, PlantId);
    if HasPlantId(ps, p.id) {
      var k :| 0 <= k < |ps| && ps[k].id == p.id;
      assert r[k] == p;
      forall q | q in ps && q.id != p.id ensures q in r {
        var i :| 0 <= i < |ps| && ps[i] == q;
        assert r[i] == q;
      }
      forall q | q in r ensures q == p || (q in ps && q.id != p.id) {
        var i :| 0 <= i < |r| && r[i] == q;
        if ps[i].id != p.id {
          assert q == ps[i];
          assert q in ps;
        }
      }
    } else {
      InsertByIdInOrder(ps, p, PlantId);
      InsertByIdMembers(ps, p, PlantId);
      forall q | q in ps ensures q.id != p.id {
        var i :| 0 <= i < |ps| && ps[i] == q;
      }
    }
  }

  /** `document(id).delete()`. */
  function RemovePlantDoc(ps: seq<Plant>, id: string): (r: seq<Plant>)
    ensures forall q :: q in r <==> q in ps && q.id != id
    ensures |r| <= |ps|
  {
    if ps == [] then []
    else if ps[0].id == id then RemovePlantDoc(ps[1..], id)
    else [ps[0]] + RemovePlantDoc(ps[1..], id)
  }

  /** Deleting by id keeps the remaining documents in their order. */
  lemma {:induction false} RemovePlantDocConcat(a: seq<Plant>, b: seq<Plant>, id: string)
    ensures RemovePlantDoc(a + b, id) == RemovePlantDoc(a, id) + RemovePlantDoc(b, id)
  {
    if a == [] {
      assert a + b == b;
    } else {
      assert (a + b)[0] == a[0];
      assert (a + b)[1..] == a[1..] + b;
      RemovePlantDocConcat(a[1..], b, id);
    }
  }

  lemma {:induction false} RemovePlantDocKeepsOrder(ps: seq<Plant>, id: string)
    requires InIdOrder(ps, PlantId)
    ensures InIdOrder(RemovePlantDoc(ps, id), PlantId)
  {
    if ps != [] {
      TailInIdOrder(ps, PlantId);
      RemovePlantDocKeepsOrder(ps[1..], id);
      if ps[0].id != id {
        ConsInIdOrder(ps[0], RemovePlantDoc(ps[1..], id), PlantId);
      }
    }
  }

  /** The plants that do not belong to household `hid`. */
  function PlantsOutside(ps: seq<Plant>, hid: string): (r: seq<Plant>)
    ensures forall p :: p in r <==> p in ps && p.householdId != Some(hid)
  {
    if ps == [] then []
    else if ps[0].householdId == Some(hid) then PlantsOutside(ps[1..], hid)
    else [ps[0]] + PlantsOutside(ps[1..], hid)
  }

  function PlantIds(ps: seq<Plant>): (ids: seq<string>)
    ensures |ids| == |ps| && forall i :: 0 <= i < |ps| ==> ids[i] == ps[i].id
  {
    seq(|ps|, i requires 0 <= i < |ps| => ps[i].id)
  }

  /** The plants whose id is not among `ids`. */
  function RemoveAllIds(ps: seq<Plant>, ids: seq<string>): (r: seq<Plant>)
    ensures forall p :: p in r <==> p in ps && p.id !in ids
  {
    if ps == [] then []
    else if ps[0].id in ids then RemoveAllIds(ps[1..], ids)
    else [ps[0]] + RemoveAllIds(ps[1..], ids)
  }

  /** Deleting one more id after a batch of ids is deleting the longer batch. */
  lemma {:induction false} RemoveOneMoreId(ps: seq<Plant>, ids: seq<string>, i: nat)
    requires i < |ids|
    ensures RemovePlantDoc(RemoveAllIds(ps, ids[..i]), ids[i]) == RemoveAllIds(ps, ids[..i + 1])
  {
    if ps != [] {
      assert ps[0].id in ids[..i + 1] <==> ps[0].id in ids[..i] || ps[0].id == ids[i];
      RemoveOneMoreId(ps[1..], ids, i);
    }
  }

  lemma {:induction false} RemoveAllIdsNone(ps: seq<Plant>)
    ensures RemoveAllIds(ps, []) == ps
  {
    if ps != [] {
      RemoveAllIdsNone(ps[1..]);
    }
  }

  /** Removing by ids is removing the household's plants when the ids name exactly those plants. */
  lemma {:induction false} RemoveAllIdsIsPlantsOutside(ps: seq<Plant>, ids: seq<string>, hid: string)
    requires forall p :: p in ps ==> (p.id in ids <==> p.householdId == Some(hid))
    ensures RemoveAllIds(ps, ids) == PlantsOutside(ps, hid)
  {
    if ps != [] {
      assert ps[0] in ps;
      RemoveAllIdsIsPlantsOutside(ps[1..], ids, hid);
    }
  }

  /** With unique ids, the ids of a household's plants name exactly that household's plants. */
  lemma HouseholdPlantIds(ps: seq<Plant>, hid: string)
    requires InIdOrder(ps, PlantId)
    ensures RemoveAllIds(ps, PlantIds(QueryPlants(ps, HouseholdIs(hid)))) == PlantsOutside(ps, hid)
  {
    InIdOrderUnique(ps, PlantId);
    var docs := QueryPlants(ps, HouseholdIs(hid));
    var ids := PlantIds(docs);
    forall p | p in ps ensures p.id in ids <==> p.householdId == Some(hid) {
      if p.id in ids {
        var k :| 0 <= k < |ids| && ids[k] == p.id;
        var q := docs[k];
        assert q in ps;
        var i :| 0 <= i < |ps| && ps[i] == p;
        var j :| 0 <= j < |ps| && ps[j] == q;
        assert i == j;
      }
    }
    RemoveAllIdsIsPlantsOutside(ps, ids, hid);
  }

  lemma {:induction false} PlantsOutsideKeepsOrder(ps: seq<Plant>, hid: string)
    requires InIdOrder(ps, PlantId)
    ensures InIdOrder(PlantsOutside(ps, hid), PlantId)
  {
    if ps != [] {
      TailInIdOrder(ps, PlantId);
      PlantsOutsideKeepsOrder(ps[1..], hid);
      if ps[0].householdId != Some(hid) {
        ConsInIdOrder(ps[0], PlantsOutside(ps[1..], hid), PlantId);
      }
    }
  }

  // ---- households ----

  function HouseholdId(h: Household): string { h.id }

  datatype HouseholdField = IdField | NameField | JoinCodeField

  function FieldOf(h: Household, f: HouseholdField): string {
    match f
    case IdField => h.id
    case NameField => h.name
    case JoinCodeField => h.joinCode
  }

  /** The position of the first household whose field `f` equals `v` (`whereEqualTo(f, v)`, first document in id order). */
  function FirstWhere(hs: seq<Household>, f: HouseholdField, v: string): (r: Option<nat>)
    ensures r.Some? ==> r.value < |hs| && FieldOf(hs[r.value], f) == v
    ensures r.Some? ==> forall j :: 0 <= j < r.value ==> FieldOf(hs[j], f) != v
    ensures r.None? <==> forall j :: 0 <= j < |hs| ==> FieldOf(hs[j], f) != v
  {
    if hs == [] then None
    else if FieldOf(hs[0], f) == v then Some(0)
    else match FirstWhere(hs[1..], f, v)
      case None => None
      case Some(k) => Some(k + 1)
  }

  predicate UniqueHouseholdIds(hs: seq<Household>) {
    forall i, j :: 0 <= i < j < |hs| ==> hs[i].id != hs[j].id
  }

  /** A value written to an array field: an atomic transform or a whole new list. */
  datatype ArrayUpdate = Union(x: string) | Remove(x: string) | Replace(xs: seq<string>)

  function ApplyUpdate(xs: seq<string>, u: ArrayUpdate): seq<string> {
    match u
    case Union(x) => ArrayUnion(xs, x)
    case Remove(x) => ArrayRemove(xs, x)
    case Replace(ys) => ys
  }

  /** `document(id).update("members", u)`; an update of a missing document changes nothing. */
  function UpdateMembers(hs: seq<Household>, id: string, u: ArrayUpdate): (r: seq<Household>)
    ensures |r| == |hs|
    ensures forall i :: 0 <= i < |hs| ==> r[i].id == hs[i].id && r[i].name == hs[i].name && r[i].joinCode == hs[i].joinCode
    ensures forall i :: 0 <= i < |hs| && hs[i].id != id ==> r[i] == hs[i]
    ensures forall i :: 0 <= i < |hs| && hs[i].id == id ==> r[i].members == ApplyUpdate(hs[i].members, u)
  {
    seq(|hs|, i requires 0 <= i < |hs| =>
      if hs[i].id == id then hs[i].(members := ApplyUpdate(hs[i].members, u)) else hs[i])
  }

  function RemoveHouseholdDoc(hs: seq<Household>, id: string): (r: seq<Household>)
    ensures forall h :: h in r <==> h in hs && h.id != id
  {
    if hs == [] then []
    else if hs[0].id == id then RemoveHouseholdDoc(hs[1..], id)
    else [hs[0]] + RemoveHouseholdDoc(hs[1..], id)
  }

  lemma {:induction false} RemoveHouseholdDocKeepsOrder(hs: seq<Household>, id: string)
    requires InIdOrder(hs, HouseholdId)
    ensures InIdOrder(RemoveHouseholdDoc(hs, id), HouseholdId)
  {
    if hs != [] {
      TailInIdOrder(hs, HouseholdId);
      RemoveHouseholdDocKeepsOrder(hs[1..], id);
      if hs[0].id != id {
        ConsInIdOrder(hs[0], RemoveHouseholdDoc(hs[1..], id), HouseholdId);
      }
    }
  }

  // ---- users ----

  /** `users/uid.update("households", u)`; an update of a missing document changes nothing. */
  function UpdateUserHouseholds(users: map<string, User>, uid: string, u: ArrayUpdate): (r: map<string, User>)
    ensures r.Keys == users.Keys
    ensures forall k :: k in users && k != uid ==> r[k] == users[k]
    ensures uid in users ==>
      r[uid].households == ApplyUpdate(users[uid].households, u)
      && r[uid].(households := users[uid].households) == users[uid]
  {
    if uid in users then users[uid := users[uid].(households := ApplyUpdate(users[uid].households, u))]
    else users
  }

  /** The store: households and plants are held in id order (so an id identifies one document), and a user document is stored under its own id. */
  ghost predicate ValidCollections(users: map<string, User>, hs: seq<Household>, ps: seq<Plant>) {
    && (forall k :: k in users ==> users[k].id == k)
    && InIdOrder(hs, HouseholdId)
    && InIdOrder(ps, PlantId)
  }

  class Store {
    var users: map<string, User>
    var households: seq<Household>
    var plants: seq<Plant>

    ghost predicate Valid()
      reads this
    {
      ValidCollections(users, households, plants)
    }

    constructor (users0: map<string, User>, households0: seq<Household>, plants0: seq<Plant>)
      requires ValidCollections(users0, households0, plants0)
      ensures Valid()
      ensures users == users0 && households == households0 && plants == plants0
    {
      users, households, plants := users0, households0, plants0;
    }

    method SetPlant(p: Plant)
      requires Valid()
      modifies this
      ensures Valid()
      ensures plants == SetPlantDoc(old(plants), p)
      ensures users == old(users) && households == old(households)
    {
      SetPlantDocEffect(plants, p);
      plants := SetPlantDoc(plants, p);
    }

    method DeletePlant(id: string)
      requires Valid()
      modifies this
      ensures Valid()
      ensures plants == RemovePlantDoc(old(plants), id)
      ensures users == old(users) && households == old(households)
    {
      RemovePlantDocKeepsOrder(plants, id);
      plants := RemovePlantDoc(plants, id);
    }

    /** Creates a household under a fresh document id. */
    method AddHousehold(h: Household)
      requires Valid()
      requires forall i :: 0 <= i < |households| ==> households[i].id != h.id
      modifies this
      ensures Valid()
      ensures households == InsertById(old(households), h, HouseholdId)
      ensures users == old(users) && plants == old(plants)
    {
      InsertByIdInOrder(households, h, HouseholdId);
      households := InsertById(households, h, HouseholdId);
    }

    method UpdateHouseholdMembers(id: string, u: ArrayUpdate)
      requires Valid()
      modifies this
      ensures Valid()
      ensures households == UpdateMembers(old(households), id, u)
      ensures users == old(users) && plants == old(plants)
    {
      households := UpdateMembers(households, id, u);
    }

    method DeleteHousehold(id: string)
      requires Valid()
      modifies this
      ensures Valid()
      ensures households == RemoveHouseholdDoc(old(households), id)
      ensures users == old(users) && plants == old(plants)
    {
      RemoveHouseholdDocKeepsOrder(households, id);
      households := RemoveHouseholdDoc(households, id);
    }

    /** `users/u.id.set(u)`. */
    method SetUser(u: User)
      requires Valid()
      modifies this
      ensures Valid()
      ensures users == old(users)[u.id := u]
      ensures households == old(households) && plants == old(plants)
    {
      users := users[u.id := u];
    }

    method UpdateUser(uid: string, u: ArrayUpdate)
      requires Valid()
      modifies this
      ensures Valid()
      ensures users == UpdateUserHouseholds(old(users), uid, u)
      ensures households == old(households) && plants == old(plants)
    {
      users := UpdateUserHouseholds(users, uid, u);
    }
  }
}
