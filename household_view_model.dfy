// HouseholdViewModel: join codes, creating, joining, leaving and deleting
// households, with the `error` and `success` flags the screen observes.
// Asynchronous callbacks run in sequence; each call's outcome is a parameter,
// and the value handed to `onSuccess` / `onResult` is the method's result
// (None when the callback is never called).

module HouseholdViewModel {
  import opened Model
  import opened Text
  import opened Lists
  import opened Firestore

  const JoinCodeMin: int := 100000
  const JoinCodeMax: int := 999999

  predicate ValidDraws(draws: seq<int>) {
    forall i :: 0 <= i < |draws| ==> JoinCodeMin <= draws[i] <= JoinCodeMax
  }

  /** `generateJoinCode`: the decimal text of a draw from 100000..999999. */
  function JoinCode(draw: int): (code: string)
    requires JoinCodeMin <= draw <= JoinCodeMax
    ensures |code| == 6 && AllDigits(code)
    ensures DigitsValue(code) == draw
  {
    assert Pow10(5) == JoinCodeMin && Pow10(6) == JoinCodeMax + 1 by {
      assert Pow10(1) == 10 && Pow10(2) == 100 && Pow10(3) == 1000 && Pow10(4) == 10000;
    }
    DecimalLength(draw, 6);
    DigitsValueOfDecimal(draw);
    NatToDecimal(draw)
  }

  /** Different draws give different codes. */
  lemma JoinCodeInjective(a: int, b: int)
    requires JoinCodeMin <= a <= JoinCodeMax && JoinCodeMin <= b <= JoinCodeMax
    ensures JoinCode(a) == JoinCode(b) <==> a == b
  {
  }

  predicate CodeInUse(hs: seq<Household>, code: string) {
    exists j :: 0 <= j < |hs| && hs[j].joinCode == code
  }

  /** Every drawn code is already some household's join code. */
  predicate AllTaken(hs: seq<Household>, draws: seq<int>)
    requires ValidDraws(draws)
  {
    forall i :: 0 <= i < |draws| ==> CodeInUse(hs, JoinCode(draws[i]))
  }

  lemma AllTakenCons(hs: seq<Household>, draws: seq<int>, k: nat)
    requires ValidDraws(draws) && 0 <= k < |draws|
    requires CodeInUse(hs, JoinCode(draws[0])) && AllTaken(hs, draws[1..][..k])
    ensures AllTaken(hs, draws[..k + 1])
  {
    assert draws[..k + 1] == [draws[0]] + draws[1..][..k];
  }

  lemma AllTakenTail(hs: seq<Household>, draws: seq<int>)
    requires ValidDraws(draws) && draws != []
    ensures AllTaken(hs, draws) <==> CodeInUse(hs, JoinCode(draws[0])) && AllTaken(hs, draws[1..])
  {
    forall i | 0 <= i < |draws[1..]| ensures draws[1..][i] == draws[i + 1] { }
  }

  /** A later draw that succeeds after the first one collided is still preceded only by collisions. */
  lemma RetryResult(hs: seq<Household>, draws: seq<int>, code: string)
    requires ValidDraws(draws) && draws != [] && CodeInUse(hs, JoinCode(draws[0]))
    requires exists k :: (0 <= k < |draws[1..]| && code == JoinCode(draws[1..][k])
      && AllTaken(hs, draws[1..][..k]))
    ensures exists k :: (0 <= k < |draws| && code == JoinCode(draws[k]) && AllTaken(hs, draws[..k]))
  {
    var k :| 0 <= k < |draws[1..]| && code == JoinCode(draws[1..][k]) && AllTaken(hs, draws[1..][..k]);
    AllTakenCons(hs, draws, k);
    assert code == JoinCode(draws[k + 1]);
  }

  /**
   * `ensureUniqueJoinCode`, bounded: tries the draws in order and passes on the
   * first code no household has. The source retries without bound; here the
   * attempts end with the draws, and None means every drawn code was taken.
   */
  function EnsureUniqueJoinCode(hs: seq<Household>, draws: seq<int>): (r: Option<string>)
    requires ValidDraws(draws)
    ensures r.Some? ==> |r.value| == 6 && AllDigits(r.value) && !CodeInUse(hs, r.value)
    ensures r.Some? ==> exists k :: (0 <= k < |draws| && r.value == JoinCode(draws[k])
      && AllTaken(hs, draws[..k]))
    ensures r.None? <==> AllTaken(hs, draws)
  {
    if draws == [] then None
    else
      var code := JoinCode(draws[0]);
      AllTakenTail(hs, draws);
      if !CodeInUse(hs, code) then
        assert draws[..0] == [];
        Some(code)
      else
        var r := EnsureUniqueJoinCode(hs, draws[1..]);
        if r.Some? then
          RetryResult(hs, draws, r.value);
          r
        else
          r
  }

  /** The household `createHousehold` writes: the creator is its only member. */
  function NewHousehold(id: string, name: string, joinCode: string, uid: string): (h: Household)
    ensures h.id == id && h.name == name && h.joinCode == joinCode
    ensures forall m :: m in h.members <==> m == uid
    ensures NoDuplicates(h.members)
  {
    Household(id, name, joinCode, [uid])
  }

  /** The state change of a successful join: the first household with the code and the user now name each other. */
  function JoinState(hs: seq<Household>, users: map<string, User>, code: string, uid: string)
    : (r: (seq<Household>, map<string, User>))
    ensures FirstWhere(hs, JoinCodeField, code).None? ==> r == (hs, users)
    ensures |r.0| == |hs| && r.1.Keys == users.Keys
    ensures FirstWhere(hs, JoinCodeField, code).Some? ==>
      var i := FirstWhere(hs, JoinCodeField, code).value;
      && uid in r.0[i].members
      && (uid in users ==> hs[i].id in r.1[uid].households)
      && (forall j :: 0 <= j < |hs| && hs[j].id != hs[i].id ==> r.0[j] == hs[j])
      && (forall j :: 0 <= j < |hs| && hs[j].id == hs[i].id ==>
            r.0[j] == hs[j].(members := ArrayUnion(hs[j].members, uid)))
      && (uid in users ==>
            r.1[uid] == users[uid].(households := ArrayUnion(users[uid].households, hs[i].id)))
      && (forall k :: k in users && k != uid ==> r.1[k] == users[k])
  {
    match FirstWhere(hs, JoinCodeField, code)
    case None => (hs, users)
    case Some(i) =>
      (UpdateMembers(hs, hs[i].id, Union(uid)), UpdateUserHouseholds(users, uid, Union(hs[i].id)))
  }

  lemma UpdateMembersUnionTwice(hs: seq<Household>, id: string, uid: string)
    ensures UpdateMembers(UpdateMembers(hs, id, Union(uid)), id, Union(uid)) == UpdateMembers(hs, id, Union(uid))
  {
    var once := UpdateMembers(hs, id, Union(uid));
    var twice := UpdateMembers(once, id, Union(uid));
    forall i | 0 <= i < |hs| ensures twice[i] == once[i] {
      ArrayUnionIdempotent(hs[i].members, uid);
    }
  }

  /** Joining twice with the same code leaves the same state as joining once. */
  lemma JoinIdempotent(hs: seq<Household>, users: map<string, User>, code: string, uid: string)
    ensures var (hs1, users1) := JoinState(hs, users, code, uid);
      JoinState(hs1, users1, code, uid) == (hs1, users1)
  {
    match FirstWhere(hs, JoinCodeField, code)
    case None =>
    case Some(i) =>
      var (hs1, users1) := JoinState(hs, users, code, uid);
      var id := hs[i].id;
      assert |hs1| == |hs| && forall j :: 0 <= j < |hs| ==> hs1[j].joinCode == hs[j].joinCode && hs1[j].id == hs[j].id;
      assert FirstWhere(hs1, JoinCodeField, code) == Some(i) by {
        FirstWhereSameKeys(hs, hs1, code);
      }
      UpdateMembersUnionTwice(hs, id, uid);
      if uid in users {
        ArrayUnionIdempotent(users[uid].households, id);
        assert UpdateUserHouseholds(users1, uid, Union(id)) == users1;
      }
  }

  lemma {:induction false} FirstWhereSameKeys(hs: seq<Household>, hs1: seq<Household>, code: string)
    requires |hs1| == |hs| && forall j :: 0 <= j < |hs| ==> hs1[j].joinCode == hs[j].joinCode
    ensures FirstWhere(hs1, JoinCodeField, code) == FirstWhere(hs, JoinCodeField, code)
  {
    if hs != [] {
      FirstWhereSameKeys(hs[1..], hs1[1..], code);
    }
  }

  /** Leaving undoes joining, for a user who was not yet a member of that household. */
  lemma JoinThenLeave(hs: seq<Household>, users: map<string, User>, id: string, uid: string)
    requires forall j :: 0 <= j < |hs| && hs[j].id == id ==> uid !in hs[j].members
    requires uid in users ==> id !in users[uid].households
    ensures UpdateMembers(UpdateMembers(hs, id, Union(uid)), id, Remove(uid)) == hs
    ensures UpdateUserHouseholds(UpdateUserHouseholds(users, uid, Union(id)), uid, Remove(id)) == users
  {
    var back := UpdateMembers(UpdateMembers(hs, id, Union(uid)), id, Remove(uid));
    forall j | 0 <= j < |hs| ensures back[j] == hs[j] {
      if hs[j].id == id { UnionThenRemove(hs[j].members, uid); }
    }
    if uid in users { UnionThenRemove(users[uid].households, id); }
  }

  /** Every listed member's user document loses household `id`: the loop of `deleteHousehold`. */
  function UnlinkAll(users: map<string, User>, members: seq<string>, id: string): (r: map<string, User>)
    ensures r.Keys == users.Keys
  {
    if members == [] then users
    else UpdateUserHouseholds(UnlinkAll(users, members[..|members| - 1], id), members[|members| - 1], Remove(id))
  }

  /** After the loop, a listed member's list is its old list without the id; everybody else's is unchanged. */
  lemma {:induction false} UnlinkAllEffect(users: map<string, User>, members: seq<string>, id: string, k: string)
    requires k in users
    ensures UnlinkAll(users, members, id)[k] ==
      if k in members then users[k].(households := ArrayRemove(users[k].households, id)) else users[k]
  {
    if members != [] {
      var init := members[..|members| - 1];
      UnlinkAllEffect(users, init, id, k);
      if k in init {
        ArrayRemoveIdempotent(users[k].households, id);
      }
      assert k in members <==> k in init || k == members[|members| - 1];
    }
  }

  class HouseholdViewModel {
    const db: Store
    var error: Option<string>
    var success: bool

    constructor (db: Store)
      ensures this.db == db && error == None && !success
    {
      this.db := db;
      error, success := None, false;
    }

    /**
     * `createHousehold`. `draws` are the random numbers drawn for join codes,
     * `newId` the fresh document id, `written` the household write's outcome
     * (with `failure` its message), `linked` the outcome of the user update.
     */
    method CreateHousehold(name: string, uid: Option<string>, draws: seq<int>, newId: string,
                           written: bool, failure: string, linked: bool)
      returns (created: Option<string>)
      requires db.Valid() && ValidDraws(draws)
      requires forall i :: 0 <= i < |db.households| ==> db.households[i].id != newId
      modifies this, db
      ensures db.Valid()
      ensures db.plants == old(db.plants)
      ensures uid.None? ==> created == None && unchanged(this, db)
      ensures uid.Some? && IsBlank(name) ==>
        created == None && error == Some("Household name cannot be empty") && success == old(success)
        && unchanged(db)
      ensures uid.Some? && !IsBlank(name) && EnsureUniqueJoinCode(old(db.households), draws).None? ==>
        created == None && unchanged(this, db)
      ensures uid.Some? && !IsBlank(name) && EnsureUniqueJoinCode(old(db.households), draws).Some? && !written ==>
        created == None && error == Some("Failed: " + failure) && success == old(success) && unchanged(db)
      ensures uid.Some? && !IsBlank(name) && EnsureUniqueJoinCode(old(db.households), draws).Some? && written ==>
        && db.households == InsertById(old(db.households),
             NewHousehold(newId, name, EnsureUniqueJoinCode(old(db.households), draws).value, uid.value), HouseholdId)
        && error == old(error)
        && (linked && uid.value in old(db.users) ==>
              && db.users == UpdateUserHouseholds(old(db.users), uid.value, Union(newId))
              && success && created == Some(newId))
        && (!(linked && uid.value in old(db.users)) ==>
              db.users == old(db.users) && success == old(success) && created == None)
    {
      if uid.None? {
        return None;
      }
      if IsBlank(name) {
        error := Some("Household name cannot be empty");
        return None;
      }
      var joinCode := EnsureUniqueJoinCode(db.households, draws);
      if joinCode.None? {
        return None;
      }
      var household := NewHousehold(newId, name, joinCode.value, uid.value);
      if !written {
        error := Some("Failed: " + failure);
        return None;
      }
      db.AddHousehold(household);
      if !(linked && uid.value in db.users) {
        return None;
      }
      db.UpdateUser(uid.value, Union(newId));
      success := true;
      return Some(newId);
    }

    /**
     * `joinHouseholdByCode`. `queried` is the code query's outcome (with
     * `failure` its message); `linked` the outcome of the user update.
     */
    method JoinHouseholdByCode(code: string, uid: Option<string>, queried: bool, failure: string, linked: bool)
      returns (joined: Option<string>)
      requires db.Valid()
      modifies this, db
      ensures db.Valid()
      ensures db.plants == old(db.plants)
      ensures uid.None? ==> joined == None && unchanged(this, db)
      ensures uid.Some? && !queried ==>
        joined == None && error == Some("Failed to join: " + failure) && success == old(success) && unchanged(db)
      ensures uid.Some? && queried && FirstWhere(old(db.households), JoinCodeField, code).None? ==>
        joined == None && error == Some("Invalid join code") && success == old(success) && unchanged(db)
      ensures uid.Some? && queried && FirstWhere(old(db.households), JoinCodeField, code).Some? ==>
        var hid := old(db.households)[FirstWhere(old(db.households), JoinCodeField, code).value].id;
        && error == old(error)
        && db.households == UpdateMembers(old(db.households), hid, Union(uid.value))
        && (linked && uid.value in old(db.users) ==>
              && (db.households, db.users) == JoinState(old(db.households), old(db.users), code, uid.value)
              && success && joined == Some(hid))
        && (!(linked && uid.value in old(db.users)) ==>
              db.users == old(db.users) && success == old(success) && joined == None)
    {
      if uid.None? {
        return None;
      }
      if !queried {
        error := Some("Failed to join: " + failure);
        return None;
      }
      var first := FirstWhere(db.households, JoinCodeField, code);
      if first.None? {
        error := Some("Invalid join code");
        return None;
      }
      var householdId := db.households[first.value].id;
      db.UpdateHouseholdMembers(householdId, Union(uid.value));
      if !(linked && uid.value in db.users) {
        return None;
      }
      db.UpdateUser(uid.value, Union(householdId));
      success := true;
      return Some(householdId);
    }

    /** Deletes, one by one, every plant the `householdId` query returns. */
    method DeleteHouseholdPlants(householdId: string)
      requires db.Valid()
      modifies db
      ensures db.Valid()
      ensures db.plants == PlantsOutside(old(db.plants), householdId)
      ensures db.users == old(db.users) && db.households == old(db.households)
    {
      ghost var ps0 := db.plants;
      var ids := PlantIds(QueryPlants(db.plants, HouseholdIs(householdId)));
      RemoveAllIdsNone(ps0);
      var i := 0;
      while i < |ids|
        invariant 0 <= i <= |ids|
        invariant db.Valid()
        invariant db.plants == RemoveAllIds(ps0, ids[..i])
        invariant db.users == old(db.users) && db.households == old(db.households)
      {
        RemoveOneMoreId(ps0, ids, i);
        db.DeletePlant(ids[i]);
        i := i + 1;
      }
      assert ids[..i] == ids;
      HouseholdPlantIds(old(db.plants), householdId);
    }

    /**
     * `leaveHousehold`. `fetched` is the household read's outcome (with
     * `failure` its message), `plantsQueried` the plant query's, `deleted` the
     * household deletion's. The household and its plants go exactly when no
     * member other than the leaver was listed.
     */
    method LeaveHousehold(householdId: string, uid: Option<string>, fetched: bool, failure: string,
                          plantsQueried: bool, deleted: bool)
      returns (result: Option<bool>)
      requires db.Valid()
      modifies this, db
      ensures db.Valid()
      ensures uid.None? ==> result == None && unchanged(this, db)
      ensures uid.Some? && !fetched ==>
        result == Some(false) && error == Some("Failed: " + failure) && success == old(success) && unchanged(db)
      ensures uid.Some? && fetched && FirstWhere(old(db.households), IdField, householdId).None? ==>
        result == Some(false) && error == Some("Household not found") && success == old(success) && unchanged(db)
      ensures uid.Some? && fetched && FirstWhere(old(db.households), IdField, householdId).Some? ==>
        var members := old(db.households)[FirstWhere(old(db.households), IdField, householdId).value].members;
        var left := UpdateMembers(old(db.households), householdId, Remove(uid.value));
        && error == old(error)
        && db.users == UpdateUserHouseholds(old(db.users), uid.value, Remove(householdId))
        && (ArrayRemove(members, uid.value) != [] ==>
              db.households == left && db.plants == old(db.plants) && success && result == Some(true))
        && (ArrayRemove(members, uid.value) == [] && !plantsQueried ==>
              db.households == left && db.plants == old(db.plants) && success == old(success) && result == None)
        && (ArrayRemove(members, uid.value) == [] && plantsQueried ==>
              && db.plants == PlantsOutside(old(db.plants), householdId)
              && (deleted ==> db.households == RemoveHouseholdDoc(left, householdId) && success && result == Some(true))
              && (!deleted ==> db.households == left && success == old(success) && result == None))
    {
      if uid.None? {
        return None;
      }
      if !fetched {
        error := Some("Failed: " + failure);
        return Some(false);
      }
      var found := FirstWhere(db.households, IdField, householdId);
      if found.None? {
        error := Some("Household not found");
        return Some(false);
      }
      var members := db.households[found.value].members;
      db.UpdateHouseholdMembers(householdId, Remove(uid.value));
      db.UpdateUser(uid.value, Remove(householdId));
      var updatedMembers := ArrayRemove(members, uid.value);
      if updatedMembers == [] {
        if !plantsQueried {
          return None;
        }
        DeleteHouseholdPlants(householdId);
        if !deleted {
          return None;
        }
        db.DeleteHousehold(householdId);
        success := true;
        return Some(true);
      } else {
        success := true;
        return Some(true);
      }
    }

    /**
     * `deleteHousehold` (administrative; any signed-in user may call it).
     * `fetched`, `plantsQueried` and `deleted` are the outcomes of the
     * household read, the plant query and the household deletion, with their
     * messages.
     */
    method DeleteHousehold(householdId: string, uid: Option<string>, fetched: bool, fetchFailure: string,
                           plantsQueried: bool, deleted: bool, deleteFailure: string)
      returns (result: Option<bool>)
      requires db.Valid()
      modifies this, db
      ensures db.Valid()
      ensures uid.None? ==> result == None && unchanged(this, db)
      ensures uid.Some? && !fetched ==>
        result == Some(false) && error == Some("Failed to fetch household: " + fetchFailure)
        && success == old(success) && unchanged(db)
      ensures uid.Some? && fetched && FirstWhere(old(db.households), IdField, householdId).None? ==>
        result == Some(false) && error == Some("Household not found") && success == old(success) && unchanged(db)
      ensures uid.Some? && fetched && FirstWhere(old(db.households), IdField, householdId).Some? ==>
        var members := old(db.households)[FirstWhere(old(db.households), IdField, householdId).value].members;
        && db.users == UnlinkAll(old(db.users), members, householdId)
        && db.plants == (if plantsQueried then PlantsOutside(old(db.plants), householdId) else old(db.plants))
        && (deleted ==> db.households == RemoveHouseholdDoc(old(db.households), householdId)
                        && success && error == old(error) && result == Some(true))
        && (!deleted ==> db.households == old(db.households) && success == old(success)
                         && error == Some("Failed to delete: " + deleteFailure) && result == Some(false))
    {
      if uid.None? {
        return None;
      }
      if !fetched {
        error := Some("Failed to fetch household: " + fetchFailure);
        return Some(false);
      }
      var found := FirstWhere(db.households, IdField, householdId);
      if found.None? {
        error := Some("Household not found");
        return Some(false);
      }
      var members := db.households[found.value].members;
      var i := 0;
      while i < |members|
        invariant 0 <= i <= |members|
        invariant db.Valid()
        invariant db.users == UnlinkAll(old(db.users), members[..i], householdId)
        invariant db.households == old(db.households) && db.plants == old(db.plants)
        invariant error == old(error) && success == old(success)
      {
        assert members[..i + 1][..i] == members[..i];
        db.UpdateUser(members[i], Remove(householdId));
        i := i + 1;
      }
      assert members[..i] == members;
      if plantsQueried {
        DeleteHouseholdPlants(householdId);
      }
      if deleted {
        db.DeleteHousehold(householdId);
        success := true;
        return Some(true);
      } else {
        error := Some("Failed to delete: " + deleteFailure);
        return Some(false);
      }
    }
  }
}
