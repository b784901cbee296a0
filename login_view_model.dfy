// LoginViewModel: registration (with the household named at sign-up) and
// sign-in. The authentication service is not modelled: its answer is a
// parameter, and so are the outcomes of the store operations.

module LoginViewModel {
  import opened Model
  import opened Text
  import opened Lists
  import opened Firestore

  /** What the authentication service answers: a user (whose uid may be missing) or a failure with its message. */
  datatype AuthOutcome = AuthOk(uid: Option<string>) | AuthFailed(message: Option<string>)

  /** The user document written at registration: a new user with the given households. */
  function RegisteredUser(uid: string, email: string, username: string, now: int, households: seq<string>): (u: User)
    ensures u.id == uid && u.email == email && u.username == username
    ensures u.joinDate == now && u.households == households
  {
    DefaultUser(now).(id := uid, email := email, username := username, households := households)
  }

  /** The household created when no household has the name given at registration: it has no join code. */
  function RegistrationHousehold(id: string, name: string, uid: string): (h: Household)
    ensures h.id == id && h.name == name && h.members == [uid]
    ensures h.joinCode == ""
  {
    DefaultHousehold().(id := id, name := name, members := [uid])
  }

  /** The member list a registration writes into an existing household. */
  function RegistrationMembers(members: seq<string>, uid: string): (r: seq<string>)
    ensures uid in r && NoDuplicates(r)
    ensures forall m :: m in r <==> m in members || m == uid
  {
    Distinct(members + [uid])
  }

  /**
   * Joining an existing household at registration writes the same member list
   * as joining it by code, when its member list had no duplicates.
   */
  lemma RegistrationJoinIsUnion(hs: seq<Household>, i: nat, uid: string)
    requires UniqueHouseholdIds(hs) && i < |hs|
    requires NoDuplicates(hs[i].members)
    ensures UpdateMembers(hs, hs[i].id, Replace(RegistrationMembers(hs[i].members, uid)))
         == UpdateMembers(hs, hs[i].id, Union(uid))
  {
    PlusDistinctIsArrayUnion(hs[i].members, uid);
    var a := UpdateMembers(hs, hs[i].id, Replace(RegistrationMembers(hs[i].members, uid)));
    var b := UpdateMembers(hs, hs[i].id, Union(uid));
    forall j | 0 <= j < |hs| ensures a[j] == b[j] {
      if hs[j].id == hs[i].id {
        assert j == i;
      }
    }
  }

  class LoginViewModel {
    const db: Store
    var isLoading: bool
    var error: Option<string>

    constructor (db: Store)
      ensures this.db == db && !isLoading && error == None
    {
      this.db := db;
      isLoading, error := false, None;
    }

    /** `loginUser`: the result says whether `onSuccess` is called. */
    method LoginUser(email: string, password: string, auth: AuthOutcome) returns (signedIn: bool)
      modifies this
      ensures !isLoading
      ensures signedIn <==> auth.AuthOk?
      ensures auth.AuthFailed? ==> error == auth.message
      ensures auth.AuthOk? ==> error == old(error)
    {
      isLoading := true;
      if auth.AuthFailed? {
        isLoading := false;
        error := auth.message;
        return false;
      }
      isLoading := false;
      return true;
    }

    /** `saveUser`: `saved` is the write's outcome and `message` its failure's message. */
    method SaveUser(user: User, saved: bool, message: Option<string>)
      requires db.Valid()
      modifies this, db
      ensures db.Valid() && !isLoading
      ensures db.households == old(db.households) && db.plants == old(db.plants)
      ensures saved ==> db.users == old(db.users)[user.id := user] && error == old(error)
      ensures !saved ==> db.users == old(db.users) && error == message
    {
      if saved {
        db.SetUser(user);
        isLoading := false;
      } else {
        isLoading := false;
        error := message;
      }
    }

    /**
     * `createOrJoinHousehold`: `queried` is the name query's outcome, `newId`
     * the fresh document id and `written` the outcome of the household write.
     * The result is the list handed to `onComplete` (None when it is never called).
     */
    method CreateOrJoinHousehold(name: string, userId: string, queried: bool, newId: string, written: bool)
      returns (ids: Option<seq<string>>)
      requires db.Valid()
      requires forall i :: 0 <= i < |db.households| ==> db.households[i].id != newId
      modifies db
      ensures db.Valid()
      ensures db.users == old(db.users) && db.plants == old(db.plants)
      ensures !(queried && written) ==> ids == None && db.households == old(db.households)
      ensures queried && written && FirstWhere(old(db.households), NameField, name).None? ==>
        && db.households == InsertById(old(db.households), RegistrationHousehold(newId, name, userId), HouseholdId)
        && ids == Some([newId])
      ensures queried && written && FirstWhere(old(db.households), NameField, name).Some? ==>
        var h := old(db.households)[FirstWhere(old(db.households), NameField, name).value];
        && db.households == UpdateMembers(old(db.households), h.id, Replace(RegistrationMembers(h.members, userId)))
        && ids == Some([h.id])
    {
      if !queried {
        return None;
      }
      var first := FirstWhere(db.households, NameField, name);
      if first.None? {
        if !written {
          return None;
        }
        db.AddHousehold(RegistrationHousehold(newId, name, userId));
        return Some([newId]);
      }
      var household := db.households[first.value];
      var updatedMembers := RegistrationMembers(household.members, userId);
      if !written {
        return None;
      }
      db.UpdateHouseholdMembers(household.id, Replace(updatedMembers));
      return Some([household.id]);
    }

    /**
     * `registerUser`. `auth` is the account creation's answer, `now` the
     * clock, and the remaining parameters the outcomes of the household step
     * and of the user write. A missing uid leaves the form loading.
     */
    method RegisterUser(email: string, password: string, username: string, householdName: Option<string>,
                        auth: AuthOutcome, now: int,
                        queried: bool, newId: string, written: bool, saved: bool, saveMessage: Option<string>)
      requires db.Valid()
      requires forall i :: 0 <= i < |db.households| ==> db.households[i].id != newId
      modifies this, db
      ensures db.Valid()
      ensures db.plants == old(db.plants)
      ensures auth.AuthFailed? ==> !isLoading && error == auth.message && unchanged(db)
      ensures auth == AuthOk(None) ==> isLoading && error == old(error) && unchanged(db)
      ensures auth.AuthOk? && auth.uid.Some? && (householdName.None? || IsBlank(householdName.value)) ==>
        && db.households == old(db.households)
        && !isLoading
        && (saved ==> db.users == old(db.users)[auth.uid.value := RegisteredUser(auth.uid.value, email, username, now, [])]
                      && error == old(error))
        && (!saved ==> db.users == old(db.users) && error == saveMessage)
      ensures auth.AuthOk? && auth.uid.Some? && householdName.Some? && !IsBlank(householdName.value) ==>
        var uid := auth.uid.value;
        var name := householdName.value;
        var first := FirstWhere(old(db.households), NameField, name);
        var ids := if first.Some? then [old(db.households)[first.value].id] else [newId];
        && (!(queried && written) ==>
              isLoading && error == old(error) && db.users == old(db.users) && db.households == old(db.households))
        && (queried && written ==>
              && !isLoading
              && (first.None? ==> db.households == InsertById(old(db.households), RegistrationHousehold(newId, name, uid), HouseholdId))
              && (first.Some? ==>
                    var h := old(db.households)[first.value];
                    db.households == UpdateMembers(old(db.households), h.id, Replace(RegistrationMembers(h.members, uid))))
              && (saved ==> db.users == old(db.users)[uid := RegisteredUser(uid, email, username, now, ids)]
                            && error == old(error))
              && (!saved ==> db.users == old(db.users) && error == saveMessage))
    {
      isLoading := true;
      if auth.AuthFailed? {
        isLoading := false;
        error := auth.message;
        return;
      }
      if auth.uid.None? {
        return;
      }
      var userId := auth.uid.value;
      if householdName.None? || IsBlank(householdName.value) {
        SaveUser(RegisteredUser(userId, email, username, now, []), saved, saveMessage);
      } else {
        var householdIds := CreateOrJoinHousehold(householdName.value, userId, queried, newId, written);
        if householdIds.Some? {
          SaveUser(RegisteredUser(userId, email, username, now, householdIds.value), saved, saveMessage);
        }
      }
    }
  }
}
