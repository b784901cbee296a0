// MainViewModel: the cached plant list of the main screen, the selected
// household, and the plant writes (add, delete, mark watered).

module MainViewModel {
  import opened Model
  import opened Schedule
  import opened Firestore

  /** The query `loadPlants` subscribes to: the user's private plants, or one household's plants. */
  function PlantsQuery(householdId: Option<string>, uid: string): (q: PlantQuery)
    ensures householdId.None? ==> q == OwnerIs(uid)
    ensures householdId.Some? ==> q == HouseholdIs(householdId.value)
  {
    if householdId.None? then OwnerIs(uid) else HouseholdIs(householdId.value)
  }

  /**
   * A private plant of `uid` shows in that user's private list and in no
   * household's list, whoever looks.
   */
  lemma PrivatePlantOnlyInPrivateView(ps: seq<Plant>, p: Plant, uid: string)
    requires p in ps && p.ownerId == Some(uid) && p.householdId == None
    ensures p in QueryPlants(ps, PlantsQuery(None, uid))
    ensures forall h, viewer :: p !in QueryPlants(ps, PlantsQuery(Some(h), viewer))
  {
  }

  class MainViewModel {
    const db: Store
    var plants: seq<Plant>
    var currentUser: Option<User>
    var selectedHouseholdId: Option<string>

    constructor (db: Store)
      ensures this.db == db
      ensures plants == [] && currentUser == None && selectedHouseholdId == None
    {
      this.db := db;
      plants, currentUser, selectedHouseholdId := [], None, None;
    }

    /**
     * `loadUserData`: reads the signed-in user's document (missing means no
     * user) and then shows the private plants. `fetched` is the read's outcome.
     */
    method LoadUserData(uid: Option<string>, fetched: bool)
      modifies this
      ensures uid.Some? && fetched ==>
        && currentUser == (if uid.value in db.users then Some(db.users[uid.value]) else None)
        && selectedHouseholdId == None
        && plants == QueryPlants(db.plants, OwnerIs(uid.value))
      ensures !(uid.Some? && fetched) ==>
        currentUser == old(currentUser) && plants == old(plants) && selectedHouseholdId == old(selectedHouseholdId)
    {
      if uid.None? || !fetched {
        return;
      }
      currentUser := if uid.value in db.users then Some(db.users[uid.value]) else None;
      LoadPlants(None, uid, true);
    }

    /**
     * `loadPlants(householdId)`: remembers the selection (even with nobody
     * signed in) and, when a snapshot arrives, replaces the list with the
     * query's documents. Only the first snapshot of the subscription is modelled.
     */
    method LoadPlants(householdId: Option<string>, uid: Option<string>, snapshotArrives: bool)
      modifies this
      ensures selectedHouseholdId == householdId
      ensures plants == if uid.Some? && snapshotArrives
                        then QueryPlants(db.plants, PlantsQuery(householdId, uid.value))
                        else old(plants)
      ensures currentUser == old(currentUser)
    {
      selectedHouseholdId := householdId;
      if uid.None? {
        return;
      }
      var query := PlantsQuery(householdId, uid.value);
      if snapshotArrives {
        plants := QueryPlants(db.plants, query);
      }
    }

    /**
     * `deletePlant`: deletes the document; only when the deletion succeeds is
     * the plant filtered out of the cached list.
     */
    method DeletePlant(plant: Plant, deleted: bool)
      requires db.Valid()
      modifies this, db
      ensures db.Valid()
      ensures deleted ==> db.plants == RemovePlantDoc(old(db.plants), plant.id)
      ensures deleted ==> plants == RemovePlantDoc(old(plants), plant.id)
      ensures !deleted ==> db.plants == old(db.plants) && plants == old(plants)
      ensures db.users == old(db.users) && db.households == old(db.households)
      ensures currentUser == old(currentUser) && selectedHouseholdId == old(selectedHouseholdId)
    {
      if deleted {
        db.DeletePlant(plant.id);
        plants := RemovePlantDoc(plants, plant.id);
      }
    }

    /** `addPlant`: stores a copy of the plant under the fresh document id the store hands out. */
    method AddPlant(plant: Plant, freshId: string)
      requires db.Valid()
      requires !HasPlantId(db.plants, freshId)
      modifies db
      ensures db.Valid()
      ensures db.plants == InsertById(old(db.plants), plant.(id := freshId), PlantId)
      ensures db.users == old(db.users) && db.households == old(db.households)
    {
      db.SetPlant(plant.(id := freshId));
    }

    /**
     * `markPlantWatered`: refuses a watering that the early-watering guard
     * blocks and writes nothing; otherwise writes the whole updated plant under
     * its id and reports true.
     */
    method MarkPlantWatered(plant: Plant, now: int) returns (accepted: bool)
      requires db.Valid()
      modifies db
      ensures db.Valid()
      ensures accepted <==> !TooEarly(plant, now)
      ensures accepted ==> db.plants == SetPlantDoc(old(db.plants), Watered(plant, now))
      ensures !accepted ==> db.plants == old(db.plants)
      ensures db.users == old(db.users) && db.households == old(db.households)
    {
      var wateringIntervalDays := EffectiveWateringDays(plant.wateringDays);
      var threshold := plant.nextWateringDate - IntervalMillis(wateringIntervalDays) / 3;
      if plant.lastWatered.Some? && now < threshold {
        return false;
      }
      var newDate := now + IntervalMillis(wateringIntervalDays);
      var updatedPlant := plant.(nextWateringDate := newDate, lastWatered := Some(now),
                                 timesWatered := plant.timesWatered + 1);
      db.SetPlant(updatedPlant);
      return true;
    }
  }
}
