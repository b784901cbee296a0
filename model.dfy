// The three document types of the app (users, households, plants) as
// immutable values, with the defaults their Kotlin data classes declare.

module Model {

  datatype Option<+T> = None | Some(value: T)

  /** A plant document. `createdAt` is passed in instead of read from the clock. */
  datatype Plant = Plant(
    id: string,
    name: string,
    commonName: Option<string>,
    gbifUrl: Option<string>,
    imageUrl: Option<string>,
    ownerId: Option<string>,
    householdId: Option<string>,
    wateringDays: int,
    nextWateringDate: int,
    lastWatered: Option<int>,
    timesWatered: int,
    createdAt: int)

  datatype Household = Household(id: string, name: string, joinCode: string, members: seq<string>)

  /** A user document. `joinDate` is passed in instead of read from the clock. */
  datatype User = User(id: string, email: string, username: string, joinDate: int, households: seq<string>)

  const DefaultWateringDays: int := 7

  /** `Plant()` with every parameter left at its default. */
  function DefaultPlant(createdAt: int): Plant {
    Plant("", "", None, None, None, None, None, DefaultWateringDays, 0, None, 0, createdAt)
  }

  /** `Household()` with every parameter left at its default. */
  function DefaultHousehold(): Household {
    Household("", "", "", [])
  }

  /** `User()` with every parameter left at its default. */
  function DefaultUser(joinDate: int): User {
    User("", "", "", joinDate, [])
  }

  /** A plant never watered: no watering date recorded and a zero counter. */
  predicate NeverWatered(p: Plant) {
    p.lastWatered.None? && p.timesWatered == 0
  }

  /** The data-model invariant: a plant is either private or shared, never both nor neither. */
  predicate ExactlyOneScope(p: Plant) {
    p.ownerId.Some? != p.householdId.Some?
  }

  lemma DefaultPlantFields(createdAt: int)
    ensures var p := DefaultPlant(createdAt);
      && p.id == "" && p.name == ""
      && p.ownerId == None && p.householdId == None
      && p.wateringDays == 7 && p.nextWateringDate == 0
      && NeverWatered(p) && p.createdAt == createdAt
  {
  }

  /** The defaults alone violate the scope invariant: whoever builds a plant must choose a scope. */
  lemma DefaultPlantHasNoScope(createdAt: int)
    ensures !ExactlyOneScope(DefaultPlant(createdAt))
  {
  }

  lemma DefaultHouseholdFields()
    ensures DefaultHousehold() == Household("", "", "", [])
    ensures |DefaultHousehold().members| == 0 && DefaultHousehold().joinCode == ""
  {
  }

  lemma DefaultUserFields(joinDate: int)
    ensures var u := DefaultUser(joinDate);
      u.id == "" && u.email == "" && u.username == "" && u.households == [] && u.joinDate == joinDate
  {
  }
}
