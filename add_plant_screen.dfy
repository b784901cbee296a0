// The add-plant form: its state variables, the validation of `savePlant`,
// the plant it builds, and the household choices of its drop-down.

module AddPlantScreen {
  import opened Model
  import opened KotlinInt
  import opened Text
  import opened Schedule
  import opened Firestore
  import opened MainViewModel

  const NameRequired: string := "Plant name is required."
  const InvalidDays: string := "Enter a valid number of days."

  /** The first failing check of `savePlant`, in the order the form runs them; None when both pass. */
  function SaveError(plantName: string, wateringDays: string): (err: Option<string>)
    ensures err == Some(NameRequired) <==> IsBlank(plantName)
    ensures err == Some(InvalidDays) <==>
      !IsBlank(plantName) && (ToIntOrNull(wateringDays).None? || ToIntOrNull(wateringDays).value <= 0)
    ensures err.None? <==>
      !IsBlank(plantName) && ToIntOrNull(wateringDays).Some? && ToIntOrNull(wateringDays).value > 0
  {
    TrimEmptyIffBlank(plantName);
    if Trim(plantName) == [] then Some(NameRequired)
    else
      var days := ToIntOrNull(wateringDays);
      if days.None? || days.value <= 0 then Some(InvalidDays)
      else None
  }

  /**
   * The plant `savePlant` builds. `now` stands for both clock reads (the due
   * date and the `createdAt` default); `imageUri` is the picked image's text,
   * and `imageUri.toString()` of no image is the text "null".
   */
  function NewPlant(plantName: string, userId: string, selectedHousehold: Option<string>, days: int,
                    now: int, imageUri: Option<string>): (p: Plant)
    requires days >= 1
    ensures ExactlyOneScope(p)
    ensures selectedHousehold.None? ==> p.ownerId == Some(userId) && p.householdId == None
    ensures selectedHousehold.Some? ==> p.ownerId == None && p.householdId == selectedHousehold
    ensures p.name == Trim(plantName)
    ensures !IsBlank(plantName) ==> p.name != []
    ensures p.nextWateringDate == now + IntervalMillis(days)
    ensures p.wateringDays == DefaultWateringDays && NeverWatered(p)
    ensures p.imageUrl == Some(if imageUri.Some? then imageUri.value else "null")
  {
    TrimEmptyIffBlank(plantName);
    DefaultPlant(now).(
      name := Trim(plantName),
      ownerId := if selectedHousehold.None? then Some(userId) else None,
      householdId := selectedHousehold,
      nextWateringDate := now + IntervalMillis(days),
      imageUrl := Some(if imageUri.Some? then imageUri.value else "null"))
  }

  /**
   * The plant `savePlant` builds as written: the due date adds the `Int`
   * product `days * 24 * 60 * 60 * 1000`, which wraps round from 25 days on.
   */
  function NewPlantAsWritten(plantName: string, userId: string, selectedHousehold: Option<string>, days: int,
                             now: int, imageUri: Option<string>): (p: Plant)
    requires 1 <= days <= IntMax
    ensures p.nextWateringDate == now + IntervalMillisInt32(days)
    ensures p.nextWateringDate == now + IntervalMillis(days) <==> days <= 24
    ensures p == NewPlant(plantName, userId, selectedHousehold, days, now, imageUri).(nextWateringDate := p.nextWateringDate)
  {
    Int32IntervalCorrectIff(days);
    var q := NewPlant(plantName, userId, selectedHousehold, days, now, imageUri);
    q.(nextWateringDate := now + IntervalMillisInt32(days))
  }

  /**
   * As written, a plant saved with 25 to 49 days is due before it was
   * created: the worker's `nextWateringDate <= now` test reports it at once.
   */
  lemma NewPlantAsWrittenStartsOverdue(plantName: string, userId: string, selectedHousehold: Option<string>,
                                       days: int, now: int, imageUri: Option<string>)
    requires 25 <= days <= 49
    ensures NewPlantAsWritten(plantName, userId, selectedHousehold, days, now, imageUri).nextWateringDate < now
    ensures NewPlant(plantName, userId, selectedHousehold, days, now, imageUri).nextWateringDate > now
  {
    Int32IntervalNegative(days);
  }

  /**
   * A new plant may be watered at once (it was never watered). Its first due
   * date follows the days typed, but `wateringDays` keeps the default, so every
   * accepted watering afterwards schedules the next one 7 days ahead.
   */
  lemma NewPlantScheduleUsesDefault(plantName: string, userId: string, selectedHousehold: Option<string>,
                                    days: int, now: int, imageUri: Option<string>, later: int)
    requires days >= 1
    ensures var p := NewPlant(plantName, userId, selectedHousehold, days, now, imageUri);
      && !TooEarly(p, now)
      && Watered(p, later).nextWateringDate == later + 7 * MillisPerDay
  {
  }

  /** `listOf(null) + households`: "private" first, then the user's households in order. */
  function HouseholdOptions(user: Option<User>): (options: seq<Option<string>>)
    ensures user.None? ==> options == [None]
    ensures user.Some? ==>
      && |options| == 1 + |user.value.households| && options[0] == None
      && forall i :: 0 <= i < |user.value.households| ==> options[i + 1] == Some(user.value.households[i])
  {
    var households := if user.Some? then user.value.households else [];
    [None] + seq(|households|, i requires 0 <= i < |households| => Some(households[i]))
  }

  /** The text `DropdownMenuBox` shows for an option: "Private" for none, the household id otherwise. */
  function OptionLabel(option: Option<string>): (text: string)
    ensures option.None? ==> text == "Private"
    ensures option.Some? ==> text == option.value
  {
    if option.None? then "Private" else option.value
  }

  /** The first option is always the private one, and every other option is labelled with its household id. */
  lemma OptionLabels(user: Option<User>)
    ensures var options := HouseholdOptions(user);
      && OptionLabel(options[0]) == "Private"
      && (user.Some? ==> forall i :: 0 <= i < |user.value.households| ==>
            OptionLabel(options[i + 1]) == user.value.households[i])
  {
  }

  class AddPlantForm {
    const vm: MainViewModel
    var plantName: string
    var selectedHousehold: Option<string>
    var wateringDays: string
    var localError: Option<string>
    var imageUri: Option<string>

    constructor (vm: MainViewModel)
      ensures this.vm == vm
      ensures plantName == "" && selectedHousehold == None && wateringDays == "7"
      ensures localError == None && imageUri == None
    {
      this.vm := vm;
      plantName, selectedHousehold, wateringDays := "", None, "7";
      localError, imageUri := None, None;
    }

    /**
     * `savePlant`: clears the error, runs the checks in order and, when both
     * pass and a user is loaded, adds the plant under `freshId`. The result
     * says whether the plant was added (and `onPlantAdded` called).
     */
    method SavePlant(now: int, freshId: string) returns (added: bool)
      requires vm.db.Valid()
      requires !HasPlantId(vm.db.plants, freshId)
      modifies this, vm.db
      ensures vm.db.Valid()
      ensures localError == SaveError(old(plantName), old(wateringDays))
      ensures plantName == old(plantName) && wateringDays == old(wateringDays)
      ensures selectedHousehold == old(selectedHousehold) && imageUri == old(imageUri)
      ensures added <==> localError.None? && vm.currentUser.Some?
      ensures added ==>
        vm.db.plants == InsertById(old(vm.db.plants),
          NewPlant(plantName, vm.currentUser.value.id, selectedHousehold,
                   ToIntOrNull(wateringDays).value, now, imageUri).(id := freshId), PlantId)
      ensures !added ==> vm.db.plants == old(vm.db.plants)
      ensures vm.db.users == old(vm.db.users) && vm.db.households == old(vm.db.households)
    {
      localError := None;
      if Trim(plantName) == [] {
        localError := Some(NameRequired);
        return false;
      }
      var days := ToIntOrNull(wateringDays);
      if days.None? || days.value <= 0 {
        localError := Some(InvalidDays);
        return false;
      }
      if vm.currentUser.None? {
        return false;
      }
      var userId := vm.currentUser.value.id;
      var plant := NewPlant(plantName, userId, selectedHousehold, days.value, now, imageUri);
      vm.AddPlant(plant, freshId);
      return true;
    }
  }
}
