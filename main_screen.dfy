// The main screen's rules: the days shown on a plant card, the title, the
// household menu, and the swipe and delete-confirmation state of the plant list.

module MainScreen {
  import opened Model
  import opened KotlinInt
  import opened Schedule

  /** `daysUntil`: whole days until the timestamp, truncated toward zero, never below 0. */
  function DaysUntil(timestamp: int, now: int): (days: int)
    ensures days >= 0
    ensures timestamp >= now ==> days * MillisPerDay <= timestamp - now < (days + 1) * MillisPerDay
    ensures timestamp < now ==> days == 0
  {
    var d := TruncDiv(timestamp - now, MillisPerDay);
    if d < 0 then 0 else d
  }

  /** A card shows 0 days exactly when the plant is due within the next 24 hours (or overdue). */
  lemma DaysUntilZeroIff(timestamp: int, now: int)
    ensures DaysUntil(timestamp, now) == 0 <==> timestamp < now + MillisPerDay
  {
  }

  /** Right after an accepted watering the card shows the plant's full interval in days. */
  lemma DaysUntilAfterWatering(p: Plant, now: int)
    ensures DaysUntil(Watered(p, now).nextWateringDate, now) == EffectiveWateringDays(p.wateringDays)
  {
    var d := EffectiveWateringDays(p.wateringDays);
    var diff := Watered(p, now).nextWateringDate - now;
    assert diff == d * MillisPerDay;
    var shown := DaysUntil(Watered(p, now).nextWateringDate, now);
    assert shown * MillisPerDay <= d * MillisPerDay < (shown + 1) * MillisPerDay;
  }

  /** The top bar's title. */
  function Title(selectedHouseholdId: Option<string>): (title: string)
    ensures selectedHouseholdId.None? <==> title == "Your Plants"
    ensures selectedHouseholdId.Some? <==> title == "Household Plants"
  {
    if selectedHouseholdId.None? then "Your Plants" else "Household Plants"
  }

  /** The items of the navigation menu. */
  datatype MenuItem = PrivateItem | HouseholdItem(householdId: string) | CreateJoinItem

  /** "Private", one item per household of the loaded user in order, then "Create/Join Household". */
  function MenuItems(user: Option<User>): (items: seq<MenuItem>)
    ensures var hs := if user.Some? then user.value.households else [];
      && |items| == |hs| + 2
      && items[0] == PrivateItem && items[|items| - 1] == CreateJoinItem
      && forall i :: 0 <= i < |hs| ==> items[i + 1] == HouseholdItem(hs[i])
  {
    var hs := if user.Some? then user.value.households else [];
    [PrivateItem] + seq(|hs|, i requires 0 <= i < |hs| => HouseholdItem(hs[i])) + [CreateJoinItem]
  }

  /** The text of a menu item; only a household item starts with "Household: ". */
  function MenuText(item: MenuItem): (text: string)
    ensures item.HouseholdItem? <==> |text| >= 11 && text[..11] == "Household: "
    ensures item.HouseholdItem? ==> text[11..] == item.householdId
  {
    match item
    case PrivateItem => "Private"
    case HouseholdItem(id) =>
      var text := "Household: " + id;
      assert text[..11] == "Household: " && text[11..] == id;
      text
    case CreateJoinItem =>
      var text := "Create/Join Household";
      assert text[0] != "Household: "[0];
      text
  }

  /** Distinct menu items show distinct texts, so the user can tell every household apart. */
  lemma MenuTextInjective(a: MenuItem, b: MenuItem)
    ensures MenuText(a) == MenuText(b) <==> a == b
  {
    if MenuText(a) == MenuText(b) && a.HouseholdItem? {
      assert b.HouseholdItem?;
      assert a.householdId == MenuText(a)[11..] == MenuText(b)[11..] == b.householdId;
    }
  }

  /** The argument an item's click passes to `loadPlants`; the create/join item loads nothing. */
  function LoadTarget(item: MenuItem): (target: Option<Option<string>>)
    ensures item == PrivateItem ==> target == Some(None)
    ensures item.HouseholdItem? ==> target == Some(Some(item.householdId))
    ensures item == CreateJoinItem ==> target == None
  {
    match item
    case PrivateItem => Some(None)
    case HouseholdItem(id) => Some(Some(id))
    case CreateJoinItem => None
  }

  /**
   * Choosing an item and loading its plants puts the matching title on the
   * screen: the private item gives "Your Plants", any household item
   * "Household Plants".
   */
  lemma MenuSelectionTitle(user: Option<User>, i: nat)
    requires i < |MenuItems(user)|
    ensures var item := MenuItems(user)[i];
      LoadTarget(item).Some? ==>
        Title(LoadTarget(item).value) == (if i == 0 then "Your Plants" else "Household Plants")
  {
  }

  /** The states a swipe-to-dismiss row can settle in. */
  datatype DismissValue = Default | DismissedToEnd | DismissedToStart

  /** The plant list's state: the plant awaiting delete confirmation, if any. */
  class PlantListState {
    var pendingDelete: Option<Plant>

    constructor ()
      ensures pendingDelete == None
    {
      pendingDelete := None;
    }

    predicate DialogShown()
      reads this
    {
      pendingDelete.Some?
    }

    /**
     * `confirmStateChange` as written. Its `when` takes the first branch that
     * lists the state, and the second branch already lists `DismissedToEnd`,
     * so a right swipe reaches neither `onWatered` nor the snackbar. The
     * results: whether the row may be dismissed, and the plant passed to
     * `onWatered`.
     */
    method OnSwipe(plant: Plant, state: DismissValue) returns (dismiss: bool, watered: Option<Plant>)
      modifies this
      ensures !dismiss && watered == None
      ensures pendingDelete == if state == DismissedToStart then Some(plant) else old(pendingDelete)
    {
      if state == DismissedToStart {
        pendingDelete := Some(plant);
        return false, None;
      } else if state == DismissedToStart || state == DismissedToEnd {
        return false, None;
      } else if state == DismissedToEnd {
        assert false;
        watered := Some(plant);
        return false, watered;
      } else {
        return false, None;
      }
    }

    /** `confirmStateChange` as its comments describe it: a right swipe marks the plant watered. */
    method OnSwipeIntended(plant: Plant, state: DismissValue) returns (dismiss: bool, watered: Option<Plant>)
      modifies this
      ensures !dismiss
      ensures watered == (if state == DismissedToEnd then Some(plant) else None)
      ensures pendingDelete == if state == DismissedToStart then Some(plant) else old(pendingDelete)
    {
      if state == DismissedToStart {
        pendingDelete := Some(plant);
        return false, None;
      } else if state == DismissedToEnd {
        return false, Some(plant);
      } else {
        return false, None;
      }
    }

    /** The dialog's "Delete" button: clears the prompt and returns the plant handed to `onDelete`. */
    method ConfirmDelete() returns (deleted: Plant)
      requires DialogShown()
      modifies this
      ensures Some(deleted) == old(pendingDelete)
      ensures pendingDelete == None
    {
      deleted := pendingDelete.value;
      pendingDelete := None;
    }

    /** The dialog's "Cancel" button and its dismiss request: both clear the prompt and delete nothing. */
    method ClosePrompt()
      modifies this
      ensures pendingDelete == None
    {
      pendingDelete := None;
    }
  }
}
