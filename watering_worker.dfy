// WateringWorker: the periodic background job that collects the signed-in
// user's plants (private ones and those of every household the user belongs
// to), picks the ones that are due and chooses the reminder text.

module WateringWorker {
  import opened Model
  import opened Text
  import opened Lists
  import opened KotlinInt
  import opened Schedule
  import opened Firestore

  /** Firestore's `whereIn` accepts at most this many values. */
  const MaxWhereIn: nat := 10

  datatype WorkResult = Success | Failure

  /** The plants returned by one `whereIn` query per chunk, appended in chunk order. */
  function ConcatQueries(ps: seq<Plant>, chunks: seq<seq<string>>): (r: seq<Plant>)
    ensures forall p :: p in r ==> p in ps && p.householdId.Some?
    ensures chunks == [] ==> r == []
  {
    if chunks == [] then []
    else ConcatQueries(ps, chunks[..|chunks| - 1]) + QueryPlants(ps, HouseholdIn(chunks[|chunks| - 1]))
  }

  /** A plant is collected exactly when it belongs to a household listed in some chunk. */
  lemma {:induction false} ConcatQueriesMembership(ps: seq<Plant>, chunks: seq<seq<string>>, p: Plant)
    ensures p in ConcatQueries(ps, chunks) <==>
      p in ps && p.householdId.Some? && exists i :: 0 <= i < |chunks| && p.householdId.value in chunks[i]
  {
    if chunks != [] {
      var init := chunks[..|chunks| - 1];
      ConcatQueriesMembership(ps, init, p);
      if p.householdId.Some? {
        var h := p.householdId.value;
        if exists i :: 0 <= i < |chunks| && h in chunks[i] {
          var i :| 0 <= i < |chunks| && h in chunks[i];
          if i < |chunks| - 1 { assert h in init[i]; }
        }
        if exists i :: 0 <= i < |init| && h in init[i] {
          var i :| 0 <= i < |init| && h in init[i];
          assert h in chunks[i];
        }
      }
    }
  }

  /** The household ids the worker reads from the user document (none when it is missing). */
  function UserHouseholds(users: map<string, User>, uid: string): (ids: seq<string>)
    ensures uid in users ==> ids == users[uid].households
    ensures uid !in users ==> ids == []
  {
    if uid in users then users[uid].households else []
  }

  /** The combined list: the private plants followed by the household plants, duplicates kept. */
  function WorkerPlants(ps: seq<Plant>, uid: string, householdIds: seq<string>): (r: seq<Plant>)
    ensures var own := QueryPlants(ps, OwnerIs(uid));
      |own| <= |r| && r[..|own|] == own
    ensures householdIds == [] ==> r == QueryPlants(ps, OwnerIs(uid))
    ensures forall p :: p in r ==> p in ps
  {
    var own := QueryPlants(ps, OwnerIs(uid));
    var r := own + ConcatQueries(ps, Chunked(householdIds, MaxWhereIn));
    assert r[..|own|] == own;
    r
  }

  /** Chunking loses no household: a household plant is collected iff its household is among the ids. */
  lemma HouseholdPlantsCollected(ps: seq<Plant>, householdIds: seq<string>, p: Plant)
    ensures p in ConcatQueries(ps, Chunked(householdIds, MaxWhereIn)) <==>
      p in ps && p.householdId.Some? && p.householdId.value in householdIds
  {
    var chunks := Chunked(householdIds, MaxWhereIn);
    ConcatQueriesMembership(ps, chunks, p);
    FlattenChunked(householdIds, MaxWhereIn);
    if p.householdId.Some? {
      InFlatten(chunks, p.householdId.value);
    }
  }

  /** A collected plant is the user's own or belongs to one of the user's households. */
  lemma WorkerPlantsMembership(ps: seq<Plant>, uid: string, householdIds: seq<string>, p: Plant)
    ensures p in WorkerPlants(ps, uid, householdIds) <==>
      p in ps && (p.ownerId == Some(uid) || (p.householdId.Some? && p.householdId.value in householdIds))
  {
    HouseholdPlantsCollected(ps, householdIds, p);
  }

  /** The chunk queries: consecutive groups of at most ten ids covering every id once, in order; none without households. */
  lemma ChunkQueriesCover(householdIds: seq<string>)
    ensures var chunks := Chunked(householdIds, MaxWhereIn);
      && Flatten(chunks) == householdIds
      && (forall i :: 0 <= i < |chunks| ==> 1 <= |chunks[i]| <= MaxWhereIn)
      && (chunks == [] <==> householdIds == [])
  {
    FlattenChunked(householdIds, MaxWhereIn);
  }

  predicate Due(p: Plant, now: int) {
    p.nextWateringDate <= now
  }

  /** `filter { it.nextWateringDate <= now }`. */
  function DuePlants(ps: seq<Plant>, now: int): (r: seq<Plant>)
    ensures forall p :: p in r <==> p in ps && Due(p, now)
    ensures |r| <= |ps|
  {
    if ps == [] then []
    else if Due(ps[0], now) then [ps[0]] + DuePlants(ps[1..], now)
    else DuePlants(ps[1..], now)
  }

  /** The filter keeps the list's order: it distributes over concatenation. */
  lemma {:induction false} DuePlantsConcat(a: seq<Plant>, b: seq<Plant>, now: int)
    ensures DuePlants(a + b, now) == DuePlants(a, now) + DuePlants(b, now)
  {
    if a == [] {
      assert a + b == b;
    } else {
      assert (a + b)[0] == a[0];
      assert (a + b)[1..] == a[1..] + b;
      DuePlantsConcat(a[1..], b, now);
    }
  }

  /** A single plant is kept exactly when it is due. */
  lemma DuePlantsSingle(p: Plant, now: int)
    ensures DuePlants([p], now) == if Due(p, now) then [p] else []
  {
    assert [p][1..] == [];
  }

  /** The filter keeps every copy of a due plant and no copy of any other, so duplicates are counted. */
  lemma {:induction false} DuePlantsMultiplicity(ps: seq<Plant>, now: int, p: Plant)
    ensures multiset(DuePlants(ps, now))[p] == if Due(p, now) then multiset(ps)[p] else 0
  {
    if ps != [] {
      assert ps == [ps[0]] + ps[1..];
      DuePlantsMultiplicity(ps[1..], now, p);
    }
  }

  /** `map { it.name }`. */
  function Names(ps: seq<Plant>): (names: seq<string>)
    ensures |names| == |ps| && forall i :: 0 <= i < |ps| ==> names[i] == ps[i].name
  {
    seq(|ps|, i requires 0 <= i < |ps| => ps[i].name)
  }

  /** The names passed to `showNotification`, or None when nothing is due. */
  function Reminder(ps: seq<Plant>, now: int): (r: Option<seq<string>>)
    ensures r.None? <==> forall p :: p in ps ==> !Due(p, now)
    ensures r.Some? ==> r.value == Names(DuePlants(ps, now)) && |r.value| >= 1
  {
    var due := DuePlants(ps, now);
    if due == [] then None
    else
      assert due[0] in due;
      Some(Names(due))
  }

  /** The text of the reminder: one plant by name, otherwise the count; the two forms cannot be confused. */
  function NotificationText(names: seq<string>): (text: string)
    ensures |text| >= 14 && (|names| == 1 <==> text[..14] == "Time to water ")
  {
    if |names| == 1 then
      var text := "Time to water " + names[0] + "!";
      assert text[..14] == "Time to water ";
      text
    else
      var text := "You have " + NatToDecimal(|names|) + " plants that need watering!";
      assert text[0] == 'Y';
      text
  }

  /** The text names the single due plant, or carries a count that reads back as the number of due plants. */
  lemma NotificationTextShape(names: seq<string>)
    requires |names| >= 1
    ensures |names| == 1 ==> NotificationText(names) == "Time to water " + names[0] + "!"
    ensures |names| <= IntMax && |names| != 1 ==>
      exists count :: (NotificationText(names) == "You have " + count + " plants that need watering!"
        && ToIntOrNull(count) == Some(|names|))
  {
    if |names| != 1 && |names| <= IntMax {
      DecimalRoundTrip(|names|);
    }
  }

  /** A plant just watered is not due at that moment, and is due again once its interval has passed. */
  lemma WateredPlantNotDue(p: Plant, now: int)
    ensures !Due(Watered(p, now), now)
    ensures Due(Watered(p, now), now + PlantInterval(p))
  {
  }

  /**
   * `doWork`. `failed` says that one of the reads threw; the exception is
   * swallowed. `shown` is what `showNotification` receives and `issued` the
   * household chunks queried, in order.
   */
  method DoWork(db: Store, uid: Option<string>, now: int, failed: bool)
    returns (result: WorkResult, shown: Option<seq<string>>, issued: seq<seq<string>>)
    ensures result == Success
    ensures uid.None? ==> shown == None && issued == []
    ensures uid.Some? && failed ==> shown == None
    ensures uid.Some? && !failed ==>
      var householdIds := UserHouseholds(db.users, uid.value);
      && issued == Chunked(householdIds, MaxWhereIn)
      && shown == Reminder(WorkerPlants(db.plants, uid.value, householdIds), now)
  {
    if uid.None? {
      return Success, None, [];
    }
    if failed {
      return Success, None, [];
    }
    var householdIds := UserHouseholds(db.users, uid.value);
    var privatePlants := QueryPlants(db.plants, OwnerIs(uid.value));
    var householdPlants: seq<Plant> := [];
    issued := [];
    if householdIds != [] {
      var chunks := Chunked(householdIds, MaxWhereIn);
      var i := 0;
      while i < |chunks|
        invariant 0 <= i <= |chunks|
        invariant issued == chunks[..i]
        invariant householdPlants == ConcatQueries(db.plants, chunks[..i])
      {
        assert chunks[..i + 1][..i] == chunks[..i];
        householdPlants := householdPlants + QueryPlants(db.plants, HouseholdIn(chunks[i]));
        issued := issued + [chunks[i]];
        i := i + 1;
      }
      assert chunks[..i] == chunks;
    }
    var allPlants := privatePlants + householdPlants;
    var duePlants := DuePlants(allPlants, now);
    shown := None;
    if duePlants != [] {
      shown := Some(Names(duePlants));
    }
    return Success, shown, issued;
  }
}
