/** The floor selector: the fetched floors ordered by floor number, the
    initial choice (the preselected floor when there is one, else the first
    floor) and the selection itself. The fetched list is a parameter; every
    `floorSelected` emission is appended to `emitted`. */
module FloorSelector {
  import opened Wrappers
  import opened Models

  // ---------------------------------------------------------------------------
  // Ordering by floor number

  predicate SortedByNumber(s: seq<Floor>) {
    forall i, j :: 0 <= i < j < |s| ==> s[i].floorNumber <= s[j].floorNumber
  }

  /** The floors of `s` on floor number `n`, in their order in `s`. */
  function OnNumber(s: seq<Floor>, n: int): (r: seq<Floor>)
    ensures |r| <= |s|
    ensures forall k :: 0 <= k < |r| ==> r[k].floorNumber == n && r[k] in s
    decreases |s|
  {
    if s == [] then []
    else if s[0].floorNumber == n then [s[0]] + OnNumber(s[1..], n)
    else OnNumber(s[1..], n)
  }

  /** `x` placed before the first floor of `s` numbered at least as high. */
  function Insert(x: Floor, s: seq<Floor>): (r: seq<Floor>)
    requires SortedByNumber(s)
    ensures SortedByNumber(r)
    ensures multiset(r) == multiset(s) + multiset{x}
    ensures forall k :: 0 <= k < |r| ==> r[k] == x || r[k] in s
    decreases |s|
  {
    if s == [] || x.floorNumber <= s[0].floorNumber then [x] + s
    else
      var rest := Insert(x, s[1..]);
      assert s == [s[0]] + s[1..];
      SortedCons(s[0], rest);
      [s[0]] + rest
  }

  /** A floor numbered no higher than every floor of a sorted `s` may go first. */
  lemma SortedCons(a: Floor, s: seq<Floor>)
    requires SortedByNumber(s)
    requires forall k :: 0 <= k < |s| ==> a.floorNumber <= s[k].floorNumber
    ensures SortedByNumber([a] + s)
  {
  }

  /** The order `floors.sort((a, b) => a.floorNumber - b.floorNumber)` gives:
      ascending floor numbers, the same floors, and floors sharing a number kept
      in their fetched order (the sort is stable). */
  function SortByNumber(s: seq<Floor>): (r: seq<Floor>)
    ensures SortedByNumber(r)
    ensures multiset(r) == multiset(s)
    decreases |s|
  {
    if s == [] then []
    else
      assert s == [s[0]] + s[1..];
      Insert(s[0], SortByNumber(s[1..]))
  }

  /** Inserting `x` adds it in front of the floors sharing its number and
      leaves every other number's floors as they were. */
  lemma {:induction false} InsertOnNumber(x: Floor, s: seq<Floor>, n: int)
    requires SortedByNumber(s)
    ensures OnNumber(Insert(x, s), n) == if x.floorNumber == n then [x] + OnNumber(s, n) else OnNumber(s, n)
    decreases |s|
  {
    if s == [] || x.floorNumber <= s[0].floorNumber {
      assert ([x] + s)[1..] == s;
    } else {
      InsertOnNumber(x, s[1..], n);
      assert ([s[0]] + Insert(x, s[1..]))[1..] == Insert(x, s[1..]);
      if x.floorNumber == n {
        assert s[0].floorNumber != n;
      }
    }
  }

  /** The sort is stable: for every floor number, the floors on it come out in
      the order they were fetched. */
  lemma {:induction false} SortIsStable(s: seq<Floor>, n: int)
    ensures OnNumber(SortByNumber(s), n) == OnNumber(s, n)
    decreases |s|
  {
    if s != [] {
      SortIsStable(s[1..], n);
      InsertOnNumber(s[0], SortByNumber(s[1..]), n);
    }
  }

  // ---------------------------------------------------------------------------
  // The initial choice

  /** `floors.find(f => f.id === id)`. */
  function FindFloor(floors: seq<Floor>, id: int): (r: Option<Floor>)
    ensures r.None? <==> forall k :: 0 <= k < |floors| ==> floors[k].id != id
    ensures r.Some? ==> exists k :: 0 <= k < |floors| && floors[k] == r.value && r.value.id == id
                                    && forall j :: 0 <= j < k ==> floors[j].id != id
    decreases |floors|
  {
    if floors == [] then None
    else if floors[0].id == id then Some(floors[0])
    else
      var r := FindFloor(floors[1..], id);
      assert forall k :: 1 <= k < |floors| ==> floors[k] == floors[1..][k - 1];
      if r.Some? then
        var k :| 0 <= k < |floors[1..]| && floors[1..][k] == r.value && r.value.id == id
                 && forall j :: 0 <= j < k ==> floors[1..][j].id != id;
        assert floors[k + 1] == r.value;
        r
      else r
  }

  /** The floor `loadFloors` selects among the ordered floors: the preselected
      one when its id is truthy (not absent, not 0) and listed, otherwise the
      first floor; nothing when there are no floors. */
  function InitialFloor(floors: seq<Floor>, preselectedFloorId: Option<int>): (r: Option<Floor>)
    ensures r.None? <==> floors == []
    ensures preselectedFloorId.Some? && preselectedFloorId.value != 0
            && FindFloor(floors, preselectedFloorId.value).Some? ==>
              r == FindFloor(floors, preselectedFloorId.value)
    ensures (preselectedFloorId.None? || preselectedFloorId.value == 0
             || FindFloor(floors, preselectedFloorId.value).None?) && floors != [] ==>
              r == Some(floors[0])
  {
    if preselectedFloorId.Some? && preselectedFloorId.value != 0
       && FindFloor(floors, preselectedFloorId.value).Some?
    then FindFloor(floors, preselectedFloorId.value)
    else if |floors| > 0 then Some(floors[0])
    else None
  }

  /** A preselected floor that is listed is the one chosen, whatever its position. */
  lemma PreselectedIsChosen(floors: seq<Floor>, id: int, k: nat)
    requires id != 0 && k < |floors| && floors[k].id == id
    ensures InitialFloor(floors, Some(id)).Some? && InitialFloor(floors, Some(id)).value.id == id
  {
  }

  // ---------------------------------------------------------------------------
  // The component

  class FloorSelectorComponent {
    const preselectedFloorId: Option<int>
    var floors: seq<Floor>
    var selectedFloor: Option<Floor>
    var loading: bool
    /** Every floor emitted through `floorSelected`, oldest first. */
    var emitted: seq<Floor>

    constructor (preselectedFloorId: Option<int>)
      ensures this.preselectedFloorId == preselectedFloorId
      ensures floors == [] && selectedFloor.None? && !loading && emitted == []
    {
      this.preselectedFloorId := preselectedFloorId;
      floors, selectedFloor, loading, emitted := [], None, false, [];
    }

    /** `loadFloors`, up to the request. */
    method LoadFloors()
      modifies this`loading
      ensures loading
    {
      loading := true;
    }

    /** `selectFloor`: records the floor and emits it. */
    method SelectFloor(floor: Floor)
      modifies this`selectedFloor, this`emitted
      ensures selectedFloor == Some(floor)
      ensures emitted == old(emitted) + [floor]
      ensures forall f :: IsSelected(f) <==> f.id == floor.id
    {
      selectedFloor := Some(floor);
      emitted := emitted + [floor];
    }

    /** The success branch of `loadFloors`: orders the floors and selects the
        initial one, emitting it; with no floors nothing is selected or emitted. */
    method OnFloorsLoaded(fetched: seq<Floor>)
      modifies this`floors, this`loading, this`selectedFloor, this`emitted
      ensures floors == SortByNumber(fetched) && !loading
      ensures var choice := InitialFloor(floors, preselectedFloorId);
              && (choice.None? ==> selectedFloor == old(selectedFloor) && emitted == old(emitted))
              && (choice.Some? ==> selectedFloor == choice && emitted == old(emitted) + [choice.value])
    {
      floors := SortByNumber(fetched);
      loading := false;
      var choice := InitialFloor(floors, preselectedFloorId);
      if choice.Some? {
        SelectFloor(choice.value);
      }
    }

    /** The error branch of `loadFloors`: only the loading flag changes. */
    method OnFloorsFailed()
      modifies this`loading
      ensures !loading
    {
      loading := false;
    }

    /** `isSelected`: the selected floor has the same id. */
    predicate IsSelected(floor: Floor)
      reads this
    {
      selectedFloor.Some? && selectedFloor.value.id == floor.id
    }
  }

  /** After a load, a listed preselected floor is the selected one, and
      otherwise the lowest-numbered floor is. */
  lemma LoadedSelection(fetched: seq<Floor>, preselectedFloorId: Option<int>)
    requires fetched != []
    ensures var floors := SortByNumber(fetched);
            var choice := InitialFloor(floors, preselectedFloorId);
            && choice.Some?
            && (choice.value.id == if preselectedFloorId.Some? && preselectedFloorId.value != 0
                                      && FindFloor(floors, preselectedFloorId.value).Some?
                                   then preselectedFloorId.value else floors[0].id)
            && (forall f :: f in fetched && choice.value == floors[0] ==> choice.value.floorNumber <= f.floorNumber)
  {
    var floors := SortByNumber(fetched);
    assert multiset(floors) == multiset(fetched);
    assert |floors| == |fetched| by {
      assert |multiset(floors)| == |multiset(fetched)|;
    }
    forall f | f in fetched
      ensures floors[0].floorNumber <= f.floorNumber
    {
      assert f in multiset(fetched);
      assert f in multiset(floors);
      var k :| 0 <= k < |floors| && floors[k] == f;
    }
  }
}
