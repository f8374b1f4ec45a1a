/** The campus overview page (src/pages/CampusOverview.jsx): the room list, its
    periodic refresh, and the number of rooms in each comfort band. */
module CampusOverview {
  import opened Common
  import opened MockData

  /** The refresh period in milliseconds. It is fixed: stored preferences are not read. */
  const RefreshPeriodMs := 10000

  /** The rooms of one comfort band, in list order. */
  function InBand(rooms: seq<Room>, band: Comfort): (r: seq<Room>)
    ensures forall room :: room in r <==> room in rooms && room.comfort == band
  {
    Filter(rooms, (room: Room) => room.comfort == band)
  }

  lemma {:induction false} InBandAppend(rooms: seq<Room>, room: Room, band: Comfort)
    ensures |InBand(rooms + [room], band)| == |InBand(rooms, band)| + if room.comfort == band then 1 else 0
  {
    FilterConcat(rooms, [room], (room: Room) => room.comfort == band);
    assert [room][1..] == [];
  }

  /** Every room is in exactly one band, so the three band sizes add up to the number of rooms. */
  lemma {:induction false} BandsPartition(rooms: seq<Room>)
    ensures |InBand(rooms, Comfortable)| + |InBand(rooms, Warm)| + |InBand(rooms, Hot)| == |rooms|
  {
    if rooms != [] {
      var init := rooms[..|rooms| - 1];
      var last := rooms[|rooms| - 1];
      assert rooms == init + [last];
      BandsPartition(init);
      InBandAppend(init, last, Comfortable);
      InBandAppend(init, last, Warm);
      InBandAppend(init, last, Hot);
    }
  }

  datatype ComfortCounts = ComfortCounts(comfortable: nat, warm: nat, hot: nat)

  /** The `counts` fold: every band starts at 0 and each room adds one to its own band. */
  method CountByComfort(rooms: seq<Room>) returns (counts: ComfortCounts)
    ensures counts.comfortable == |InBand(rooms, Comfortable)|
    ensures counts.warm == |InBand(rooms, Warm)|
    ensures counts.hot == |InBand(rooms, Hot)|
    ensures counts.comfortable + counts.warm + counts.hot == |rooms|
  {
    counts := ComfortCounts(0, 0, 0);
    for i := 0 to |rooms|
      invariant counts.comfortable == |InBand(rooms[..i], Comfortable)|
      invariant counts.warm == |InBand(rooms[..i], Warm)|
      invariant counts.hot == |InBand(rooms[..i], Hot)|
    {
      assert rooms[..i + 1] == rooms[..i] + [rooms[i]];
      InBandAppend(rooms[..i], rooms[i], Comfortable);
      InBandAppend(rooms[..i], rooms[i], Warm);
      InBandAppend(rooms[..i], rooms[i], Hot);
      match rooms[i].comfort
      case Comfortable => counts := counts.(comfortable := counts.comfortable + 1);
      case Warm => counts := counts.(warm := counts.warm + 1);
      case Hot => counts := counts.(hot := counts.hot + 1);
    }
    assert rooms[..|rooms|] == rooms;
    BandsPartition(rooms);
  }

  /** The overview's state: the room list, the time of the last refresh, and
      whether the refresh interval is registered. */
  class Overview {
    var classrooms: seq<Room>
    var lastUpdated: int
    var intervalActive: bool

    /** Every shown room carries the band of its own temperature, and the list
        is either not loaded yet or has one entry per base room. */
    ghost predicate Valid()
      reads this
    {
      && (classrooms == [] || |classrooms| == |BaseClassrooms|)
      && forall i :: 0 <= i < |classrooms| ==> Consistent(classrooms[i])
    }

    /** Before the first effect runs: an empty list, stamped with the creation time. */
    constructor (now: int)
      ensures Valid()
      ensures classrooms == [] && lastUpdated == now && !intervalActive
    {
      classrooms := [];
      lastUpdated := now;
      intervalActive := false;
    }

    /** The two mount effects: the initial load and the registration of the interval. */
    method Mount()
      requires Valid()
      modifies this
      ensures Valid()
      ensures classrooms == FetchClassrooms() && intervalActive
      ensures lastUpdated == old(lastUpdated)
    {
      classrooms := FetchClassrooms();
      intervalActive := true;
    }

    /** One firing of the interval: the whole list is replaced by a fresh live
        snapshot (not derived from the current list) and the time recorded.
        Once the interval is cleared, a tick changes nothing. */
    method Tick(draws: seq<Draw>, now: int)
      requires Valid()
      requires |draws| == |BaseClassrooms|
      modifies this
      ensures Valid()
      ensures intervalActive == old(intervalActive)
      ensures old(intervalActive) ==> classrooms == GenerateLiveData(draws) && lastUpdated == now
      ensures !old(intervalActive) ==> classrooms == old(classrooms) && lastUpdated == old(lastUpdated)
    {
      if intervalActive {
        classrooms := GenerateLiveData(draws);
        lastUpdated := now;
      }
    }

    /** The effect cleanup on unmount: the interval is cleared. */
    method Unmount()
      requires Valid()
      modifies this
      ensures Valid()
      ensures !intervalActive
      ensures classrooms == old(classrooms) && lastUpdated == old(lastUpdated)
    {
      intervalActive := false;
    }

    /** The summary cards' numbers for the current list. */
    method Counts() returns (counts: ComfortCounts)
      requires Valid()
      ensures counts.comfortable == |InBand(classrooms, Comfortable)|
      ensures counts.warm == |InBand(classrooms, Warm)|
      ensures counts.hot == |InBand(classrooms, Hot)|
      ensures counts.comfortable + counts.warm + counts.hot == |classrooms|
    {
      counts := CountByComfort(classrooms);
    }
  }

  /** After unmounting, however many ticks arrive, the list stays as it was. */
  method NoTickAfterUnmount(draws: seq<Draw>, now: int)
    requires |draws| == |BaseClassrooms|
  {
    var page := new Overview(0);
    page.Mount();
    page.Tick(draws, now);
    var shown := page.classrooms;
    page.Unmount();
    page.Tick(draws, now + RefreshPeriodMs);
    assert page.classrooms == shown && page.lastUpdated == now;
  }
}
