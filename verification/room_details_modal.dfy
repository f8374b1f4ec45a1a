/** The room details dialog: a synthetic 24-hour history generated when the
    room changes, the time-range slice of it that is shown, and the comfort badge. */
module RoomDetailsModal {
  import opened Common
  import opened MockData

  /** Points per history: one per hour. */
  const HistoryLength := 24

  const HourMs := 60 * 60 * 1000

  /** The temperature change of one draw: `Math.random() * 4 - 2` lies in [-2, 2). */
  type TempOffset = d: real | -2.0 <= d < 2.0

  /** The two draws made for one history point. */
  datatype HistoryDraw = HistoryDraw(temperature: TempOffset, humidity: HumidityDelta)

  /** One history point: its time (milliseconds), temperature (°C) and humidity. */
  datatype HistoryPoint = HistoryPoint(time: int, temperature: real, humidity: int)

  /** The room temperature in degrees (it is kept in tenths). */
  function Degrees(t: Tenths): real {
    t as real / 10.0
  }

  /** The point pushed at loop index `i`: `i` hours before `now`. */
  function PointAt(room: Room, now: int, i: int, d: HistoryDraw): HistoryPoint {
    HistoryPoint(now - i * HourMs, Degrees(room.temperature) + d.temperature, ClampHumidity(room.humidity + d.humidity))
  }

  /** The points in the order the loop pushes them: newest first. */
  function NewestFirst(room: Room, now: int, draws: seq<HistoryDraw>): (r: seq<HistoryPoint>)
    requires |draws| == HistoryLength
    ensures |r| == HistoryLength
    ensures forall i :: 0 <= i < HistoryLength ==> r[i] == PointAt(room, now, i, draws[i])
  {
    seq(HistoryLength, i requires 0 <= i < HistoryLength => PointAt(room, now, i, draws[i]))
  }

  /** The sequence back to front. */
  function Reversed<T>(s: seq<T>): (r: seq<T>)
    ensures |r| == |s|
    ensures forall k :: 0 <= k < |s| ==> r[k] == s[|s| - 1 - k]
  {
    if s == [] then [] else Reversed(s[1..]) + [s[0]]
  }

  /** Reversing twice gives the sequence back. */
  lemma {:induction false} ReversedTwice<T>(s: seq<T>)
    ensures Reversed(Reversed(s)) == s
  {
  }

  /** `array.reverse()`: in place, by swapping the ends towards the middle. */
  method ReverseInPlace<T>(a: array<T>)
    modifies a
    ensures a[..] == Reversed(old(a[..]))
  {
    var i, j := 0, a.Length - 1;
    while i < j
      invariant 0 <= i && j == a.Length - 1 - i && i <= a.Length - i
      invariant forall k :: 0 <= k < i ==> a[k] == old(a[a.Length - 1 - k]) && a[a.Length - 1 - k] == old(a[k])
      invariant forall k :: i <= k < a.Length - i ==> a[k] == old(a[k])
    {
      a[i], a[j] := a[j], a[i];
      i, j := i + 1, j - 1;
    }
  }

  /** The history effect's loop: 24 points pushed newest first, then reversed,
      so the result runs oldest first and point `k` lies `23 - k` hours before
      `now`. Every temperature is within [-2, 2) of the room's and every
      humidity lies in [30, 90]. */
  method GenerateHistory(room: Room, now: int, draws: seq<HistoryDraw>) returns (history: seq<HistoryPoint>)
    requires |draws| == HistoryLength
    ensures history == Reversed(NewestFirst(room, now, draws))
    ensures Reversed(history) == NewestFirst(room, now, draws)
    ensures |history| == HistoryLength
    ensures forall k :: 0 <= k < HistoryLength ==>
      && history[k].time == now - (HistoryLength - 1 - k) * HourMs
      && Degrees(room.temperature) - 2.0 <= history[k].temperature < Degrees(room.temperature) + 2.0
      && 30 <= history[k].humidity <= 90
  {
    var points := new HistoryPoint[HistoryLength];
    for i := 0 to HistoryLength
      invariant points[..i] == NewestFirst(room, now, draws)[..i]
    {
      points[i] := PointAt(room, now, i, draws[i]);
    }
    assert points[..] == NewestFirst(room, now, draws);
    ReverseInPlace(points);
    history := points[..];
    ReversedTwice(NewestFirst(room, now, draws));
  }

  /** The first index the time range shows. */
  function RangeStart(timeRange: string): nat {
    if timeRange == "24h" then 0
    else if timeRange == "12h" then 12
    else if timeRange == "6h" then 18
    else 0
  }

  /** `historicalData.slice(start)`: a suffix of the history, empty when the
      start lies past its end. Over a full history, "12h" shows the last 12
      points, "6h" the last 6, and anything else all 24. */
  function FilteredData(history: seq<HistoryPoint>, timeRange: string): (r: seq<HistoryPoint>)
    ensures |r| <= |history| && r == history[|history| - |r|..]
    ensures |history| == HistoryLength ==>
      |r| == if timeRange == "12h" then 12 else if timeRange == "6h" then 6 else 24
  {
    if RangeStart(timeRange) <= |history| then history[RangeStart(timeRange)..] else []
  }

  /** The newest point is always shown, whatever the range. */
  lemma NewestAlwaysShown(history: seq<HistoryPoint>, timeRange: string)
    requires |history| == HistoryLength
    ensures FilteredData(history, timeRange) != []
    ensures FilteredData(history, timeRange)[|FilteredData(history, timeRange)| - 1] == history[HistoryLength - 1]
  {
  }

  /** The comfort badge: success, warning, and danger for anything else. */
  function BadgeVariant(c: Comfort): (v: string)
    ensures v == "success" <==> c == Comfortable
    ensures v == "warning" <==> c == Warm
    ensures v == "danger" <==> c == Hot
  {
    match c
    case Comfortable => "success"
    case Warm => "warning"
    case _ => "danger"
  }

  /** The dialog's state: the generated history and the selected time range. */
  class RoomDetails {
    var historicalData: seq<HistoryPoint>
    var timeRange: string

    constructor ()
      ensures historicalData == [] && timeRange == "24h"
    {
      historicalData := [];
      timeRange := "24h";
    }

    /** The effect run when the room changes: a present room gets a fresh
        history; no room leaves the old one. */
    method RoomChanged(room: Option<Room>, now: int, draws: seq<HistoryDraw>)
      requires |draws| == HistoryLength
      modifies this
      ensures room.Some? ==> historicalData == Reversed(NewestFirst(room.value, now, draws))
      ensures room.None? ==> historicalData == old(historicalData)
      ensures timeRange == old(timeRange)
    {
      if room.Some? {
        historicalData := GenerateHistory(room.value, now, draws);
      }
    }

    /** A range button. */
    method SetTimeRange(range: string)
      modifies this
      ensures timeRange == range && historicalData == old(historicalData)
    {
      timeRange := range;
    }

    /** What the dialog shows: nothing without a room, otherwise the slice of the
        history for the selected range. */
    function Shown(room: Option<Room>): (r: Option<seq<HistoryPoint>>)
      reads this
      ensures r.None? <==> room.None?
      ensures r.Some? ==> r.value == FilteredData(historicalData, timeRange)
    {
      if room.None? then None else Some(FilteredData(historicalData, timeRange))
    }
  }
}
