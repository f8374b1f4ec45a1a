/** The simulated classroom readings: a fixed base table, the three-band comfort
    classifier, the initial snapshot and the perturbed "live" snapshot.

    Temperatures are integer tenths of a degree Celsius (every base value has one
    decimal, and the live value is rounded to one decimal), so 23.5 °C is 235 and
    the classifier's boundaries 25 °C and 29 °C are 250 and 290. */
module MockData {

  /** A temperature in tenths of a degree Celsius. */
  type Tenths = int

  datatype Comfort = Comfortable | Warm | Hot

  /** A row of the base table: a room with its reference reading. */
  datatype BaseRoom = BaseRoom(id: int, name: string, temperature: Tenths, humidity: int)

  /** A room reading as the dashboard shows it, with its comfort band. */
  datatype Room = Room(id: int, name: string, temperature: Tenths, humidity: int, comfort: Comfort)

  const BaseClassrooms: seq<BaseRoom> := [
    BaseRoom(1, "Room 101", 235, 55),
    BaseRoom(2, "Room 102", 272, 62),
    BaseRoom(3, "Room 103", 318, 70),
    BaseRoom(4, "Room 104", 221, 48),
    BaseRoom(5, "Room 105", 265, 58),
    BaseRoom(6, "Room 106", 294, 65),
    BaseRoom(7, "Room 107", 240, 52),
    BaseRoom(8, "Room 108", 281, 60)
  ]

  /** The comfort band of a temperature. 25 °C and 29 °C belong to the lower band. */
  function ComfortLevel(t: Tenths): (c: Comfort)
    ensures c == Comfortable <==> t <= 250
    ensures c == Warm <==> 250 < t <= 290
    ensures c == Hot <==> 290 < t
  {
    if t <= 250 then Comfortable
    else if t <= 290 then Warm
    else Hot
  }

  /** The order of the bands, coolest first. */
  function Rank(c: Comfort): nat {
    match c
    case Comfortable => 0
    case Warm => 1
    case Hot => 2
  }

  /** A warmer room is never in a cooler band. */
  lemma ComfortLevelMonotone(t1: Tenths, t2: Tenths)
    requires t1 <= t2
    ensures Rank(ComfortLevel(t1)) <= Rank(ComfortLevel(t2))
  {
  }

  /** The boundary readings: 25.0 is comfortable, 25.1 warm, 29.0 warm, 29.1 hot. */
  lemma ComfortLevelBoundaries()
    ensures ComfortLevel(250) == Comfortable && ComfortLevel(251) == Warm
    ensures ComfortLevel(290) == Warm && ComfortLevel(291) == Hot
  {
  }

  /** A room is consistent when its band is the band of its own temperature. */
  predicate Consistent(r: Room) {
    r.comfort == ComfortLevel(r.temperature)
  }

  /** The base room with its comfort band added. */
  function Classify(b: BaseRoom): Room {
    Room(b.id, b.name, b.temperature, b.humidity, ComfortLevel(b.temperature))
  }

  /** The initial snapshot: one record per base room, in base order, with the
      reading unchanged and the comfort band computed from it. */
  function FetchClassrooms(): (rooms: seq<Room>)
    ensures |rooms| == |BaseClassrooms|
    ensures forall i :: 0 <= i < |rooms| ==>
      var b := BaseClassrooms[i];
      && rooms[i].id == b.id && rooms[i].name == b.name
      && rooms[i].temperature == b.temperature && rooms[i].humidity == b.humidity
      && Consistent(rooms[i])
  {
    seq(|BaseClassrooms|, i requires 0 <= i < |BaseClassrooms| => Classify(BaseClassrooms[i]))
  }

  /** Room 101 (23.5 °C) starts comfortable and Room 103 (31.8 °C) starts hot. */
  lemma FetchClassroomsExamples()
    ensures FetchClassrooms()[0].comfort == Comfortable
    ensures FetchClassrooms()[2].comfort == Hot
  {
  }

  // Live data

  /** The rounded temperature change of one draw: `Math.random() * 3 - 1.5` lies in
      [-1.5, 1.5), which rounds to a whole number of tenths in [-15, 15]. */
  type TempDelta = d: int | -15 <= d <= 15

  /** The humidity change of one draw: `Math.floor(Math.random() * 11 - 5)` lies in [-5, 5]. */
  type HumidityDelta = d: int | -5 <= d <= 5

  /** The two random draws made for one room. */
  datatype Draw = Draw(temperature: TempDelta, humidity: HumidityDelta)

  function Abs(x: int): nat {
    if x < 0 then -x else x
  }

  /** Humidity limited to [30, 90]: a value in range is kept, a value below is
      raised to the lower bound and a value above is lowered to the upper bound. */
  function ClampHumidity(h: int): (r: int)
    ensures 30 <= r <= 90
    ensures 30 <= h <= 90 ==> r == h
    ensures h < r ==> r == 30
    ensures r < h ==> r == 90
  {
    if h < 30 then 30 else if h > 90 then 90 else h
  }

  /** Clamping never moves a value further from a point inside the range. */
  lemma ClampHumidityCloser(h: int, base: int)
    requires 30 <= base <= 90
    ensures Abs(ClampHumidity(h) - base) <= Abs(h - base)
  {
  }

  /** One base room perturbed by one draw. */
  function Perturb(b: BaseRoom, d: Draw): Room {
    var t := b.temperature + d.temperature;
    Room(b.id, b.name, t, ClampHumidity(b.humidity + d.humidity), ComfortLevel(t))
  }

  lemma BaseHumidityInRange()
    ensures forall i :: 0 <= i < |BaseClassrooms| ==> 30 <= BaseClassrooms[i].humidity <= 90
  {
  }

  /** A live snapshot, given one draw per base room. Every call starts again from
      the unchanged base table: the result depends on the draws alone. */
  function GenerateLiveData(draws: seq<Draw>): (rooms: seq<Room>)
    requires |draws| == |BaseClassrooms|
    ensures |rooms| == |BaseClassrooms|
    ensures forall i :: 0 <= i < |rooms| ==>
      var b := BaseClassrooms[i];
      && rooms[i].id == b.id && rooms[i].name == b.name
      && -15 <= rooms[i].temperature - b.temperature <= 15
      && 30 <= rooms[i].humidity <= 90
      && -5 <= rooms[i].humidity - b.humidity <= 5
      && Consistent(rooms[i])
  {
    var rooms := seq(|BaseClassrooms|, i requires 0 <= i < |BaseClassrooms| => Perturb(BaseClassrooms[i], draws[i]));
    assert forall i :: 0 <= i < |rooms| ==> -5 <= rooms[i].humidity - BaseClassrooms[i].humidity <= 5 by {
      BaseHumidityInRange();
      forall i | 0 <= i < |rooms|
        ensures -5 <= rooms[i].humidity - BaseClassrooms[i].humidity <= 5
      {
        var b := BaseClassrooms[i];
        ClampHumidityCloser(b.humidity + draws[i].humidity, b.humidity);
      }
    }
    rooms
  }

  /** The live temperature is the base temperature moved by exactly the drawn
      delta, and the live humidity is the clamped sum: nothing else enters. */
  lemma GenerateLiveDataExact(draws: seq<Draw>, i: nat)
    requires |draws| == |BaseClassrooms| && i < |BaseClassrooms|
    ensures GenerateLiveData(draws)[i].temperature == BaseClassrooms[i].temperature + draws[i].temperature
    ensures GenerateLiveData(draws)[i].humidity == ClampHumidity(BaseClassrooms[i].humidity + draws[i].humidity)
  {
  }
}
