/** The tank records and the level read-out of the tank renderer. */
module Tanks {

  /** A tank: display name, fill level as a fraction of its capacity
      (levels are exact reals here), and its dimensions in metres. */
  datatype Tank = Tank(name: string, level: real, height: real, width: real, depth: real)

  /** The three tanks the dashboard is configured with. */
  function SampleTanks(): (r: seq<Tank>)
    ensures |r| == 3
    ensures forall i :: 0 <= i < |r| ==> 0.0 <= r[i].level <= 1.0
  {
    [ Tank("Main Tank", 1.0, 2.5, 1.2, 1.2),
      Tank("Linked Tank", 0.22, 2.0, 1.0, 1.0),
      Tank("Linked Tank 2", 0.56, 2.2, 1.1, 1.3) ]
  }

  /** Python's `int()` on a number: truncation toward zero. */
  function Truncate(x: real): (r: int)
    ensures 0.0 <= x ==> 0 <= r && r as real <= x < r as real + 1.0
    ensures x < 0.0 ==> r <= 0 && r as real - 1.0 < x <= r as real
  {
    if x >= 0.0 then x.Floor else -((-x).Floor)
  }

  /** The whole-number percentage drawn on a tank. */
  function Percent(level: real): (p: int)
    ensures 0.0 <= level <= 1.0 ==> 0 <= p <= 100
    ensures 0.0 <= level ==> p as real <= level * 100.0 < p as real + 1.0
  {
    Truncate(level * 100.0)
  }

  /** The three colours of the water column, from low to high fill. */
  datatype Band = Low | Medium | High

  /** The band is chosen on the truncated percentage: below 30, below 60, or
      the rest. */
  function BandOf(percent: int): (b: Band)
    ensures b == Low <==> percent < 30
    ensures b == Medium <==> 30 <= percent < 60
    ensures b == High <==> 60 <= percent
  {
    if percent < 30 then Low else if percent < 60 then Medium else High
  }

  /** Each band has its own colour. */
  function Colour(band: Band): (c: string)
    ensures c == "#52b2bf" <==> band == Low
    ensures c == "#3944bc" <==> band == Medium
    ensures c == "#151e3d" <==> band == High
  {
    match band
    case Low => "#52b2bf"
    case Medium => "#3944bc"
    case High => "#151e3d"
  }

  /** The colour of a tank's water column, stated on the level itself: the
      truncation to a whole percentage never moves a level across a band
      boundary, since the boundaries are whole percentages. */
  function TankColour(level: real): (c: string)
    ensures c == "#52b2bf" <==> level < 0.3
    ensures c == "#3944bc" <==> 0.3 <= level < 0.6
    ensures c == "#151e3d" <==> 0.6 <= level
  {
    BandByLevel(level);
    Colour(BandOf(Percent(level)))
  }

  lemma BandByLevel(level: real)
    ensures BandOf(Percent(level)) == Low <==> level < 0.3
    ensures BandOf(Percent(level)) == Medium <==> 0.3 <= level < 0.6
    ensures BandOf(Percent(level)) == High <==> 0.6 <= level
  {
    var p := Percent(level);
    if level < 0.0 {
      assert p <= 0;
    } else {
      assert p as real <= level * 100.0 < p as real + 1.0;
      assert p < 30 <==> level * 100.0 < 30.0;
      assert p < 60 <==> level * 100.0 < 60.0;
    }
  }

  /** The configured tanks read 100%, 22% and 56%. */
  lemma SampleReadings()
    ensures Percent(SampleTanks()[0].level) == 100
    ensures Percent(SampleTanks()[1].level) == 22
    ensures Percent(SampleTanks()[2].level) == 56
    ensures TankColour(SampleTanks()[1].level) == "#52b2bf"
    ensures TankColour(SampleTanks()[2].level) == "#3944bc"
  {
  }
}
