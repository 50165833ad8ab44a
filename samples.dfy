/** Telemetry samples: the nine channels `Navigator.__get_stats` fills in
    from one NavData frame, and the unit conversions it applies on the way. */
module Samples {
  import opened Vectors

  /** The channels, in the order of the navigator's `stat_names`:
      vel, acc, gyr, gps, alt, mag, deg, pry, mfu. */
  const NUM_CHANNELS: nat := 9
  const VEL: nat := 0
  const ACC: nat := 1
  const GYR: nat := 2
  const GPS: nat := 3
  const ALT: nat := 4
  const MAG: nat := 5
  const DEG: nat := 6
  const PRY: nat := 7
  const MFU: nat := 8

  /** One sample: a vector per channel, indexed by the constants above.
      The scalar channels alt and deg are vectors of one component. */
  type Sample = seq<Vec>

  /** The parts of the drone's NavData record that one sample is made of. */
  datatype Frame = Frame(
    rawAcc: Vec,       // raw_measures[0]
    rawGyr: Vec,       // raw_measures[1]
    gps: Vec,          // gps: latitude, longitude, ..., altitude last
    attitude: Vec,     // demo[2]: pitch, roll, yaw
    magFusion: Vec,    // magneto[6]
    velocity: Vec,     // demo[4]
    altitudeMm: real,  // altitude[0], in millimetres
    magRaw: Vec)       // magneto[0]: x, y, z

  /** The number of components of each channel.  The magnetometer keeps x
      and y, and the two scalar channels have one component. */
  ghost predicate ShapeOk(shape: seq<nat>)
  {
    |shape| == NUM_CHANNELS && shape[ALT] == 1 && shape[MAG] == 2 && shape[DEG] == 1
  }

  ghost predicate Conforms(s: Sample, shape: seq<nat>)
    requires |shape| == NUM_CHANNELS
  {
    |s| == NUM_CHANNELS && forall c :: 0 <= c < NUM_CHANNELS ==> |s[c]| == shape[c]
  }

  /** Python's `v[:-1]`: everything but the last element (nothing of an
      empty list). */
  function DropLast(v: Vec): (r: Vec)
    ensures |v| > 0 ==> |r| == |v| - 1 && v == r + [v[|v| - 1]]
    ensures |v| == 0 ==> r == []
  {
    if |v| == 0 then [] else v[..|v| - 1]
  }

  /** A frame whose vectors have the lengths of `shape` once converted.
      The raw magnetometer has exactly x, y and z: its first two components
      are paired with the two bias values and read by the heading. */
  ghost predicate FrameFits(f: Frame, shape: seq<nat>)
    requires ShapeOk(shape)
  {
    && |f.velocity| == shape[VEL]
    && |f.rawAcc| == shape[ACC]
    && |f.rawGyr| == shape[GYR]
    && |DropLast(f.gps)| == shape[GPS]
    && |f.magRaw| == 3
    && |f.attitude| == shape[PRY]
    && |f.magFusion| == shape[MFU]
  }

  /** Python's float `x % 360`: the remainder carries the sign of the
      modulus, so it lies in [0, 360), and x differs from it by a whole
      number of turns. */
  function Mod360(x: real): (r: real)
    ensures 0.0 <= r < 360.0
    ensures ((x - r) / 360.0).Floor as real == (x - r) / 360.0
  {
    x - 360.0 * ((x / 360.0).Floor as real)
  }

  /** The compass heading in degrees of the bias-corrected magnetometer
      axes, `(360 + (-1 * (atan2(my, mx) * 180) / pi)) % 360`.
      `atan2Deg(y, x)` stands for `atan2(y, x) * 180 / pi`. */
  function Heading(mx: real, my: real, atan2Deg: (real, real) -> real): (deg: real)
    ensures 0.0 <= deg < 360.0
  {
    Mod360(360.0 + -atan2Deg(my, mx))
  }

  /** For an angle in atan2's range the heading is the same angle measured
      clockwise: its negation, or 360 minus it when it is positive. */
  lemma HeadingClockwise(mx: real, my: real, atan2Deg: (real, real) -> real)
    requires -180.0 <= atan2Deg(my, mx) <= 180.0
    ensures atan2Deg(my, mx) <= 0.0 ==> Heading(mx, my, atan2Deg) == -atan2Deg(my, mx)
    ensures atan2Deg(my, mx) > 0.0 ==> Heading(mx, my, atan2Deg) == 360.0 - atan2Deg(my, mx)
  {
    var a := atan2Deg(my, mx);
    var x := 360.0 - a;
    if a <= 0.0 {
      assert 1.0 <= x / 360.0 < 2.0;
      assert (x / 360.0).Floor == 1;
    } else {
      assert 0.0 <= x / 360.0 < 1.0;
      assert (x / 360.0).Floor == 0;
    }
  }

  /** What `__get_stats` returns for frame `f` when the magnetometer bias
      is `bias`: the GPS without its altitude, the altitude converted from
      millimetres to metres, the magnetometer x and y less the bias, the
      heading of those corrected axes, and the other channels as read. */
  ghost predicate StatsOf(f: Frame, bias: seq<real>, atan2Deg: (real, real) -> real, s: Sample)
    requires |bias| == 2
  {
    && |s| == NUM_CHANNELS
    && s[VEL] == f.velocity
    && s[ACC] == f.rawAcc
    && s[GYR] == f.rawGyr
    && s[GPS] == DropLast(f.gps)
    && s[ALT] == [f.altitudeMm / 1000.0]
    && |f.magRaw| == 3 && |s[MAG]| == 2
    && s[MAG][0] == f.magRaw[0] - bias[0]
    && s[MAG][1] == f.magRaw[1] - bias[1]
    && s[DEG] == [Heading(s[MAG][0], s[MAG][1], atan2Deg)]
    && s[PRY] == f.attitude
    && s[MFU] == f.magFusion
  }

  /** `ss` are what `__get_stats` returns, in order, for the last `|ss|`
      frames of `fs`. */
  ghost predicate ConvertedTail(ss: seq<Sample>, fs: seq<Frame>, bias: seq<real>, atan2Deg: (real, real) -> real)
    requires |bias| == 2
  {
    && |ss| <= |fs|
    && forall j :: 0 <= j < |ss| ==> ConvertedAt(ss, fs, bias, atan2Deg, j)
  }

  /** Sample `j` of `ss` is the conversion of its frame in the tail. */
  ghost predicate ConvertedAt(ss: seq<Sample>, fs: seq<Frame>, bias: seq<real>, atan2Deg: (real, real) -> real, j: nat)
    requires |bias| == 2 && j < |ss| <= |fs|
  {
    StatsOf(fs[|fs| - |ss| + j], bias, atan2Deg, ss[j])
  }

  /** Converting one more frame and keeping every sample extends the tail. */
  lemma ConvertedTailGrow(ss: seq<Sample>, fs: seq<Frame>, bias: seq<real>, atan2Deg: (real, real) -> real, f: Frame, s: Sample)
    requires |bias| == 2 && ConvertedTail(ss, fs, bias, atan2Deg) && StatsOf(f, bias, atan2Deg, s)
    ensures ConvertedTail(ss + [s], fs + [f], bias, atan2Deg)
  {
    var ss', fs' := ss + [s], fs + [f];
    forall j | 0 <= j < |ss'|
      ensures ConvertedAt(ss', fs', bias, atan2Deg, j)
    {
      if j < |ss| {
        assert ConvertedAt(ss, fs, bias, atan2Deg, j);
        assert ss'[j] == ss[j] && fs'[|fs'| - |ss'| + j] == fs[|fs| - |ss| + j];
      }
    }
  }

  /** Converting one more frame while dropping the oldest sample keeps the
      tail, one frame further on. */
  lemma ConvertedTailSlide(ss: seq<Sample>, fs: seq<Frame>, bias: seq<real>, atan2Deg: (real, real) -> real, f: Frame, s: Sample)
    requires |bias| == 2 && |ss| > 0 && ConvertedTail(ss, fs, bias, atan2Deg) && StatsOf(f, bias, atan2Deg, s)
    ensures ConvertedTail(ss[1..] + [s], fs + [f], bias, atan2Deg)
  {
    var ss', fs' := ss[1..] + [s], fs + [f];
    forall j | 0 <= j < |ss'|
      ensures ConvertedAt(ss', fs', bias, atan2Deg, j)
    {
      if j < |ss| - 1 {
        assert ConvertedAt(ss, fs, bias, atan2Deg, j + 1);
        assert ss'[j] == ss[j + 1] && fs'[|fs'| - |ss'| + j] == fs[|fs| - |ss| + (j + 1)];
      }
    }
  }

  /** One turn of the sampler on a window of capacity `cap`: the tail of
      the first `k` frames becomes the tail of the first `k + 1`. */
  lemma ConvertedTailStep(ss: seq<Sample>, ss': seq<Sample>, fs: seq<Frame>, k: nat, cap: nat,
                          bias: seq<real>, atan2Deg: (real, real) -> real, s: Sample)
    requires |bias| == 2 && k < |fs| && 0 < cap && |ss| <= cap
    requires ConvertedTail(ss, fs[..k], bias, atan2Deg) && StatsOf(fs[k], bias, atan2Deg, s)
    requires |ss| < cap ==> ss' == ss + [s]
    requires |ss| == cap ==> ss' == ss[1..] + [s]
    ensures ConvertedTail(ss', fs[..k + 1], bias, atan2Deg)
  {
    assert fs[..k + 1] == fs[..k] + [fs[k]];
    if |ss| < cap {
      ConvertedTailGrow(ss, fs[..k], bias, atan2Deg, fs[k], s);
    } else {
      ConvertedTailSlide(ss, fs[..k], bias, atan2Deg, fs[k], s);
    }
  }
}
