/** The `Navigator` class: the sample window the background sampler fills,
    the per-channel statistics `__set_stats` recomputes from it, and the
    steering command `get_move` derives from them.  The trigonometry and the
    drone's own helpers are passed in as functions: `sqrt` for numpy's
    square root, `atan2Deg` for atan2 in degrees, `heading` and `distance`
    for `__calc_heading` and `__calc_distance`, and `angleDiff` for the
    drone's signed angle difference. */
module Navigation {
  import opened Floats
  import opened Vectors
  import opened Outliers
  import opened Selection
  import opened Steering
  import opened Window
  import opened Samples
  import opened Aggregation

  const SAMP_NUM: nat := 150

  /** What `get_move` returns: the command and the distance to the target,
      or nothing when the window holds no sample yet (the source's average
      of an empty list raises). */
  datatype MoveResult = NotReady | Ready(command: Command, distance: real)

  /** The nested loops at the start of `__set_stats`: one list per
      channel, holding that channel's values in window order. */
  method BuildChannelLists(w: seq<Sample>) returns (lists: seq<seq<Vec>>)
    requires forall i :: 0 <= i < |w| ==> |w[i]| == NUM_CHANNELS
    ensures |lists| == NUM_CHANNELS
    ensures forall c :: 0 <= c < NUM_CHANNELS ==> lists[c] == Column(w, c)
  {
    lists := seq(NUM_CHANNELS, _ => []);
    var k := 0;
    while k < |w|
      invariant 0 <= k <= |w| && |lists| == NUM_CHANNELS
      invariant forall c :: 0 <= c < NUM_CHANNELS ==> lists[c] == Column(w[..k], c)
    {
      var i := 0;
      while i < NUM_CHANNELS
        invariant 0 <= i <= NUM_CHANNELS && |lists| == NUM_CHANNELS
        invariant forall c :: 0 <= c < i ==> lists[c] == Column(w[..k + 1], c)
        invariant forall c :: i <= c < NUM_CHANNELS ==> lists[c] == Column(w[..k], c)
      {
        ColumnSnoc(w, k, i);
        lists := lists[i := lists[i] + [w[k][i]]];
        i := i + 1;
      }
      k := k + 1;
    }
    assert w[..|w|] == w;
  }

  /** The loop over `stat_lists` that collects, for every channel, the
      samples `__is_outlier` flags, `itertools.compress(stat, mask)`. */
  method FlagChannels(lists: seq<seq<Vec>>, shape: seq<nat>, sqrt: real -> real) returns (out: seq<seq<Vec>>)
    requires |lists| == NUM_CHANNELS && |shape| == NUM_CHANNELS
    requires forall c :: 0 <= c < NUM_CHANNELS ==> AllDim(lists[c], shape[c])
    ensures |out| == NUM_CHANNELS
    ensures forall c {:trigger Compress(lists[c], IsOutlier(lists[c], shape[c], sqrt))} :: 0 <= c < NUM_CHANNELS ==> out[c] == Compress(lists[c], IsOutlier(lists[c], shape[c], sqrt))
  {
    out := [];
    var i := 0;
    while i < NUM_CHANNELS
      invariant 0 <= i <= NUM_CHANNELS && |out| == i
      invariant forall c {:trigger Compress(lists[c], IsOutlier(lists[c], shape[c], sqrt))} :: 0 <= c < i ==> out[c] == Compress(lists[c], IsOutlier(lists[c], shape[c], sqrt))
    {
      out := out + [Compress(lists[i], IsOutlier(lists[i], shape[i], sqrt))];
      i := i + 1;
    }
  }

  /** The loop `if out[i]: stat_lists[i] = out[i]`: a channel's flagged
      samples replace its list when there are any. */
  method UseFlagged(lists: seq<seq<Vec>>, out: seq<seq<Vec>>) returns (chosen: seq<seq<Vec>>)
    requires |lists| == NUM_CHANNELS && |out| == NUM_CHANNELS
    ensures |chosen| == NUM_CHANNELS
    ensures forall c :: 0 <= c < NUM_CHANNELS ==> chosen[c] == (if out[c] != [] then out[c] else lists[c])
  {
    chosen := lists;
    var i := 0;
    while i < NUM_CHANNELS
      invariant 0 <= i <= NUM_CHANNELS && |chosen| == NUM_CHANNELS
      invariant forall c :: 0 <= c < i ==> chosen[c] == (if out[c] != [] then out[c] else lists[c])
      invariant forall c :: i <= c < NUM_CHANNELS ==> chosen[c] == lists[c]
    {
      if out[i] != [] {
        chosen := chosen[i := out[i]];
      }
      i := i + 1;
    }
  }

  /** The three steps of `__set_stats` before the averaging: build the
      channel lists, compress each with its outlier mask, and keep the
      flagged samples where there are any. */
  method ChooseChannels(w: seq<Sample>, shape: seq<nat>, sqrt: real -> real) returns (chosen: seq<seq<Vec>>)
    requires |w| > 0 && |shape| == NUM_CHANNELS && WindowFits(w, shape)
    ensures |chosen| == NUM_CHANNELS
    ensures forall c {:trigger ChannelChoice(w, c, shape[c], sqrt)} :: 0 <= c < NUM_CHANNELS ==>
              chosen[c] == ChannelChoice(w, c, shape[c], sqrt)
    ensures forall c :: 0 <= c < NUM_CHANNELS ==> |chosen[c]| > 0 && AllDim(chosen[c], shape[c])
  {
    ChannelsFit(w, shape);
    var lists := BuildChannelLists(w);
    var out := FlagChannels(lists, shape, sqrt);
    chosen := UseFlagged(lists, out);
    forall c | 0 <= c < NUM_CHANNELS
      ensures |chosen[c]| > 0 && AllDim(chosen[c], shape[c])
    {
      assert chosen[c] == ChannelChoice(w, c, shape[c], sqrt);
    }
  }

  /** The averaging loop of `__set_stats`: the sum of every chosen list
      divided by its length. */
  method AverageChannels(chosen: seq<seq<Vec>>, shape: seq<nat>) returns (means: seq<Vec>)
    requires |chosen| == NUM_CHANNELS && |shape| == NUM_CHANNELS
    requires forall c :: 0 <= c < NUM_CHANNELS ==> |chosen[c]| > 0 && AllDim(chosen[c], shape[c])
    ensures |means| == NUM_CHANNELS
    ensures forall c {:trigger Mean(chosen[c], shape[c])} :: 0 <= c < NUM_CHANNELS ==> means[c] == Mean(chosen[c], shape[c])
    ensures forall c :: 0 <= c < NUM_CHANNELS ==> |means[c]| == shape[c]
  {
    means := [];
    var i := 0;
    while i < NUM_CHANNELS
      invariant 0 <= i <= NUM_CHANNELS && |means| == i
      invariant forall c {:trigger Mean(chosen[c], shape[c])} :: 0 <= c < i ==> means[c] == Mean(chosen[c], shape[c])
      invariant forall c :: 0 <= c < i ==> |means[c]| == shape[c]
    {
      means := means + [Mean(chosen[i], shape[i])];
      i := i + 1;
    }
  }

  /** The per-channel aggregates `__set_stats` computes for a non-empty
      window, in channel order. */
  method AggregateChannels(w: seq<Sample>, shape: seq<nat>, sqrt: real -> real) returns (means: seq<Vec>)
    requires ShapeOk(shape) && |w| > 0 && WindowFits(w, shape)
    ensures |means| == NUM_CHANNELS
    ensures forall c :: 0 <= c < NUM_CHANNELS ==> |means[c]| == shape[c]
    ensures (ChannelsFit(w, shape);
             forall c {:trigger AggregateChannel(w, c, shape[c], sqrt)} :: 0 <= c < NUM_CHANNELS ==>
               means[c] == AggregateChannel(w, c, shape[c], sqrt))
  {
    var chosen := ChooseChannels(w, shape, sqrt);
    means := AverageChannels(chosen, shape);
    ChannelsFit(w, shape);
    forall c | 0 <= c < NUM_CHANNELS
      ensures means[c] == AggregateChannel(w, c, shape[c], sqrt)
    {
      assert means[c] == Mean(chosen[c], shape[c]);
    }
  }

  /** The statistics `__set_stats` writes for a non-empty window, keyed by
      channel. */
  method AggregateWindow(w: seq<Sample>, shape: seq<nat>, sqrt: real -> real) returns (averaged: map<nat, Vec>)
    requires ShapeOk(shape) && |w| > 0 && WindowFits(w, shape)
    ensures Aggregates(averaged, w, shape, sqrt)
    ensures forall c: nat :: c in averaged ==> |averaged[c]| == shape[c]
  {
    var means := AggregateChannels(w, shape, sqrt);
    averaged := map c: nat | c < NUM_CHANNELS :: means[c];
    KeyedAggregates(averaged, means, w, shape, sqrt);
  }

  /** The aggregates in channel order, keyed by channel. */
  lemma KeyedAggregates(m: map<nat, Vec>, means: seq<Vec>, w: seq<Sample>, shape: seq<nat>, sqrt: real -> real)
    requires ShapeOk(shape) && |w| > 0 && WindowFits(w, shape) && |means| == NUM_CHANNELS
    requires forall c: nat :: c in m <==> c < NUM_CHANNELS
    requires forall c :: 0 <= c < NUM_CHANNELS ==> m[c] == means[c]
    requires (ChannelsFit(w, shape);
              forall c {:trigger AggregateChannel(w, c, shape[c], sqrt)} :: 0 <= c < NUM_CHANNELS ==>
                means[c] == AggregateChannel(w, c, shape[c], sqrt))
    ensures Aggregates(m, w, shape, sqrt)
  {
    ChannelsFit(w, shape);
    forall c | 0 <= c < NUM_CHANNELS
      ensures m[c] == AggregateChannel(w, c, shape[c], sqrt)
    {
      assert means[c] == AggregateChannel(w, c, shape[c], sqrt);
      assert m[c] == means[c];
    }
  }

  /** Writing every key of `m` again leaves only the new values. */
  lemma OverwriteAll<K, V>(m: map<K, V>, updates: map<K, V>)
    requires m.Keys <= updates.Keys
    ensures m + updates == updates
  {
  }

  class Navigator {
    const shape: seq<nat>
    const window: SampleWindow<Sample>
    var magBias: seq<real>
    var tarGps: Vec
    var tarDist: real
    var tarAngle: real
    var stats: map<nat, Vec>
    var home: Vec

    ghost predicate Valid()
      reads this`magBias, this`stats, window, window.data
    {
      && ShapeOk(shape)
      && window.Valid()
      && window.capacity == SAMP_NUM
      && WindowFits(window.Contents, shape)
      && |magBias| == 2
      && (forall c: nat :: c in stats ==> c < NUM_CHANNELS && |stats[c]| == shape[c])
    }

    /** `self.__stats` holds, for every channel, the aggregate of the
        current window. */
    ghost predicate StatsCurrent(sqrt: real -> real)
      reads this`magBias, this`stats, window, window.data
      requires Valid()
    {
      && |window.Contents| > 0
      && Aggregates(stats, window.Contents, shape, sqrt)
    }

    /** The constructor starts the sampler, lets it run while the window
        fills, then computes the statistics and records the GPS position as
        home.  The frames the sampler reads in that time are `burst`. */
    constructor (shape: seq<nat>, burst: seq<Frame>, atan2Deg: (real, real) -> real, sqrt: real -> real)
      requires ShapeOk(shape) && |burst| > 0
      requires forall i :: 0 <= i < |burst| ==> FrameFits(burst[i], shape)
      ensures Valid() && fresh(window) && fresh(window.data)
      ensures this.shape == shape
      ensures magBias == [-14.0, 13.0] && tarGps == [0.0, 0.0]
      ensures tarDist == 0.0 && tarAngle == 0.0
      ensures |window.Contents| == if |burst| < SAMP_NUM then |burst| else SAMP_NUM
      ensures ConvertedTail(window.Contents, burst, magBias, atan2Deg)
      ensures StatsCurrent(sqrt)
      ensures home == stats[GPS]
    {
      this.shape := shape;
      window := new SampleWindow(SAMP_NUM);
      magBias := [-14.0, 13.0];
      tarGps := [0.0, 0.0];
      tarDist, tarAngle := 0.0, 0.0;
      stats := map[];
      home := [];
      new;
      CollectBurst(burst, atan2Deg);
      var _ := SetStats(sqrt);
      home := stats[GPS];
    }

    /** The sampler at start-up: every frame of `burst` is converted and
        appended to the empty window, which ends up holding the converted
        last 150 frames, or all of them when there are fewer. */
    method CollectBurst(burst: seq<Frame>, atan2Deg: (real, real) -> real)
      requires Valid() && window.Contents == []
      requires forall i :: 0 <= i < |burst| ==> FrameFits(burst[i], shape)
      modifies window, window.data
      ensures Valid()
      ensures |window.Contents| == if |burst| < SAMP_NUM then |burst| else SAMP_NUM
      ensures ConvertedTail(window.Contents, burst, magBias, atan2Deg)
    {
      var k := 0;
      while k < |burst|
        invariant 0 <= k <= |burst|
        invariant Valid()
        invariant |window.Contents| == if k < SAMP_NUM then k else SAMP_NUM
        invariant ConvertedTail(window.Contents, burst[..k], magBias, atan2Deg)
      {
        ghost var before := window.Contents;
        var s := Collect(burst[k], atan2Deg);
        ConvertedTailStep(before, window.Contents, burst, k, SAMP_NUM, magBias, atan2Deg, s);
        k := k + 1;
      }
      assert burst[..|burst|] == burst;
    }

    /** `__get_stats` on a fresh frame: the GPS without its trailing
        altitude, the altitude in metres, the magnetometer x and y with the
        bias subtracted, the compass heading of the corrected axes in
        [0, 360), and the other channels as read. */
    method GetStats(f: Frame, atan2Deg: (real, real) -> real) returns (s: Sample)
      requires Valid() && FrameFits(f, shape)
      ensures StatsOf(f, magBias, atan2Deg, s)
      ensures Conforms(s, shape)
      ensures 0.0 <= s[DEG][0] < 360.0
    {
      var mag := f.magRaw[..|f.magRaw| - 1];
      var i := 0;
      while i < |mag|
        invariant 0 <= i <= |mag| == 2
        invariant forall j :: 0 <= j < i ==> mag[j] == f.magRaw[j] - magBias[j]
        invariant forall j :: i <= j < |mag| ==> mag[j] == f.magRaw[j]
      {
        mag := mag[i := mag[i] - magBias[i]];
        i := i + 1;
      }
      var deg := Heading(mag[0], mag[1], atan2Deg);
      s := [f.velocity, f.rawAcc, f.rawGyr, DropLast(f.gps), [f.altitudeMm / 1000.0],
            mag, [deg], f.attitude, f.magFusion];
    }

    /** One turn of the sampler loop, `self.__samples.append(self.__get_stats())`:
        the converted frame goes at the end of the window, and a full
        window of 150 samples drops its oldest sample first. */
    method Collect(f: Frame, atan2Deg: (real, real) -> real) returns (s: Sample)
      requires Valid() && FrameFits(f, shape)
      modifies window, window.data
      ensures Valid()
      ensures StatsOf(f, magBias, atan2Deg, s)
      ensures |old(window.Contents)| < SAMP_NUM ==> window.Contents == old(window.Contents) + [s]
      ensures |old(window.Contents)| == SAMP_NUM ==> window.Contents == old(window.Contents)[1..] + [s]
    {
      s := GetStats(f, atan2Deg);
      window.Append(s);
    }

    /** `__set_stats`: per channel, the list of values in window order, the
        flagged samples, that list in place of the channel when it is not
        empty, and the mean written to `stats`.  On an empty window the
        source's average raises before anything is written. */
    method SetStats(sqrt: real -> real) returns (ok: bool)
      requires Valid()
      modifies this`stats
      ensures Valid()
      ensures ok <==> |window.Contents| > 0
      ensures ok ==> StatsCurrent(sqrt)
      ensures !ok ==> stats == old(stats)
    {
      var w := window.Snapshot();
      if |w| == 0 {
        ok := false;
        return;
      }
      var averaged := AggregateWindow(w, shape, sqrt);
      OverwriteAll(stats, averaged);
      stats := stats + averaged;
      ok := true;
    }

    /** `get_move`: refresh the statistics, compute the bearing and the
        distance to the target from the averaged GPS position, take the
        drone's angle difference between the averaged heading and that
        bearing, and band it into a command; the distance is returned as
        computed. */
    method GetMove(sqrt: real -> real, heading: (Vec, Vec) -> real, distance: (Vec, Vec) -> real,
                   angleDiff: (real, real) -> Float) returns (r: MoveResult)
      requires Valid()
      modifies this`stats, this`tarAngle, this`tarDist
      ensures Valid()
      ensures r.NotReady? <==> |window.Contents| == 0
      ensures r.NotReady? ==> stats == old(stats) && tarAngle == old(tarAngle) && tarDist == old(tarDist)
      ensures r.Ready? ==>
                && StatsCurrent(sqrt)
                && tarAngle == heading(stats[GPS], tarGps)
                && tarDist == distance(stats[GPS], tarGps)
                && r.command == Band(angleDiff(stats[DEG][0], tarAngle))
                && r.distance == tarDist
    {
      var ok := SetStats(sqrt);
      if !ok {
        return NotReady;
      }
      tarAngle := heading(stats[GPS], tarGps);
      tarDist := distance(stats[GPS], tarGps);
      var delta := angleDiff(stats[DEG][0], tarAngle);
      r := Ready(Band(delta), tarDist);
    }

    /** `set_target`. */
    method SetTarget(target: Vec)
      requires Valid()
      modifies this`tarGps
      ensures Valid() && tarGps == target
    {
      tarGps := target;
    }

    /** `get_home`. */
    method GetHome() returns (h: Vec)
      ensures h == home
    {
      h := home;
    }

    /** `set_home`. */
    method SetHome(newHome: Vec)
      requires Valid()
      modifies this`home
      ensures Valid() && home == newHome
    {
      home := newHome;
    }

    /** The diagnostic getters (`get_vel`, `get_acc`, `get_gps`, `get_deg`,
        and `get_mag`, which reads mfu): refresh the statistics and return
        one channel's aggregate. */
    method GetChannel(c: nat, sqrt: real -> real) returns (v: Option<Vec>)
      requires Valid() && c < NUM_CHANNELS
      modifies this`stats
      ensures Valid()
      ensures v.None? <==> |window.Contents| == 0
      ensures v.Some? ==> StatsCurrent(sqrt) && v.value == AggregateChannel(window.Contents, c, shape[c], sqrt)
    {
      var ok := SetStats(sqrt);
      if !ok {
        return None;
      }
      v := Some(stats[c]);
    }
  }

  datatype Option<T> = None | Some(value: T)
}
