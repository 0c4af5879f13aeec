/** The aggregation behind src/scripts/plot_ssim_rebuffer.py: the average SSIM
    (in dB) of each (abr, cc) scheme over a range of time windows, the
    rebuffer totals that the stream processor reconstructs per scheme, and the
    scatter points and axis limits of the SSIM-versus-rebuffer plot.

    The configuration lookup (retrieve_expt_config, then get_abr_cc) is the map
    `schemeOf`; get_ssim_index is `ssimIndexOf`; ssim_index_to_db is `toDb`;
    each query of a time window is the sequence of points it returned. */
module SsimRebuffer {
  import opened Common

  /** The (abr, cc) pair that groups points. */
  datatype Scheme = Scheme(abr: string, cc: string)

  /** Why a run stops: an experiment without a configuration, nothing
      collected, or a scheme of the SSIM dict missing from the rebuffer dict. */
  datatype Failure = UnknownExpt(id: ExptId) | NoData | MissingCounterpart(scheme: Scheme)

  // ---------------------------------------------------------------------------
  // SSIM per scheme (do_collect_ssim, collect_ssim)
  // ---------------------------------------------------------------------------

  /** A video_acked point; fields other than the experiment id are read only
      by get_ssim_index. */
  datatype AckedPoint = AckedPoint(exptId: ExptId, fields: map<string, real>)

  /** A value of the SSIM dict: the pair [sum, count] while points are
      collected, the average in dB once averaged. */
  datatype SsimEntry = Totals(sum: real, count: nat) | AvgDb(db: real)

  ghost predicate AllTotals(d: map<Scheme, SsimEntry>) {
    forall sc <- d.Keys :: d[sc].Totals?
  }

  /** The entry of `sc`, or the fresh [0.0, 0] of a scheme not yet seen. */
  function Current(d: map<Scheme, SsimEntry>, sc: Scheme): SsimEntry {
    if sc in d then d[sc] else Totals(0.0, 0)
  }

  /** One iteration of do_collect_ssim for a point of scheme `sc`. */
  function AddPoint(d: map<Scheme, SsimEntry>, sc: Scheme, index: Option<real>): map<Scheme, SsimEntry>
    requires AllTotals(d)
  {
    var e := Current(d, sc);
    if index.Some? then d[sc := Totals(e.sum + index.value, e.count + 1)] else d[sc := e]
  }

  /** do_collect_ssim's loop over `pts`, from the dict `d`. */
  function Accumulate(d: map<Scheme, SsimEntry>, pts: seq<AckedPoint>, schemeOf: map<ExptId, Scheme>,
                      ssimIndexOf: AckedPoint -> Option<real>): (r: Result<map<Scheme, SsimEntry>, Failure>)
    requires AllTotals(d)
    ensures r.Ok? ==> AllTotals(r.value)
    ensures r.Err? ==> r.error.UnknownExpt?
    decreases |pts|
  {
    if pts == [] then Ok(d)
    else if pts[0].exptId !in schemeOf then Err(UnknownExpt(pts[0].exptId))
    else Accumulate(AddPoint(d, schemeOf[pts[0].exptId], ssimIndexOf(pts[0])), pts[1..], schemeOf, ssimIndexOf)
  }

  /** collect_ssim's loop over the time windows. */
  function CollectWindows(d: map<Scheme, SsimEntry>, windows: seq<seq<AckedPoint>>, schemeOf: map<ExptId, Scheme>,
                          ssimIndexOf: AckedPoint -> Option<real>): (r: Result<map<Scheme, SsimEntry>, Failure>)
    requires AllTotals(d)
    ensures r.Ok? ==> AllTotals(r.value)
    decreases |windows|
  {
    if windows == [] then Ok(d)
    else match Accumulate(d, windows[0], schemeOf, ssimIndexOf)
      case Err(e) => Err(e)
      case Ok(m) => CollectWindows(m, windows[1..], schemeOf, ssimIndexOf)
  }

  /** The averaging step: a scheme without any index keeps its [0.0, 0] (the
      script only warns about it); any other gets the dB value of its mean
      linear index. */
  function AverageEntry(e: SsimEntry, toDb: real -> real): SsimEntry
    requires e.Totals?
  {
    if e.count == 0 then e else AvgDb(toDb(e.sum / e.count as real))
  }

  function Averaged(d: map<Scheme, SsimEntry>, toDb: real -> real): map<Scheme, SsimEntry>
    requires AllTotals(d)
  {
    map sc | sc in d :: AverageEntry(d[sc], toDb)
  }

  /** What collect_ssim returns, or why the run stops. */
  function CollectSsimSpec(windows: seq<seq<AckedPoint>>, schemeOf: map<ExptId, Scheme>,
                           ssimIndexOf: AckedPoint -> Option<real>, toDb: real -> real)
    : Result<map<Scheme, SsimEntry>, Failure>
  {
    match CollectWindows(map[], windows, schemeOf, ssimIndexOf)
    case Err(e) => Err(e)
    case Ok(m) => Ok(Averaged(m, toDb))
  }

  /** The dict `d` that do_collect_ssim updates in place across windows and
      that collect_ssim then overwrites with averages. */
  class SsimTable {
    var d: map<Scheme, SsimEntry>

    constructor()
      ensures d == map[]
    {
      d := map[];
    }

    /** do_collect_ssim on the points of one window. */
    method DoCollectSsim(pts: seq<AckedPoint>, schemeOf: map<ExptId, Scheme>,
                         ssimIndexOf: AckedPoint -> Option<real>) returns (err: Option<Failure>)
      requires AllTotals(d)
      modifies this
      ensures AllTotals(d)
      ensures Accumulate(old(d), pts, schemeOf, ssimIndexOf) == if err.None? then Ok(d) else Err(err.value)
    {
      var i := 0;
      while i < |pts|
        invariant 0 <= i <= |pts|
        invariant AllTotals(d)
        invariant Accumulate(old(d), pts, schemeOf, ssimIndexOf) == Accumulate(d, pts[i..], schemeOf, ssimIndexOf)
      {
        var pt := pts[i];
        assert pts[i..][1..] == pts[i + 1..];
        var exptId := pt.exptId;
        if exptId !in schemeOf {
          return Some(UnknownExpt(exptId));
        }
        ghost var before := d;
        var abrCc := schemeOf[exptId];
        if abrCc !in d {
          d := d[abrCc := Totals(0.0, 0)];
        }
        var ssimIndex := ssimIndexOf(pt);
        if ssimIndex.Some? {
          d := d[abrCc := Totals(d[abrCc].sum + ssimIndex.value, d[abrCc].count + 1)];
        }
        assert d == AddPoint(before, abrCc, ssimIndex);
        i := i + 1;
      }
      return None;
    }

    /** The averaging loop of collect_ssim. */
    method Average(toDb: real -> real)
      requires AllTotals(d)
      modifies this
      ensures d == Averaged(old(d), toDb)
    {
      var rest := d.Keys;
      while rest != {}
        invariant rest <= old(d).Keys && d.Keys == old(d).Keys
        invariant forall sc <- d.Keys :: d[sc] == if sc in rest then old(d)[sc] else AverageEntry(old(d)[sc], toDb)
        decreases rest
      {
        var abrCc :| abrCc in rest;
        if d[abrCc].count != 0 {
          var avgSsimIndex := d[abrCc].sum / d[abrCc].count as real;
          d := d[abrCc := AvgDb(toDb(avgSsimIndex))];
        }
        rest := rest - {abrCc};
      }
    }
  }

  /** collect_ssim. */
  method CollectSsim(windows: seq<seq<AckedPoint>>, schemeOf: map<ExptId, Scheme>,
                     ssimIndexOf: AckedPoint -> Option<real>, toDb: real -> real)
    returns (r: Result<map<Scheme, SsimEntry>, Failure>)
    ensures r == CollectSsimSpec(windows, schemeOf, ssimIndexOf, toDb)
    ensures r.Ok? <==> forall p <- Flatten(windows) :: p.exptId in schemeOf
    ensures r.Ok? ==> r.value.Keys == SchemesOf(Flatten(windows), schemeOf)
  {
    CollectSsimMeans(windows, schemeOf, ssimIndexOf, toDb);
    var table := new SsimTable();
    var i := 0;
    while i < |windows|
      invariant 0 <= i <= |windows|
      invariant AllTotals(table.d)
      invariant CollectWindows(map[], windows, schemeOf, ssimIndexOf)
             == CollectWindows(table.d, windows[i..], schemeOf, ssimIndexOf)
    {
      assert windows[i..][1..] == windows[i + 1..];
      var err := table.DoCollectSsim(windows[i], schemeOf, ssimIndexOf);
      if err.Some? {
        return Err(err.value);
      }
      i := i + 1;
    }
    table.Average(toDb);
    return Ok(table.d);
  }

  /** The schemes of the points whose experiment has a configuration. */
  function SchemesOf(pts: seq<AckedPoint>, schemeOf: map<ExptId, Scheme>): set<Scheme> {
    set p <- pts | p.exptId in schemeOf :: schemeOf[p.exptId]
  }

  /** Whether `p` is a point of scheme `sc` that carries an SSIM index. */
  predicate Counts(p: AckedPoint, sc: Scheme, schemeOf: map<ExptId, Scheme>, ssimIndexOf: AckedPoint -> Option<real>) {
    p.exptId in schemeOf && schemeOf[p.exptId] == sc && ssimIndexOf(p).Some?
  }

  /** How many points of scheme `sc` carry an SSIM index. */
  function CountOf(pts: seq<AckedPoint>, sc: Scheme, schemeOf: map<ExptId, Scheme>,
                   ssimIndexOf: AckedPoint -> Option<real>): nat
    decreases |pts|
  {
    if pts == [] then 0
    else (if Counts(pts[0], sc, schemeOf, ssimIndexOf) then 1 else 0) + CountOf(pts[1..], sc, schemeOf, ssimIndexOf)
  }

  /** The sum of the SSIM indices of the points of scheme `sc`. */
  function SumOf(pts: seq<AckedPoint>, sc: Scheme, schemeOf: map<ExptId, Scheme>,
                 ssimIndexOf: AckedPoint -> Option<real>): real
    decreases |pts|
  {
    if pts == [] then 0.0
    else (if Counts(pts[0], sc, schemeOf, ssimIndexOf) then ssimIndexOf(pts[0]).value else 0.0)
         + SumOf(pts[1..], sc, schemeOf, ssimIndexOf)
  }

  /** do_collect_ssim goes through exactly when every point's experiment has
      a configuration. It then adds a key for the scheme of every point, also
      of one without an SSIM index. */
  lemma {:induction false} AccumulateKeys(d: map<Scheme, SsimEntry>, pts: seq<AckedPoint>,
                                          schemeOf: map<ExptId, Scheme>, ssimIndexOf: AckedPoint -> Option<real>)
    requires AllTotals(d)
    ensures Accumulate(d, pts, schemeOf, ssimIndexOf).Ok? <==> forall p <- pts :: p.exptId in schemeOf
    ensures Accumulate(d, pts, schemeOf, ssimIndexOf).Ok? ==>
              Accumulate(d, pts, schemeOf, ssimIndexOf).value.Keys == d.Keys + SchemesOf(pts, schemeOf)
    decreases |pts|
  {
    if pts != [] && pts[0].exptId in schemeOf {
      var next := AddPoint(d, schemeOf[pts[0].exptId], ssimIndexOf(pts[0]));
      assert pts == [pts[0]] + pts[1..];
      assert forall p <- pts[1..] :: p in pts;
      AccumulateKeys(next, pts[1..], schemeOf, ssimIndexOf);
      assert SchemesOf(pts, schemeOf) == {schemeOf[pts[0].exptId]} + SchemesOf(pts[1..], schemeOf);
    }
  }

  /** Through do_collect_ssim each scheme's count and sum grow by the number
      and the sum of the indices of its points. */
  lemma {:induction false} AccumulateTotals(d: map<Scheme, SsimEntry>, pts: seq<AckedPoint>,
                                            schemeOf: map<ExptId, Scheme>, ssimIndexOf: AckedPoint -> Option<real>)
    requires AllTotals(d)
    ensures Accumulate(d, pts, schemeOf, ssimIndexOf).Ok? ==>
              var m := Accumulate(d, pts, schemeOf, ssimIndexOf).value;
              forall sc <- m.Keys ::
                m[sc] == Totals(Current(d, sc).sum + SumOf(pts, sc, schemeOf, ssimIndexOf),
                                Current(d, sc).count + CountOf(pts, sc, schemeOf, ssimIndexOf))
    decreases |pts|
  {
    if pts != [] && pts[0].exptId in schemeOf {
      var sc0, index := schemeOf[pts[0].exptId], ssimIndexOf(pts[0]);
      var next := AddPoint(d, sc0, index);
      AccumulateTotals(next, pts[1..], schemeOf, ssimIndexOf);
      if Accumulate(d, pts, schemeOf, ssimIndexOf).Ok? {
        var m := Accumulate(d, pts, schemeOf, ssimIndexOf).value;
        assert m == Accumulate(next, pts[1..], schemeOf, ssimIndexOf).value;
        forall sc | sc in m.Keys
          ensures m[sc] == Totals(Current(d, sc).sum + SumOf(pts, sc, schemeOf, ssimIndexOf),
                                  Current(d, sc).count + CountOf(pts, sc, schemeOf, ssimIndexOf))
        {
          AddPointTotals(d, sc0, index, sc);
        }
      }
    }
  }

  /** One point adds its index to its scheme's sum and one to its count, when
      it has an index, and leaves every other scheme alone. */
  lemma AddPointTotals(d: map<Scheme, SsimEntry>, sc0: Scheme, index: Option<real>, sc: Scheme)
    requires AllTotals(d)
    ensures Current(AddPoint(d, sc0, index), sc)
         == if sc == sc0 && index.Some? then Totals(Current(d, sc).sum + index.value, Current(d, sc).count + 1)
            else Current(d, sc)
  {
  }

  /** Processing `a` then `b` is processing `a + b`. */
  lemma {:induction false} AccumulateAppend(d: map<Scheme, SsimEntry>, a: seq<AckedPoint>, b: seq<AckedPoint>,
                                            schemeOf: map<ExptId, Scheme>, ssimIndexOf: AckedPoint -> Option<real>)
    requires AllTotals(d)
    ensures Accumulate(d, a + b, schemeOf, ssimIndexOf)
         == match Accumulate(d, a, schemeOf, ssimIndexOf)
            case Err(e) => Err(e)
            case Ok(m) => Accumulate(m, b, schemeOf, ssimIndexOf)
    decreases |a|
  {
    if a == [] {
      assert a + b == b;
    } else {
      assert (a + b)[0] == a[0] && (a + b)[1..] == a[1..] + b;
      if a[0].exptId in schemeOf {
        AccumulateAppend(AddPoint(d, schemeOf[a[0].exptId], ssimIndexOf(a[0])), a[1..], b, schemeOf, ssimIndexOf);
      }
    }
  }

  /** Threading the same dict through successive windows gives the dict of a
      single pass over the concatenation of all windows' points. */
  lemma {:induction false} WindowsAsOneStream(d: map<Scheme, SsimEntry>, windows: seq<seq<AckedPoint>>,
                                              schemeOf: map<ExptId, Scheme>, ssimIndexOf: AckedPoint -> Option<real>)
    requires AllTotals(d)
    ensures CollectWindows(d, windows, schemeOf, ssimIndexOf) == Accumulate(d, Flatten(windows), schemeOf, ssimIndexOf)
    decreases |windows|
  {
    if windows != [] {
      AccumulateAppend(d, windows[0], Flatten(windows[1..]), schemeOf, ssimIndexOf);
      match Accumulate(d, windows[0], schemeOf, ssimIndexOf)
      case Err(e) =>
      case Ok(m) => WindowsAsOneStream(m, windows[1..], schemeOf, ssimIndexOf);
    }
  }

  /** No counted point leaves the sum at 0. */
  lemma {:induction false} NoCountNoSum(pts: seq<AckedPoint>, sc: Scheme, schemeOf: map<ExptId, Scheme>,
                                        ssimIndexOf: AckedPoint -> Option<real>)
    requires CountOf(pts, sc, schemeOf, ssimIndexOf) == 0
    ensures SumOf(pts, sc, schemeOf, ssimIndexOf) == 0.0
    decreases |pts|
  {
    if pts != [] {
      NoCountNoSum(pts[1..], sc, schemeOf, ssimIndexOf);
    }
  }

  /** The totals of a scheme over `p + q` are those over `p` plus those over
      `q`. */
  lemma {:induction false} SumCountConcat(p: seq<AckedPoint>, q: seq<AckedPoint>, sc: Scheme,
                                          schemeOf: map<ExptId, Scheme>, ssimIndexOf: AckedPoint -> Option<real>)
    ensures SumOf(p + q, sc, schemeOf, ssimIndexOf) == SumOf(p, sc, schemeOf, ssimIndexOf) + SumOf(q, sc, schemeOf, ssimIndexOf)
    ensures CountOf(p + q, sc, schemeOf, ssimIndexOf) == CountOf(p, sc, schemeOf, ssimIndexOf) + CountOf(q, sc, schemeOf, ssimIndexOf)
    decreases |p|
  {
    if p == [] {
      assert p + q == q;
    } else {
      assert (p + q)[0] == p[0] && (p + q)[1..] == p[1..] + q;
      SumCountConcat(p[1..], q, sc, schemeOf, ssimIndexOf);
    }
  }

  /** The totals of a scheme over `b` are those of `b[i]` plus those over the
      rest of `b`. */
  lemma SumCountAt(b: seq<AckedPoint>, i: int, sc: Scheme,
                   schemeOf: map<ExptId, Scheme>, ssimIndexOf: AckedPoint -> Option<real>)
    requires 0 <= i < |b|
    ensures SumOf(b, sc, schemeOf, ssimIndexOf)
         == SumOf([b[i]], sc, schemeOf, ssimIndexOf) + SumOf(b[..i] + b[i + 1..], sc, schemeOf, ssimIndexOf)
    ensures CountOf(b, sc, schemeOf, ssimIndexOf)
         == CountOf([b[i]], sc, schemeOf, ssimIndexOf) + CountOf(b[..i] + b[i + 1..], sc, schemeOf, ssimIndexOf)
  {
    assert b == b[..i] + ([b[i]] + b[i + 1..]);
    SumCountConcat(b[..i], [b[i]] + b[i + 1..], sc, schemeOf, ssimIndexOf);
    SumCountConcat([b[i]], b[i + 1..], sc, schemeOf, ssimIndexOf);
    SumCountConcat(b[..i], b[i + 1..], sc, schemeOf, ssimIndexOf);
  }

  /** Taking the same point out of two orderings of the same points leaves two
      orderings of the same points. */
  lemma RemoveMatching(a: seq<AckedPoint>, b: seq<AckedPoint>, i: int)
    requires multiset(a) == multiset(b) && a != [] && 0 <= i < |b| && b[i] == a[0]
    ensures multiset(a[1..]) == multiset(b[..i] + b[i + 1..])
  {
    assert b == b[..i] + [b[i]] + b[i + 1..];
    assert a == [a[0]] + a[1..];
    assert multiset(a[1..]) == multiset(a) - multiset{a[0]};
    assert multiset(b[..i] + b[i + 1..]) == multiset(b) - multiset{b[i]};
  }

  /** The totals of a scheme do not depend on the order of the points: any
      reordering of the same points gives the same sum and count. */
  lemma {:induction false} OrderFree(a: seq<AckedPoint>, b: seq<AckedPoint>, sc: Scheme,
                                     schemeOf: map<ExptId, Scheme>, ssimIndexOf: AckedPoint -> Option<real>)
    requires multiset(a) == multiset(b)
    ensures SumOf(a, sc, schemeOf, ssimIndexOf) == SumOf(b, sc, schemeOf, ssimIndexOf)
    ensures CountOf(a, sc, schemeOf, ssimIndexOf) == CountOf(b, sc, schemeOf, ssimIndexOf)
    decreases |a|
  {
    if a == [] {
      assert |b| == |multiset(b)| == 0;
    } else {
      assert a[0] in multiset(b);
      var i :| 0 <= i < |b| && b[i] == a[0];
      RemoveMatching(a, b, i);
      OrderFree(a[1..], b[..i] + b[i + 1..], sc, schemeOf, ssimIndexOf);
      SumCountAt(b, i, sc, schemeOf, ssimIndexOf);
    }
  }

  /** Any reordering of the same points meets the same schemes. */
  lemma SameSchemes(a: seq<AckedPoint>, b: seq<AckedPoint>, schemeOf: map<ExptId, Scheme>)
    requires multiset(a) == multiset(b)
    ensures SchemesOf(a, schemeOf) == SchemesOf(b, schemeOf)
    ensures forall p :: p in a <==> p in b
  {
    forall p ensures p in a <==> p in b {
      assert p in a <==> p in multiset(a);
      assert p in b <==> p in multiset(b);
    }
  }

  /** collect_ssim does not depend on the order in which points arrive:
      windows holding the same points, in any order and split in any way,
      give the same averages, and fail or go through together. */
  lemma CollectSsimOrderFree(w1: seq<seq<AckedPoint>>, w2: seq<seq<AckedPoint>>, schemeOf: map<ExptId, Scheme>,
                             ssimIndexOf: AckedPoint -> Option<real>, toDb: real -> real)
    requires multiset(Flatten(w1)) == multiset(Flatten(w2))
    ensures CollectSsimSpec(w1, schemeOf, ssimIndexOf, toDb).Ok? == CollectSsimSpec(w2, schemeOf, ssimIndexOf, toDb).Ok?
    ensures CollectSsimSpec(w1, schemeOf, ssimIndexOf, toDb).Ok? ==>
              CollectSsimSpec(w1, schemeOf, ssimIndexOf, toDb).value == CollectSsimSpec(w2, schemeOf, ssimIndexOf, toDb).value
  {
    var p1, p2 := Flatten(w1), Flatten(w2);
    CollectSsimMeans(w1, schemeOf, ssimIndexOf, toDb);
    CollectSsimMeans(w2, schemeOf, ssimIndexOf, toDb);
    SameSchemes(p1, p2, schemeOf);
    forall sc ensures SumOf(p1, sc, schemeOf, ssimIndexOf) == SumOf(p2, sc, schemeOf, ssimIndexOf)
                   && CountOf(p1, sc, schemeOf, ssimIndexOf) == CountOf(p2, sc, schemeOf, ssimIndexOf)
    {
      OrderFree(p1, p2, sc, schemeOf, ssimIndexOf);
    }
  }

  /** collect_ssim: over all windows, the run goes through exactly when every
      point's experiment has a configuration; the keys are then the schemes of
      all points; a scheme none of whose points has an index keeps [0.0, 0],
      and any other maps to the dB value of the mean of its points' linear
      indices. */
  lemma CollectSsimMeans(windows: seq<seq<AckedPoint>>, schemeOf: map<ExptId, Scheme>,
                         ssimIndexOf: AckedPoint -> Option<real>, toDb: real -> real)
    ensures CollectSsimSpec(windows, schemeOf, ssimIndexOf, toDb).Ok? <==>
              forall p <- Flatten(windows) :: p.exptId in schemeOf
    ensures CollectSsimSpec(windows, schemeOf, ssimIndexOf, toDb).Ok? ==>
              var m := CollectSsimSpec(windows, schemeOf, ssimIndexOf, toDb).value;
              var pts := Flatten(windows);
              && m.Keys == SchemesOf(pts, schemeOf)
              && forall sc <- m.Keys ::
                   m[sc] == if CountOf(pts, sc, schemeOf, ssimIndexOf) == 0 then Totals(0.0, 0)
                            else AvgDb(toDb(SumOf(pts, sc, schemeOf, ssimIndexOf)
                                            / CountOf(pts, sc, schemeOf, ssimIndexOf) as real))
  {
    var pts := Flatten(windows);
    WindowsAsOneStream(map[], windows, schemeOf, ssimIndexOf);
    AccumulateKeys(map[], pts, schemeOf, ssimIndexOf);
    AccumulateTotals(map[], pts, schemeOf, ssimIndexOf);
    forall sc | CountOf(pts, sc, schemeOf, ssimIndexOf) == 0
      ensures SumOf(pts, sc, schemeOf, ssimIndexOf) == 0.0
    {
      NoCountNoSum(pts, sc, schemeOf, ssimIndexOf);
    }
  }

  // ---------------------------------------------------------------------------
  // Rebuffer per scheme (do_collect_rebuffer, collect_rebuffer)
  // ---------------------------------------------------------------------------

  /** A client_buffer point, handed unread to the stream processor. */
  datatype BufferPoint = BufferPoint(fields: map<string, real>)

  /** What the stream processor reports for a scheme. */
  datatype RebufRecord = RebufRecord(totalRebuf: real, totalPlay: real, rebufMinute: real)

  /** A call made on the stream processor. */
  datatype StreamCall = AddDataPointCall(pt: BufferPoint) | DoneDataPointsCall

  function Adds(pts: seq<BufferPoint>): (calls: seq<StreamCall>)
    ensures |calls| == |pts| && forall i :: 0 <= i < |pts| ==> calls[i] == AddDataPointCall(pts[i])
  {
    seq(|pts|, i requires 0 <= i < |pts| => AddDataPointCall(pts[i]))
  }

  /** The BufferStream of stream_processor.py, which is not part of this
      model, seen from outside: a sink that receives points one at a time and
      whose `out`, once done_data_points is called, is `reconstruct` of all
      the points it received, in order. `calls` records every call made. */
  class BufferStream {
    const reconstruct: seq<BufferPoint> -> map<Scheme, RebufRecord>
    var received: seq<BufferPoint>
    var out: map<Scheme, RebufRecord>
    ghost var calls: seq<StreamCall>

    constructor(reconstruct: seq<BufferPoint> -> map<Scheme, RebufRecord>)
      ensures this.reconstruct == reconstruct && received == [] && calls == []
    {
      this.reconstruct := reconstruct;
      received := [];
      out := map[];
      calls := [];
    }

    method AddDataPoint(pt: BufferPoint)
      modifies this
      ensures received == old(received) + [pt] && out == old(out)
      ensures calls == old(calls) + [AddDataPointCall(pt)]
    {
      received := received + [pt];
      calls := calls + [AddDataPointCall(pt)];
    }

    method DoneDataPoints()
      modifies this
      ensures received == old(received) && out == reconstruct(received)
      ensures calls == old(calls) + [DoneDataPointsCall]
    {
      out := reconstruct(received);
      calls := calls + [DoneDataPointsCall];
    }
  }

  /** do_collect_rebuffer: feeds the points of one window to the stream. */
  method DoCollectRebuffer(pts: seq<BufferPoint>, stream: BufferStream)
    modifies stream
    ensures stream.received == old(stream.received) + pts && stream.out == old(stream.out)
    ensures stream.calls == old(stream.calls) + Adds(pts)
  {
    var i := 0;
    while i < |pts|
      invariant 0 <= i <= |pts|
      invariant stream.received == old(stream.received) + pts[..i] && stream.out == old(stream.out)
      invariant stream.calls == old(stream.calls) + Adds(pts[..i])
    {
      stream.AddDataPoint(pts[i]);
      assert pts[..i + 1] == pts[..i] + [pts[i]];
      i := i + 1;
    }
    assert pts[..i] == pts;
  }

  /** collect_rebuffer: every point of every window is added, in order, before
      done_data_points is called, which happens exactly once; the result is
      the stream's output for all those points. */
  method CollectRebuffer(windows: seq<seq<BufferPoint>>, reconstruct: seq<BufferPoint> -> map<Scheme, RebufRecord>)
    returns (out: map<Scheme, RebufRecord>, ghost calls: seq<StreamCall>)
    ensures out == reconstruct(Flatten(windows))
    ensures calls == Adds(Flatten(windows)) + [DoneDataPointsCall]
  {
    var stream := new BufferStream(reconstruct);
    var i := 0;
    while i < |windows|
      invariant 0 <= i <= |windows|
      invariant stream.reconstruct == reconstruct
      invariant stream.received == Flatten(windows[..i])
      invariant stream.calls == Adds(stream.received)
    {
      DoCollectRebuffer(windows[i], stream);
      assert windows[..i + 1] == windows[..i] + [windows[i]];
      FlattenSnoc(windows[..i], windows[i]);
      i := i + 1;
    }
    assert windows[..i] == windows;
    stream.DoneDataPoints();
    out, calls := stream.out, stream.calls;
  }

  // ---------------------------------------------------------------------------
  // The plot (plot_ssim_rebuffer) and the run (main)
  // ---------------------------------------------------------------------------

  /** np.ceil(total_play / 60): the least whole number of minutes covering the
      play time. */
  function TotalMinutes(totalPlay: real): (m: int)
    ensures 60.0 * m as real >= totalPlay
    ensures 60.0 * (m - 1) as real < totalPlay
  {
    -((-totalPlay / 60.0).Floor)
  }

  /** The x of a scheme: rebuffered minutes as a percentage of the play
      minutes; absent when there are no play minutes (numpy then yields inf or
      nan). */
  function RebufPercent(rec: RebufRecord): (x: Option<real>)
    ensures x.None? <==> TotalMinutes(rec.totalPlay) == 0
    ensures x.Some? ==> x.value * TotalMinutes(rec.totalPlay) as real == 100.0 * rec.rebufMinute
  {
    var totalMinutes := TotalMinutes(rec.totalPlay);
    if totalMinutes == 0 then None
    else
      var rebufRate := rec.rebufMinute / totalMinutes as real;
      Some(rebufRate * 100.0)
  }

  /** One scatter point: x, y (the scheme's SSIM entry) and the rebuffered
      minutes and play hours shown in its label. */
  datatype ScatterPoint = ScatterPoint(x: Option<real>, y: SsimEntry, rebufMinutes: real, playHours: real)

  function PointFor(y: SsimEntry, rec: RebufRecord): ScatterPoint {
    ScatterPoint(RebufPercent(rec), y, rec.totalRebuf / 60.0, rec.totalPlay / 3600.0)
  }

  /** The scheme loop of plot_ssim_rebuffer: the run stops at a scheme of the
      SSIM dict that the rebuffer dict lacks; schemes only in the rebuffer
      dict are not plotted and not an error. */
  method ScatterPoints(ssim: map<Scheme, SsimEntry>, rebuffer: map<Scheme, RebufRecord>)
    returns (r: Result<map<Scheme, ScatterPoint>, Failure>)
    ensures r.Err? <==> !(ssim.Keys <= rebuffer.Keys)
    ensures r.Err? ==> r.error.MissingCounterpart? && r.error.scheme in ssim.Keys - rebuffer.Keys
    ensures r.Ok? ==> r.value.Keys == ssim.Keys
                      && forall sc <- ssim.Keys :: r.value[sc] == PointFor(ssim[sc], rebuffer[sc])
  {
    var points: map<Scheme, ScatterPoint> := map[];
    var rest := ssim.Keys;
    while rest != {}
      invariant rest <= ssim.Keys
      invariant forall sc <- ssim.Keys - rest :: sc in rebuffer
      invariant points.Keys == ssim.Keys - rest
      invariant forall sc <- points.Keys :: points[sc] == PointFor(ssim[sc], rebuffer[sc])
      decreases rest
    {
      var abrCc :| abrCc in rest;
      if abrCc !in rebuffer {
        return Err(MissingCounterpart(abrCc));
      }
      points := points[abrCc := PointFor(ssim[abrCc], rebuffer[abrCc])];
      rest := rest - {abrCc};
    }
    return Ok(points);
  }

  /** The x-axis limits clamped to [0, 100]: each limit is kept when it is
      inside, and replaced by the nearest bound otherwise. */
  function ClampXLim(lo: real, hi: real): (r: (real, real))
    ensures r.0 >= 0.0 && r.1 <= 100.0
    ensures lo >= 0.0 ==> r.0 == lo
    ensures lo < 0.0 ==> r.0 == 0.0
    ensures hi <= 100.0 ==> r.1 == hi
    ensures hi > 100.0 ==> r.1 == 100.0
  {
    var xmin := if lo >= 0.0 then lo else 0.0;
    var xmax := if hi <= 100.0 then hi else 100.0;
    (xmin, xmax)
  }

  lemma ClampXLimIdempotent(lo: real, hi: real)
    ensures ClampXLim(ClampXLim(lo, hi).0, ClampXLim(lo, hi).1) == ClampXLim(lo, hi)
  {
  }

  /** What the plot shows. */
  datatype Report = Report(points: map<Scheme, ScatterPoint>, xLim: (real, real))

  /** main after argument parsing and connections: collect SSIM, then
      rebuffer; stop when either is empty; then build the plot, whose x-axis
      limits are matplotlib's `autoXLim` clamped to [0, 100]. */
  method Run(ackedWindows: seq<seq<AckedPoint>>, bufferWindows: seq<seq<BufferPoint>>,
             schemeOf: map<ExptId, Scheme>, ssimIndexOf: AckedPoint -> Option<real>, toDb: real -> real,
             reconstruct: seq<BufferPoint> -> map<Scheme, RebufRecord>, autoXLim: (real, real))
    returns (r: Result<Report, Failure>)
    ensures match CollectSsimSpec(ackedWindows, schemeOf, ssimIndexOf, toDb)
            case Err(e) => r == Err(e)
            case Ok(ssim) =>
              var rebuffer := reconstruct(Flatten(bufferWindows));
              if ssim == map[] || rebuffer == map[] then r == Err(NoData)
              else if !(ssim.Keys <= rebuffer.Keys) then
                r.Err? && r.error.MissingCounterpart? && r.error.scheme in ssim.Keys - rebuffer.Keys
              else
                && r.Ok? && r.value.points.Keys == ssim.Keys
                && (forall sc <- ssim.Keys :: r.value.points[sc] == PointFor(ssim[sc], rebuffer[sc]))
                && r.value.xLim == ClampXLim(autoXLim.0, autoXLim.1)
  {
    var ssim := CollectSsim(ackedWindows, schemeOf, ssimIndexOf, toDb);
    if ssim.Err? {
      return Err(ssim.error);
    }
    var rebuffer, _ := CollectRebuffer(bufferWindows, reconstruct);
    if ssim.value == map[] || rebuffer == map[] {
      return Err(NoData);
    }
    var points := ScatterPoints(ssim.value, rebuffer);
    if points.Err? {
      return Err(points.error);
    }
    return Ok(Report(points.value, ClampXLim(autoXLim.0, autoXLim.1)));
  }
}
