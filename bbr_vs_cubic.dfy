/** The aggregation behind src/scripts/plot_bbr_vs_cubic.py: per congestion
    control (cc), the SSIM values of the acknowledged chunks, the variation of
    SSIM between consecutive chunks, the rebuffer rate of each session, and the
    common range of the rebuffer-rate histograms.

    The experiment configuration lookup is a map from experiment id to cc, the
    SSIM-to-dB conversion is the parameter `toDb`, and the chunk duration
    imported from collect_data (VIDEO_DURATION) is the parameter `dur`. */
module BbrVsCubic {
  import opened Common

  type Cc = string

  /** Why a run stops: a session whose experiment has no configuration, or a
      session with zero play time (Python raises ZeroDivisionError). */
  datatype RunError = UnknownExpt(id: ExptId) | ZeroPlay(id: ExptId)

  // ---------------------------------------------------------------------------
  // SSIM and SSIM variation lists (plot_ssim)
  // ---------------------------------------------------------------------------

  /** One session of the video data: its experiment, and per video timestamp
      the SSIM index of the chunk. `order` is the iteration order of the
      session's timestamp dict. The definitions below accept any sequence of
      timestamps there; `Enumerates` states the one a dict iteration gives. */
  datatype VideoSession = VideoSession(exptId: ExptId, order: seq<int>, ssimIndex: map<int, real>)

  /** Every timestamp that is iterated has a chunk. */
  ghost predicate Indexed(s: VideoSession) {
    forall ts <- s.order :: ts in s.ssimIndex
  }

  /** `order` visits every timestamp of the session exactly once. */
  ghost predicate Enumerates(s: VideoSession) {
    && (forall i, j :: 0 <= i < j < |s.order| ==> s.order[i] != s.order[j])
    && (forall ts :: ts in s.order <==> ts in s.ssimIndex)
  }

  function Abs(x: real): real {
    if x < 0.0 then -x else x
  }

  /** What the chunk at `ts` appends to its cc's SSIM list: nothing when its
      index is exactly 1, otherwise the index in dB. */
  function ChunkSsim(s: VideoSession, ts: int, toDb: real -> real): seq<real>
    requires ts in s.ssimIndex
  {
    if s.ssimIndex[ts] == 1.0 then [] else [toDb(s.ssimIndex[ts])]
  }

  /** A variation is recorded for the chunk at `ts` when it is valid and the
      chunk one video duration earlier exists in the same session and is valid
      too. */
  predicate HasVariation(s: VideoSession, ts: int, dur: int)
    requires ts in s.ssimIndex
  {
    s.ssimIndex[ts] != 1.0 && ts - dur in s.ssimIndex && s.ssimIndex[ts - dur] != 1.0
  }

  function Variation(s: VideoSession, ts: int, toDb: real -> real, dur: int): real
    requires ts in s.ssimIndex && HasVariation(s, ts, dur)
  {
    Abs(toDb(s.ssimIndex[ts]) - toDb(s.ssimIndex[ts - dur]))
  }

  /** What the chunk at `ts` appends to its cc's variation list. */
  function ChunkVar(s: VideoSession, ts: int, toDb: real -> real, dur: int): seq<real>
    requires ts in s.ssimIndex
  {
    if HasVariation(s, ts, dur) then [Variation(s, ts, toDb, dur)] else []
  }

  /** SSIM values appended while iterating the timestamps `tss` of `s`. */
  function SessionSsim(s: VideoSession, tss: seq<int>, toDb: real -> real): seq<real>
    requires forall ts <- tss :: ts in s.ssimIndex
    decreases |tss|
  {
    if tss == [] then []
    else SessionSsim(s, tss[..|tss| - 1], toDb) + ChunkSsim(s, tss[|tss| - 1], toDb)
  }

  /** Variations appended while iterating the timestamps `tss` of `s`. */
  function SessionVar(s: VideoSession, tss: seq<int>, toDb: real -> real, dur: int): seq<real>
    requires forall ts <- tss :: ts in s.ssimIndex
    decreases |tss|
  {
    if tss == [] then []
    else SessionVar(s, tss[..|tss| - 1], toDb, dur) + ChunkVar(s, tss[|tss| - 1], toDb, dur)
  }

  /** The two dicts `ssim_by_cc` and `ssim_var_by_cc`. */
  datatype SsimLists = SsimLists(ssim: map<Cc, seq<real>>, vars: map<Cc, seq<real>>)

  ghost predicate SameKeys(l: SsimLists) {
    l.ssim.Keys == l.vars.Keys
  }

  /** One iteration of the session loop: create empty lists for a cc seen for
      the first time, then append what the session's chunks contribute. */
  function AddSession(acc: SsimLists, cc: Cc, s: VideoSession, toDb: real -> real, dur: int): SsimLists
    requires SameKeys(acc) && Indexed(s)
  {
    var base := if cc in acc.ssim then acc else SsimLists(acc.ssim[cc := []], acc.vars[cc := []]);
    SsimLists(base.ssim[cc := base.ssim[cc] + SessionSsim(s, s.order, toDb)],
              base.vars[cc := base.vars[cc] + SessionVar(s, s.order, toDb, dur)])
  }

  /** The session loop of plot_ssim, started from `acc` on the sessions `d`. */
  function SsimFold(acc: SsimLists, d: seq<VideoSession>, ccOf: map<ExptId, Cc>,
                    toDb: real -> real, dur: int): (r: Result<SsimLists, RunError>)
    requires SameKeys(acc)
    requires forall s <- d :: Indexed(s)
    ensures r.Ok? ==> SameKeys(r.value)
    decreases |d|
  {
    if d == [] then Ok(acc)
    else if d[0].exptId !in ccOf then Err(UnknownExpt(d[0].exptId))
    else SsimFold(AddSession(acc, ccOf[d[0].exptId], d[0], toDb, dur), d[1..], ccOf, toDb, dur)
  }

  /** The chunk loop of plot_ssim for one session: appends the session's SSIM
      values and variations to the lists of its cc. */
  method AppendChunks(ssimList: seq<real>, varList: seq<real>, s: VideoSession, toDb: real -> real, dur: int)
    returns (ssimOut: seq<real>, varOut: seq<real>)
    requires Indexed(s)
    ensures ssimOut == ssimList + SessionSsim(s, s.order, toDb)
    ensures varOut == varList + SessionVar(s, s.order, toDb, dur)
  {
    ssimOut, varOut := ssimList, varList;
    var j := 0;
    while j < |s.order|
      invariant 0 <= j <= |s.order|
      invariant ssimOut == ssimList + SessionSsim(s, s.order[..j], toDb)
      invariant varOut == varList + SessionVar(s, s.order[..j], toDb, dur)
    {
      var videoTs := s.order[j];
      assert s.order[..j + 1][..j] == s.order[..j];
      var curr := s.ssimIndex[videoTs];
      if curr != 1.0 {
        var currDb := toDb(curr);
        ssimOut := ssimOut + [currDb];
        var prevTs := videoTs - dur;
        if prevTs in s.ssimIndex {
          var prev := s.ssimIndex[prevTs];
          if prev != 1.0 {
            var prevDb := toDb(prev);
            varOut := varOut + [Abs(currDb - prevDb)];
          }
        }
      }
      j := j + 1;
    }
    assert s.order[..j] == s.order;
  }

  /** plot_ssim without the two CDF plots: builds the SSIM and SSIM-variation
      lists of every cc. */
  method PlotSsim(d: seq<VideoSession>, ccOf: map<ExptId, Cc>, toDb: real -> real, dur: int)
    returns (r: Result<SsimLists, RunError>)
    requires forall s <- d :: Indexed(s)
    ensures r == SsimFold(SsimLists(map[], map[]), d, ccOf, toDb, dur)
    ensures r.Ok? <==> forall s <- d :: s.exptId in ccOf
    ensures r.Ok? ==> r.value.ssim.Keys == r.value.vars.Keys == VisitedCcs(d, ccOf)
    ensures r.Ok? ==> VarsNoLonger(r.value) && VarsNonNegative(r.value)
    ensures r.Ok? ==> forall cc <- r.value.ssim.Keys ::
                        && r.value.ssim[cc] == CcSsim(d, cc, ccOf, toDb)
                        && r.value.vars[cc] == CcVar(d, cc, ccOf, toDb, dur)
  {
    var ssimByCc: map<Cc, seq<real>> := map[];
    var ssimVarByCc: map<Cc, seq<real>> := map[];
    var i := 0;
    while i < |d|
      invariant 0 <= i <= |d|
      invariant ssimByCc.Keys == ssimVarByCc.Keys
      invariant SsimFold(SsimLists(map[], map[]), d, ccOf, toDb, dur)
             == SsimFold(SsimLists(ssimByCc, ssimVarByCc), d[i..], ccOf, toDb, dur)
    {
      var session := d[i];
      assert session in d && d[i..][1..] == d[i + 1..];
      if session.exptId !in ccOf {
        return Err(UnknownExpt(session.exptId));
      }
      var cc := ccOf[session.exptId];
      if cc !in ssimByCc {
        ssimByCc := ssimByCc[cc := []];
        ssimVarByCc := ssimVarByCc[cc := []];
      }
      var ssimList, varList := AppendChunks(ssimByCc[cc], ssimVarByCc[cc], session, toDb, dur);
      ssimByCc, ssimVarByCc := ssimByCc[cc := ssimList], ssimVarByCc[cc := varList];
      i := i + 1;
    }
    SsimFoldKeys(SsimLists(map[], map[]), d, ccOf, toDb, dur);
    SsimFoldBounds(SsimLists(map[], map[]), d, ccOf, toDb, dur);
    forall cc | cc in ssimByCc
      ensures ssimByCc[cc] == CcSsim(d, cc, ccOf, toDb) && ssimVarByCc[cc] == CcVar(d, cc, ccOf, toDb, dur)
    {
      SsimFoldContents(SsimLists(map[], map[]), d, ccOf, toDb, dur, cc);
    }
    return Ok(SsimLists(ssimByCc, ssimVarByCc));
  }

  /** The ccs of the sessions whose experiment has a configuration. */
  function VisitedCcs(d: seq<VideoSession>, ccOf: map<ExptId, Cc>): set<Cc> {
    set s <- d | s.exptId in ccOf :: ccOf[s.exptId]
  }

  /** Ends of the properties of plot_ssim's result; see the lemmas below. */
  ghost predicate VarsNoLonger(l: SsimLists) {
    SameKeys(l) && forall cc <- l.ssim.Keys :: |l.vars[cc]| <= |l.ssim[cc]|
  }

  ghost predicate VarsNonNegative(l: SsimLists) {
    forall cc <- l.vars.Keys, v <- l.vars[cc] :: v >= 0.0
  }

  /** The run goes through exactly when every session's experiment has a
      configuration, and then the cc keys of both dicts are those of `acc`
      plus the ccs of the visited sessions, whether or not any chunk of a
      session was kept. */
  lemma {:induction false} SsimFoldKeys(acc: SsimLists, d: seq<VideoSession>, ccOf: map<ExptId, Cc>,
                                        toDb: real -> real, dur: int)
    requires SameKeys(acc) && forall s <- d :: Indexed(s)
    ensures SsimFold(acc, d, ccOf, toDb, dur).Ok? <==> forall s <- d :: s.exptId in ccOf
    ensures SsimFold(acc, d, ccOf, toDb, dur).Ok? ==>
              SsimFold(acc, d, ccOf, toDb, dur).value.ssim.Keys == acc.ssim.Keys + VisitedCcs(d, ccOf)
              && SsimFold(acc, d, ccOf, toDb, dur).value.vars.Keys == acc.ssim.Keys + VisitedCcs(d, ccOf)
    decreases |d|
  {
    if d != [] && d[0].exptId in ccOf {
      assert d == [d[0]] + d[1..];
      assert forall s <- d[1..] :: s in d;
      SsimFoldKeys(AddSession(acc, ccOf[d[0].exptId], d[0], toDb, dur), d[1..], ccOf, toDb, dur);
      assert VisitedCcs(d, ccOf) == {ccOf[d[0].exptId]} + VisitedCcs(d[1..], ccOf);
    }
  }

  /** Per session, a variation is only appended right after an SSIM value. */
  lemma {:induction false} SessionVarNoLonger(s: VideoSession, tss: seq<int>, toDb: real -> real, dur: int)
    requires forall ts <- tss :: ts in s.ssimIndex
    ensures |SessionVar(s, tss, toDb, dur)| <= |SessionSsim(s, tss, toDb)|
    decreases |tss|
  {
    if tss != [] {
      SessionVarNoLonger(s, tss[..|tss| - 1], toDb, dur);
    }
  }

  /** Per session, every variation is an absolute difference. */
  lemma {:induction false} SessionVarNonNegative(s: VideoSession, tss: seq<int>, toDb: real -> real, dur: int)
    requires forall ts <- tss :: ts in s.ssimIndex
    ensures forall v <- SessionVar(s, tss, toDb, dur) :: v >= 0.0
    decreases |tss|
  {
    if tss != [] {
      SessionVarNonNegative(s, tss[..|tss| - 1], toDb, dur);
    }
  }

  /** Over the whole session loop, each cc has no more variations than SSIM
      values, and no variation is negative. */
  lemma {:induction false} SsimFoldBounds(acc: SsimLists, d: seq<VideoSession>, ccOf: map<ExptId, Cc>,
                                          toDb: real -> real, dur: int)
    requires VarsNoLonger(acc) && VarsNonNegative(acc)
    requires forall s <- d :: Indexed(s)
    ensures SsimFold(acc, d, ccOf, toDb, dur).Ok? ==>
              VarsNoLonger(SsimFold(acc, d, ccOf, toDb, dur).value)
              && VarsNonNegative(SsimFold(acc, d, ccOf, toDb, dur).value)
    decreases |d|
  {
    if d != [] && d[0].exptId in ccOf {
      var s := d[0];
      assert s in d;
      SessionVarNoLonger(s, s.order, toDb, dur);
      SessionVarNonNegative(s, s.order, toDb, dur);
      var next := AddSession(acc, ccOf[s.exptId], s, toDb, dur);
      assert VarsNoLonger(next);
      assert VarsNonNegative(next);
      assert forall x <- d[1..] :: x in d;
      SsimFoldBounds(next, d[1..], ccOf, toDb, dur);
    }
  }

  /** The SSIM values of the sessions of `cc`, session after session. */
  function CcSsim(d: seq<VideoSession>, cc: Cc, ccOf: map<ExptId, Cc>, toDb: real -> real): seq<real>
    requires forall s <- d :: Indexed(s) && s.exptId in ccOf
    decreases |d|
  {
    if d == [] then []
    else
      assert d[0] in d && forall s <- d[1..] :: s in d;
      assert Indexed(d[0]);
      (if ccOf[d[0].exptId] == cc then SessionSsim(d[0], d[0].order, toDb) else [])
      + CcSsim(d[1..], cc, ccOf, toDb)
  }

  /** The SSIM variations of the sessions of `cc`, session after session. */
  function CcVar(d: seq<VideoSession>, cc: Cc, ccOf: map<ExptId, Cc>, toDb: real -> real, dur: int): seq<real>
    requires forall s <- d :: Indexed(s) && s.exptId in ccOf
    decreases |d|
  {
    if d == [] then []
    else
      assert d[0] in d && forall s <- d[1..] :: s in d;
      assert Indexed(d[0]);
      (if ccOf[d[0].exptId] == cc then SessionVar(d[0], d[0].order, toDb, dur) else [])
      + CcVar(d[1..], cc, ccOf, toDb, dur)
  }

  /** The list a dict holds for `cc`, or the empty one it is given when `cc`
      is first seen. */
  function Prior(m: map<Cc, seq<real>>, cc: Cc): seq<real> {
    if cc in m then m[cc] else []
  }

  /** The lists of a cc are those it had before, followed by the SSIM values
      (and the variations) of its sessions in session order. Which ccs have
      lists is stated by SsimFoldKeys. */
  lemma {:induction false} SsimFoldContents(acc: SsimLists, d: seq<VideoSession>, ccOf: map<ExptId, Cc>,
                                            toDb: real -> real, dur: int, cc: Cc)
    requires SameKeys(acc)
    requires forall s <- d :: Indexed(s) && s.exptId in ccOf
    ensures SsimFold(acc, d, ccOf, toDb, dur).Ok?
    ensures var l := SsimFold(acc, d, ccOf, toDb, dur).value;
            cc in l.ssim ==>
              && l.ssim[cc] == Prior(acc.ssim, cc) + CcSsim(d, cc, ccOf, toDb)
              && l.vars[cc] == Prior(acc.vars, cc) + CcVar(d, cc, ccOf, toDb, dur)
    decreases |d|
  {
    if d != [] {
      var s := d[0];
      assert s in d && Indexed(s);
      assert forall x <- d[1..] :: x in d;
      var next := AddSession(acc, ccOf[s.exptId], s, toDb, dur);
      assert SsimFold(acc, d, ccOf, toDb, dur) == SsimFold(next, d[1..], ccOf, toDb, dur);
      SsimFoldContents(next, d[1..], ccOf, toDb, dur, cc);
      var l := SsimFold(acc, d, ccOf, toDb, dur).value;
      var own := ccOf[s.exptId] == cc;
      var ssimOwn := if own then SessionSsim(s, s.order, toDb) else [];
      var varOwn := if own then SessionVar(s, s.order, toDb, dur) else [];
      assert CcSsim(d, cc, ccOf, toDb) == ssimOwn + CcSsim(d[1..], cc, ccOf, toDb);
      assert CcVar(d, cc, ccOf, toDb, dur) == varOwn + CcVar(d[1..], cc, ccOf, toDb, dur);
      assert Prior(next.ssim, cc) == Prior(acc.ssim, cc) + ssimOwn;
      assert Prior(next.vars, cc) == Prior(acc.vars, cc) + varOwn;
      if cc in l.ssim {
        assert l.ssim[cc] == Prior(acc.ssim, cc) + ssimOwn + CcSsim(d[1..], cc, ccOf, toDb);
        assert l.vars[cc] == Prior(acc.vars, cc) + varOwn + CcVar(d[1..], cc, ccOf, toDb, dur);
        AppendAssoc(Prior(acc.ssim, cc), ssimOwn, CcSsim(d[1..], cc, ccOf, toDb));
        AppendAssoc(Prior(acc.vars, cc), varOwn, CcVar(d[1..], cc, ccOf, toDb, dur));
      }
    } else {
      assert Prior(acc.ssim, cc) + [] == Prior(acc.ssim, cc);
      assert Prior(acc.vars, cc) + [] == Prior(acc.vars, cc);
    }
  }

  /** A chunk of index exactly 1 appends nothing, so a session all of whose
      chunks have index 1 contributes no SSIM value and no variation. */
  lemma {:induction false} AllSkippedSession(s: VideoSession, tss: seq<int>, toDb: real -> real, dur: int)
    requires forall ts <- tss :: ts in s.ssimIndex && s.ssimIndex[ts] == 1.0
    ensures SessionSsim(s, tss, toDb) == [] && SessionVar(s, tss, toDb, dur) == []
    decreases |tss|
  {
    if tss != [] {
      assert forall ts <- tss[..|tss| - 1] :: ts in tss;
      AllSkippedSession(s, tss[..|tss| - 1], toDb, dur);
    }
  }

  /** A cc all of whose chunks have index exactly 1 keeps empty lists. */
  lemma {:induction false} AllSkippedCc(d: seq<VideoSession>, cc: Cc, ccOf: map<ExptId, Cc>, toDb: real -> real, dur: int)
    requires forall s <- d :: Indexed(s) && s.exptId in ccOf
    requires forall s <- d :: ccOf[s.exptId] == cc ==>
               forall ts <- s.order :: ts in s.ssimIndex && s.ssimIndex[ts] == 1.0
    ensures CcSsim(d, cc, ccOf, toDb) == [] && CcVar(d, cc, ccOf, toDb, dur) == []
    decreases |d|
  {
    if d != [] {
      assert d[0] in d;
      assert forall s <- d[1..] :: s in d;
      if ccOf[d[0].exptId] == cc {
        AllSkippedSession(d[0], d[0].order, toDb, dur);
      }
      AllSkippedCc(d[1..], cc, ccOf, toDb, dur);
    }
  }

  /** The iterated timestamps whose chunk has an index other than 1. */
  ghost function ValidChunks(s: VideoSession, tss: seq<int>): set<int>
    requires forall ts <- tss :: ts in s.ssimIndex
  {
    set ts <- tss | s.ssimIndex[ts] != 1.0
  }

  lemma ValidChunksSnoc(s: VideoSession, init: seq<int>, last: int)
    requires forall ts <- init :: ts in s.ssimIndex
    requires last in s.ssimIndex
    ensures ValidChunks(s, init + [last])
         == ValidChunks(s, init) + (if s.ssimIndex[last] != 1.0 then {last} else {})
  {
  }

  /** Iterating distinct timestamps, every chunk whose index is not 1
      contributes exactly one SSIM value. */
  lemma {:induction false} SessionSsimCount(s: VideoSession, tss: seq<int>, toDb: real -> real)
    requires forall ts <- tss :: ts in s.ssimIndex
    requires forall i, j :: 0 <= i < j < |tss| ==> tss[i] != tss[j]
    ensures |SessionSsim(s, tss, toDb)| == |ValidChunks(s, tss)|
    decreases |tss|
  {
    if tss != [] {
      var init, last := tss[..|tss| - 1], tss[|tss| - 1];
      assert tss == init + [last];
      assert forall ts <- init :: ts in tss;
      assert forall i, j :: 0 <= i < j < |init| ==> init[i] != init[j] by {
        forall i, j | 0 <= i < j < |init| ensures init[i] != init[j] {
          assert init[i] == tss[i] && init[j] == tss[j];
        }
      }
      SessionSsimCount(s, init, toDb);
      assert last !in ValidChunks(s, init) by {
        forall k | 0 <= k < |init| ensures init[k] != last {
          assert init[k] == tss[k];
        }
      }
      ValidChunksSnoc(s, init, last);
    }
  }

  /** Over a session iterated as a dict is, the SSIM list gains one value per
      chunk whose index is not 1. */
  lemma SessionSsimPerChunk(s: VideoSession, toDb: real -> real)
    requires Enumerates(s)
    ensures Indexed(s)
    ensures |SessionSsim(s, s.order, toDb)| == |set ts <- s.ssimIndex.Keys | s.ssimIndex[ts] != 1.0|
  {
    SessionSsimCount(s, s.order, toDb);
    forall ts ensures ts in s.order <==> ts in s.ssimIndex.Keys {
    }
    assert ValidChunks(s, s.order) == (set ts <- s.ssimIndex.Keys | s.ssimIndex[ts] != 1.0);
  }

  /** Every SSIM value of a session comes from one of its chunks whose index
      is not 1. */
  lemma {:induction false} SsimProvenance(s: VideoSession, tss: seq<int>, toDb: real -> real, j: int)
    requires forall ts <- tss :: ts in s.ssimIndex
    requires 0 <= j < |SessionSsim(s, tss, toDb)|
    ensures exists k :: 0 <= k < |tss| && s.ssimIndex[tss[k]] != 1.0
                        && SessionSsim(s, tss, toDb)[j] == toDb(s.ssimIndex[tss[k]])
    decreases |tss|
  {
    var init := tss[..|tss| - 1];
    if j < |SessionSsim(s, init, toDb)| {
      SsimProvenance(s, init, toDb, j);
      var k :| 0 <= k < |init| && s.ssimIndex[init[k]] != 1.0
               && SessionSsim(s, init, toDb)[j] == toDb(s.ssimIndex[init[k]]);
      assert tss[k] == init[k];
    }
  }

  /** Every variation of a session comes from a chunk whose predecessor, one
      video duration earlier, exists in the session, both chunks being valid;
      its value is their absolute difference in dB. */
  lemma {:induction false} VariationProvenance(s: VideoSession, tss: seq<int>, toDb: real -> real, dur: int, j: int)
    requires forall ts <- tss :: ts in s.ssimIndex
    requires 0 <= j < |SessionVar(s, tss, toDb, dur)|
    ensures exists k :: 0 <= k < |tss| && HasVariation(s, tss[k], dur)
                        && SessionVar(s, tss, toDb, dur)[j] == Variation(s, tss[k], toDb, dur)
    decreases |tss|
  {
    var init := tss[..|tss| - 1];
    if j < |SessionVar(s, init, toDb, dur)| {
      VariationProvenance(s, init, toDb, dur, j);
      var k :| 0 <= k < |init| && HasVariation(s, init[k], dur)
               && SessionVar(s, init, toDb, dur)[j] == Variation(s, init[k], toDb, dur);
      assert tss[k] == init[k];
    }
  }

  /** `tss` with every occurrence of `t` removed. */
  function Without(tss: seq<int>, t: int): (r: seq<int>)
    ensures forall x <- r :: x in tss && x != t
    decreases |tss|
  {
    if tss == [] then []
    else if tss[|tss| - 1] == t then Without(tss[..|tss| - 1], t)
    else Without(tss[..|tss| - 1], t) + [tss[|tss| - 1]]
  }

  /** The session without its chunk at `t`. */
  function DropChunk(s: VideoSession, t: int): (r: VideoSession)
    ensures Indexed(s) ==> Indexed(r)
  {
    VideoSession(s.exptId, Without(s.order, t), s.ssimIndex - {t})
  }

  /** Once the chunk at `t`, of index 1, is dropped, any other chunk appends
      what it appended before. */
  lemma ChunkUnaffected(s: VideoSession, t: int, x: int, toDb: real -> real, dur: int)
    requires t in s.ssimIndex && s.ssimIndex[t] == 1.0
    requires x in s.ssimIndex && x != t
    ensures x in DropChunk(s, t).ssimIndex
    ensures ChunkSsim(DropChunk(s, t), x, toDb) == ChunkSsim(s, x, toDb)
    ensures ChunkVar(DropChunk(s, t), x, toDb, dur) == ChunkVar(s, x, toDb, dur)
  {
  }

  /** A chunk whose index is exactly 1 contributes nothing: the session
      without it yields the same SSIM values and the same variations, also
      for the chunk right after it, whose predecessor is then missing
      instead of invalid. */
  lemma {:induction false} IndexOneChunkInert(s: VideoSession, tss: seq<int>, t: int, toDb: real -> real, dur: int)
    requires forall ts <- tss :: ts in s.ssimIndex
    requires t in s.ssimIndex && s.ssimIndex[t] == 1.0
    ensures SessionSsim(DropChunk(s, t), Without(tss, t), toDb) == SessionSsim(s, tss, toDb)
    ensures SessionVar(DropChunk(s, t), Without(tss, t), toDb, dur) == SessionVar(s, tss, toDb, dur)
    decreases |tss|
  {
    if tss != [] {
      var init, last := tss[..|tss| - 1], tss[|tss| - 1];
      assert forall ts <- init :: ts in tss;
      IndexOneChunkInert(s, init, t, toDb, dur);
      var s' := DropChunk(s, t);
      var w := Without(init, t);
      if last == t {
        assert Without(tss, t) == w;
      } else {
        var w' := w + [last];
        assert Without(tss, t) == w';
        assert w'[..|w'| - 1] == w && w'[|w'| - 1] == last;
        ChunkUnaffected(s, t, last, toDb, dur);
        assert SessionSsim(s', w', toDb) == SessionSsim(s', w, toDb) + ChunkSsim(s', last, toDb);
        assert SessionVar(s', w', toDb, dur) == SessionVar(s', w, toDb, dur) + ChunkVar(s', last, toDb, dur);
      }
    }
  }

  /** Dropping a chunk of index 1 from any session leaves plot_ssim's result
      unchanged. */
  lemma {:induction false} IndexOneChunkInertInRun(acc: SsimLists, d: seq<VideoSession>, i: int, t: int,
                                                   ccOf: map<ExptId, Cc>, toDb: real -> real, dur: int)
    requires SameKeys(acc) && forall s <- d :: Indexed(s)
    requires 0 <= i < |d| && t in d[i].ssimIndex && d[i].ssimIndex[t] == 1.0
    ensures forall s <- d[i := DropChunk(d[i], t)] :: Indexed(s)
    ensures SsimFold(acc, d[i := DropChunk(d[i], t)], ccOf, toDb, dur) == SsimFold(acc, d, ccOf, toDb, dur)
    decreases |d|
  {
    var d' := d[i := DropChunk(d[i], t)];
    assert Indexed(DropChunk(d[i], t));
    assert forall s <- d' :: s in d || s == DropChunk(d[i], t);
    assert forall s <- d[1..] :: s in d;
    if d[0].exptId in ccOf {
      var cc := ccOf[d[0].exptId];
      if i == 0 {
        IndexOneChunkInert(d[0], d[0].order, t, toDb, dur);
        assert d'[1..] == d[1..];
      } else {
        assert d'[1..] == d[1..][i - 1 := DropChunk(d[i], t)];
        IndexOneChunkInertInRun(AddSession(acc, cc, d[0], toDb, dur), d[1..], i - 1, t, ccOf, toDb, dur);
      }
    }
  }

  // ---------------------------------------------------------------------------
  // Rebuffer rates (plot_rebuf_rate) and their common range (plot_rebuf_rate_cdf)
  // ---------------------------------------------------------------------------

  /** One session of the buffer data: its experiment and its reconstructed
      rebuffer and play times. */
  datatype BufferSession = BufferSession(exptId: ExptId, rebuf: real, play: real)

  /** The session's rebuffer time as a percentage of its play time. */
  function RebufRate(b: BufferSession): (rate: real)
    requires b.play != 0.0
    ensures rate * b.play == 100.0 * b.rebuf
    ensures 0.0 <= b.rebuf <= b.play ==> 0.0 <= rate <= 100.0
  {
    100.0 * b.rebuf / b.play
  }

  /** The session loop of plot_rebuf_rate, started from `acc`. */
  function RatesFold(acc: map<Cc, seq<real>>, d: seq<BufferSession>, ccOf: map<ExptId, Cc>)
    : Result<map<Cc, seq<real>>, RunError>
    decreases |d|
  {
    if d == [] then Ok(acc)
    else if d[0].exptId !in ccOf then Err(UnknownExpt(d[0].exptId))
    else if d[0].play == 0.0 then Err(ZeroPlay(d[0].exptId))
    else
      var cc := ccOf[d[0].exptId];
      var list := if cc in acc then acc[cc] else [];
      RatesFold(acc[cc := list + [RebufRate(d[0])]], d[1..], ccOf)
  }

  /** The rates of the sessions of `cc`, in session order. */
  function RatesOf(d: seq<BufferSession>, cc: Cc, ccOf: map<ExptId, Cc>): seq<real>
    requires forall b <- d :: b.exptId in ccOf && b.play != 0.0
    decreases |d|
  {
    if d == [] then []
    else
      assert forall b <- d[1..] :: b in d;
      (if ccOf[d[0].exptId] == cc then [RebufRate(d[0])] else []) + RatesOf(d[1..], cc, ccOf)
  }

  /** The list of a cc is the one it had before, followed by the rates of its
      sessions in session order. Which ccs have lists is stated by
      RatesFoldCounts. */
  lemma {:induction false} RatesFoldContents(acc: map<Cc, seq<real>>, d: seq<BufferSession>,
                                             ccOf: map<ExptId, Cc>, cc: Cc)
    requires forall b <- d :: b.exptId in ccOf && b.play != 0.0
    ensures RatesFold(acc, d, ccOf).Ok?
    ensures var m := RatesFold(acc, d, ccOf).value;
            cc in m ==> m[cc] == Prior(acc, cc) + RatesOf(d, cc, ccOf)
    decreases |d|
  {
    if d != [] {
      var b := d[0];
      assert b in d;
      assert forall x <- d[1..] :: x in d;
      var c := ccOf[b.exptId];
      var next := acc[c := Prior(acc, c) + [RebufRate(b)]];
      assert RatesFold(acc, d, ccOf) == RatesFold(next, d[1..], ccOf);
      RatesFoldContents(next, d[1..], ccOf, cc);
      var own := if c == cc then [RebufRate(b)] else [];
      assert RatesOf(d, cc, ccOf) == own + RatesOf(d[1..], cc, ccOf);
      assert Prior(next, cc) == Prior(acc, cc) + own;
      AppendAssoc(Prior(acc, cc), own, RatesOf(d[1..], cc, ccOf));
    } else {
      assert Prior(acc, cc) + [] == Prior(acc, cc);
    }
  }

  /** `xMin` and `xMax` are the least and the greatest value over all series,
      and are absent exactly when there is no series. */
  ghost predicate IsRange(data: map<Cc, seq<real>>, xMin: Option<real>, xMax: Option<real>) {
    && (xMin.None? <==> data == map[])
    && (xMax.None? <==> data == map[])
    && (xMin.Some? ==> (exists cc <- data.Keys :: xMin.value in data[cc])
                       && forall cc <- data.Keys, v <- data[cc] :: xMin.value <= v)
    && (xMax.Some? ==> (exists cc <- data.Keys :: xMax.value in data[cc])
                       && forall cc <- data.Keys, v <- data[cc] :: v <= xMax.value)
  }

  /** The rates of every cc and the range of their histograms. */
  datatype RateCdf = RateCdf(rates: map<Cc, seq<real>>, xMin: Option<real>, xMax: Option<real>)

  /** plot_rebuf_rate: one rate per session, grouped by cc, followed by the
      range computation of plot_rebuf_rate_cdf. */
  method PlotRebufRate(d: seq<BufferSession>, ccOf: map<ExptId, Cc>) returns (r: Result<RateCdf, RunError>)
    ensures RatesFold(map[], d, ccOf).Err? ==> r == Err(RatesFold(map[], d, ccOf).error)
    ensures RatesFold(map[], d, ccOf).Ok? ==> r.Ok? && r.value.rates == RatesFold(map[], d, ccOf).value
    ensures r.Ok? ==> IsRange(r.value.rates, r.value.xMin, r.value.xMax)
    ensures r.Ok? ==> r.value.rates.Keys == (set b <- d | b.exptId in ccOf :: ccOf[b.exptId])
    ensures r.Ok? ==> TotalEntries(r.value.rates) == |d|
    ensures r.Ok? <==> forall b <- d :: b.exptId in ccOf && b.play != 0.0
    ensures r.Ok? ==> forall cc <- r.value.rates.Keys :: r.value.rates[cc] == RatesOf(d, cc, ccOf)
  {
    var rebufRateByCc: map<Cc, seq<real>> := map[];
    var i := 0;
    while i < |d|
      invariant 0 <= i <= |d|
      invariant forall cc <- rebufRateByCc.Keys :: rebufRateByCc[cc] != []
      invariant RatesFold(map[], d, ccOf) == RatesFold(rebufRateByCc, d[i..], ccOf)
    {
      var session := d[i];
      assert d[i..][1..] == d[i + 1..];
      if session.exptId !in ccOf {
        return Err(UnknownExpt(session.exptId));
      }
      var cc := ccOf[session.exptId];
      ghost var before := rebufRateByCc;
      if cc !in rebufRateByCc {
        rebufRateByCc := rebufRateByCc[cc := []];
      }
      if session.play == 0.0 {
        return Err(ZeroPlay(session.exptId));
      }
      ghost var list := if cc in before then before[cc] else [];
      rebufRateByCc := rebufRateByCc[cc := rebufRateByCc[cc] + [100.0 * session.rebuf / session.play]];
      assert rebufRateByCc == before[cc := list + [RebufRate(session)]];
      i := i + 1;
    }
    RatesFoldCounts(map[], d, ccOf);
    forall cc | cc in rebufRateByCc
      ensures rebufRateByCc[cc] == RatesOf(d, cc, ccOf)
    {
      RatesFoldContents(map[], d, ccOf, cc);
    }
    var xMin, xMax := RebufRateRange(rebufRateByCc);
    return Ok(RateCdf(rebufRateByCc, xMin, xMax));
  }

  /** np.min of a non-empty series. */
  function SeriesMin(s: seq<real>): (m: real)
    requires s != []
    ensures m in s && forall v <- s :: m <= v
    decreases |s|
  {
    if |s| == 1 then s[0]
    else
      var rest := SeriesMin(s[1..]);
      assert forall v <- s :: v == s[0] || v in s[1..];
      if s[0] <= rest then s[0] else rest
  }

  /** np.max of a non-empty series. */
  function SeriesMax(s: seq<real>): (m: real)
    requires s != []
    ensures m in s && forall v <- s :: v <= m
    decreases |s|
  {
    if |s| == 1 then s[0]
    else
      var rest := SeriesMax(s[1..]);
      assert forall v <- s :: v == s[0] || v in s[1..];
      if s[0] >= rest then s[0] else rest
  }

  /** The fold of plot_rebuf_rate_cdf over the series of every cc: np.min and
      np.max raise on an empty series, so each series is non-empty. */
  method RebufRateRange(data: map<Cc, seq<real>>) returns (xMin: Option<real>, xMax: Option<real>)
    requires forall cc <- data.Keys :: data[cc] != []
    ensures IsRange(data, xMin, xMax)
  {
    xMin, xMax := None, None;
    var rest := data.Keys;
    while rest != {}
      invariant rest <= data.Keys
      invariant xMin.None? <==> rest == data.Keys
      invariant xMax.None? <==> rest == data.Keys
      invariant xMin.Some? ==> (exists cc <- data.Keys :: xMin.value in data[cc])
                               && forall cc <- data.Keys - rest, v <- data[cc] :: xMin.value <= v
      invariant xMax.Some? ==> (exists cc <- data.Keys :: xMax.value in data[cc])
                               && forall cc <- data.Keys - rest, v <- data[cc] :: v <= xMax.value
      decreases rest
    {
      var cc :| cc in rest;
      var dataMin := SeriesMin(data[cc]);
      if xMin.None? || dataMin < xMin.value {
        xMin := Some(dataMin);
      }
      var dataMax := SeriesMax(data[cc]);
      if xMax.None? || dataMax > xMax.value {
        xMax := Some(dataMax);
      }
      rest := rest - {cc};
    }
    assert data.Keys - rest == data.Keys;
    assert xMin.None? ==> data.Keys == {};
  }

  /** The total number of values over all series. */
  ghost function TotalEntries(m: map<Cc, seq<real>>): nat
    decreases |m|
  {
    if m == map[] then 0
    else
      var k := AnyKey(m);
      |m[k]| + TotalEntries(m - {k})
  }

  ghost function AnyKey(m: map<Cc, seq<real>>): (k: Cc)
    requires m != map[]
    ensures k in m
  {
    var k :| k in m; k
  }

  /** TotalEntries does not depend on which key is taken first. */
  lemma {:induction false} TotalEntriesRemove(m: map<Cc, seq<real>>, k: Cc)
    requires k in m
    ensures TotalEntries(m) == |m[k]| + TotalEntries(m - {k})
    decreases |m|
  {
    var k' := AnyKey(m);
    if k' != k {
      assert k in m - {k'} && k' in m - {k};
      TotalEntriesRemove(m - {k'}, k);
      TotalEntriesRemove(m - {k}, k');
      assert m - {k'} - {k} == m - {k} - {k'};
    }
  }

  /** Every session of plot_rebuf_rate's input yields exactly one rate, every
      cc it meets gets a list, and no list is empty. */
  lemma {:induction false} RatesFoldCounts(acc: map<Cc, seq<real>>, d: seq<BufferSession>, ccOf: map<ExptId, Cc>)
    requires forall cc <- acc.Keys :: acc[cc] != []
    ensures RatesFold(acc, d, ccOf).Ok? <==>
              forall b <- d :: b.exptId in ccOf && b.play != 0.0
    ensures RatesFold(acc, d, ccOf).Ok? ==>
              var m := RatesFold(acc, d, ccOf).value;
              && m.Keys == acc.Keys + (set b <- d | b.exptId in ccOf :: ccOf[b.exptId])
              && (forall cc <- m.Keys :: m[cc] != [])
              && TotalEntries(m) == TotalEntries(acc) + |d|
    decreases |d|
  {
    if d != [] && d[0].exptId in ccOf && d[0].play != 0.0 {
      var cc := ccOf[d[0].exptId];
      var list := if cc in acc then acc[cc] else [];
      var next := acc[cc := list + [RebufRate(d[0])]];
      if cc in acc {
        TotalEntriesRemove(acc, cc);
        TotalEntriesRemove(next, cc);
        assert next - {cc} == acc - {cc};
      } else {
        TotalEntriesRemove(next, cc);
        assert next - {cc} == acc;
      }
      assert d == [d[0]] + d[1..];
      assert forall b <- d[1..] :: b in d;
      RatesFoldCounts(next, d[1..], ccOf);
      assert (set b <- d | b.exptId in ccOf :: ccOf[b.exptId])
          == {cc} + (set b <- d[1..] | b.exptId in ccOf :: ccOf[b.exptId]);
    }
  }
}
