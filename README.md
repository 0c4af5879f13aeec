# Aggregation of the puffer SSIM and rebuffer reports

This project models, in Dafny, the aggregation logic of two report scripts of
the puffer video-streaming experiments:

- `src/scripts/plot_bbr_vs_cubic.py` groups sessions by congestion control
  (cc). Per cc it builds the list of chunk SSIM values in dB and the list of
  absolute SSIM variations between a chunk and the chunk one video duration
  earlier; chunks whose SSIM index is exactly 1 are skipped. It then builds
  one rebuffer rate `100 * rebuf / play` per session and folds all rates into
  the common minimum and maximum used as the histogram range.
- `src/scripts/plot_ssim_rebuffer.py` groups `video_acked` points by
  (abr, cc) scheme into a `[sum, count]` pair that is threaded through
  successive time windows. It then turns every scheme with a non-zero count
  into the dB value of its mean linear SSIM index. It feeds the
  `client_buffer` points of every window to the stream processor and calls
  `done_data_points` once. It stops when either result is empty or when an
  SSIM scheme has no rebuffer record. Each plotted point has
  `x = 100 * rebuf_minute / ceil(total_play / 60)`, and the x-axis limits are
  clamped to [0, 100].

Modules: `Common` (Option, Result, window flattening), `BbrVsCubic` and
`SsimRebuffer`, one per script. Loops of the scripts are `method`s with
`while` loops proved against head-recursive fold functions (`SsimFold`,
`RatesFold`, `Accumulate`, `CollectWindows`). The dict that `do_collect_ssim`
updates in place across windows is the field of the class `SsimTable`; the
stream processor is the class `BufferStream`. The lemmas state what the
folds compute.

Collaborators whose code is not part of this model are parameters:
- The experiment configuration lookup (`retrieve_expt_config`, then
  `expt_config['cc']` or `get_abr_cc`) is a map from experiment id to cc or
  scheme. An id missing from it stops the run (`UnknownExpt`).
- `get_ssim_index` is a function from a point to `Option<real>`.
- `ssim_index_to_db` is an arbitrary function `toDb: real -> real`; no dB
  formula is assumed.
- `VIDEO_DURATION` is the integer parameter `dur`.
- The stream processor's reconstruction is a function `reconstruct` from the
  sequence of received points to the per-scheme records.
- The x-axis limits that matplotlib picks before the clamp are the parameter
  `autoXLim`.

Where the design description and the code differ, the model follows the code:
- Only schemes of the SSIM dict must exist in the rebuffer dict. A scheme
  present only in the rebuffer dict is not an error and is not plotted.
- `plot_ssim_rebuffer.py` sums linear SSIM indices and converts their mean to
  dB. It applies no "index exactly 1" exclusion of its own; only
  `plot_bbr_vs_cubic.py` does.
- A scheme whose points carry no SSIM index keeps `[0.0, 0]` after the
  averaging step. It is only warned about, not removed.
- A session with zero play time is not flagged and skipped in
  `plot_bbr_vs_cubic.py`. Line 177 divides by `play`, which raises
  ZeroDivisionError, so the model stops the run with `ZeroPlay`.

## Model

| member | source | states |
|---|---|---|
| `BbrVsCubic.SsimFold` | src/scripts/plot_bbr_vs_cubic.py:86-117 | the session loop of plot_ssim keeps `ssim_by_cc` and `ssim_var_by_cc` on the same key set |
| `BbrVsCubic.AppendChunks` | src/scripts/plot_bbr_vs_cubic.py:95-117 | the chunk loop appends to a cc's two lists exactly the session's SSIM values and variations, in timestamp-iteration order |
| `BbrVsCubic.PlotSsim` | src/scripts/plot_bbr_vs_cubic.py:82-117 | plot_ssim computes the session fold; it succeeds iff every session's experiment has a configuration; both dicts then have exactly the ccs of the visited sessions as keys; each cc's lists are the SSIM values and variations of its own sessions, in session order; per cc the variation list is no longer than the SSIM list and holds no negative value |
| `BbrVsCubic.SsimFoldContents` | src/scripts/plot_bbr_vs_cubic.py:86-117 | a cc's two lists are what they held before, followed by the SSIM values (resp. variations) of exactly that cc's sessions, session after session |
| `BbrVsCubic.AllSkippedSession` | src/scripts/plot_bbr_vs_cubic.py:99-101 | a session all of whose chunks have index exactly 1 appends no SSIM value and no variation |
| `BbrVsCubic.AllSkippedCc` | src/scripts/plot_bbr_vs_cubic.py:91-101 | a cc all of whose chunks have index exactly 1 gets no SSIM value and no variation, so its lists (created at lines 91-93) stay empty |
| `BbrVsCubic.SessionSsimCount` | src/scripts/plot_bbr_vs_cubic.py:95-104 | iterating distinct timestamps, the SSIM list gains exactly one value per chunk whose index is not 1 |
| `BbrVsCubic.SessionSsimPerChunk` | src/scripts/plot_bbr_vs_cubic.py:95-104 | iterating the session's timestamp dict, which visits each timestamp once, appends as many SSIM values as the session has chunks of index other than 1 |
| `BbrVsCubic.SsimFoldKeys` | src/scripts/plot_bbr_vs_cubic.py:86-93 | the key set of both dicts grows by the cc of every visited session, even when all of its chunks are skipped; the loop fails iff some experiment has no configuration |
| `BbrVsCubic.SessionVarNoLonger` | src/scripts/plot_bbr_vs_cubic.py:103-117 | within a session, a variation is appended only after an SSIM value, so there are no more variations than SSIM values |
| `BbrVsCubic.SessionVarNonNegative` | src/scripts/plot_bbr_vs_cubic.py:116 | every variation is an absolute difference, hence non-negative |
| `BbrVsCubic.SsimFoldBounds` | src/scripts/plot_bbr_vs_cubic.py:91-117 | over all sessions, per cc `len(var list) <= len(ssim list)` and all variations are non-negative |
| `BbrVsCubic.SsimProvenance` | src/scripts/plot_bbr_vs_cubic.py:98-104 | every SSIM value of a session is the dB value of one of its chunks whose index is not 1 |
| `BbrVsCubic.VariationProvenance` | src/scripts/plot_bbr_vs_cubic.py:106-117 | every variation comes from a chunk whose predecessor `video_ts - VIDEO_DURATION` exists in the same session, neither index being 1, and equals the absolute difference of their dB values |
| `BbrVsCubic.ChunkUnaffected` | src/scripts/plot_bbr_vs_cubic.py:99-113 | removing a chunk of index 1 does not change what any other chunk appends |
| `BbrVsCubic.IndexOneChunkInert` | src/scripts/plot_bbr_vs_cubic.py:99-113 | a chunk of index exactly 1 adds nothing to either list: the session without it yields the same SSIM values and variations |
| `BbrVsCubic.IndexOneChunkInertInRun` | src/scripts/plot_bbr_vs_cubic.py:86-117 | dropping a chunk of index 1 from any session leaves the whole result of plot_ssim unchanged |
| `BbrVsCubic.RebufRate` | src/scripts/plot_bbr_vs_cubic.py:177 | the per-session rate times the play time is 100 times the rebuffer time; it lies in [0, 100] when `0 <= rebuf <= play` |
| `BbrVsCubic.PlotRebufRate` | src/scripts/plot_bbr_vs_cubic.py:166-180 | plot_rebuf_rate computes the rate fold; it fails on the first session with an unknown experiment or zero play time, and succeeds iff there is none; otherwise the keys are the visited ccs, each cc's list is the rates of its own sessions in session order, the total number of rates equals the number of sessions, and the range is the one of plot_rebuf_rate_cdf |
| `BbrVsCubic.RatesFoldContents` | src/scripts/plot_bbr_vs_cubic.py:169-177 | a cc's list is the earlier one followed by the rates of exactly that cc's sessions, in session order (which ccs have lists is stated by RatesFoldCounts) |
| `BbrVsCubic.RatesFoldCounts` | src/scripts/plot_bbr_vs_cubic.py:169-177 | exactly one rate is appended per session: the total number of entries across ccs grows by the number of sessions, every visited cc gets a non-empty list, and the fold fails iff some session has an unknown experiment or zero play |
| `BbrVsCubic.SeriesMin` | src/scripts/plot_bbr_vs_cubic.py:132 | the minimum of a non-empty series is one of its values and no greater than any |
| `BbrVsCubic.SeriesMax` | src/scripts/plot_bbr_vs_cubic.py:136 | the maximum of a non-empty series is one of its values and no smaller than any |
| `BbrVsCubic.RebufRateRange` | src/scripts/plot_bbr_vs_cubic.py:129-138 | after the fold, `x_min` is the least and `x_max` the greatest value over all series, and both are None exactly when there is no series |
| `SsimRebuffer.Accumulate` | src/scripts/plot_ssim_rebuffer.py:37-48 | the point loop keeps every entry a `[sum, count]` pair and fails only on an experiment without a configuration |
| `SsimRebuffer.CollectWindows` | src/scripts/plot_ssim_rebuffer.py:54-55 | the window loop keeps every entry a `[sum, count]` pair |
| `SsimRebuffer.SsimTable.DoCollectSsim` | src/scripts/plot_ssim_rebuffer.py:30-48 | do_collect_ssim updates the shared dict in place to the point fold of its window |
| `SsimRebuffer.SsimTable.Average` | src/scripts/plot_ssim_rebuffer.py:58-66 | the averaging loop overwrites each entry with a non-zero count by `ssim_index_to_db(sum/count)` and leaves zero-count entries untouched |
| `SsimRebuffer.CollectSsim` | src/scripts/plot_ssim_rebuffer.py:51-68 | collect_ssim threads one dict through all windows and averages it; it succeeds iff every point's experiment has a configuration, and its keys are then the schemes of all points |
| `SsimRebuffer.AccumulateKeys` | src/scripts/plot_ssim_rebuffer.py:37-43 | the point loop succeeds iff every point's experiment has a configuration, and then creates a key for every scheme met, even by a point without an index |
| `SsimRebuffer.AccumulateTotals` | src/scripts/plot_ssim_rebuffer.py:37-48 | each scheme's count grows by the number of its points whose SSIM index is not None and its sum by the sum of those indices |
| `SsimRebuffer.AccumulateAppend` | src/scripts/plot_ssim_rebuffer.py:37-48 | processing two point sequences one after the other is processing their concatenation |
| `SsimRebuffer.WindowsAsOneStream` | src/scripts/plot_ssim_rebuffer.py:54-55 | threading the same dict through successive windows gives the dict of a single pass over all windows' points |
| `SsimRebuffer.SumCountConcat` | src/scripts/plot_ssim_rebuffer.py:45-48 | a scheme's sum and count over two runs of points together are the sums of those over each run |
| `SsimRebuffer.OrderFree` | src/scripts/plot_ssim_rebuffer.py:45-48 | any reordering of the same points gives every scheme the same sum and count |
| `SsimRebuffer.SameSchemes` | src/scripts/plot_ssim_rebuffer.py:41-43 | any reordering of the same points creates the same scheme keys |
| `SsimRebuffer.CollectSsimOrderFree` | src/scripts/plot_ssim_rebuffer.py:51-68 | windows holding the same points, in any order and split in any way, make collect_ssim succeed or fail together and, on success, give the same averages |
| `SsimRebuffer.CollectSsimMeans` | src/scripts/plot_ssim_rebuffer.py:51-68 | after collect_ssim a scheme none of whose points has an index stays `[0.0, 0]`, and any other maps to `ssim_index_to_db` of the mean linear index of its points |
| `SsimRebuffer.BufferStream.AddDataPoint` | src/scripts/plot_ssim_rebuffer.py:79 | the stream receives the point, appended to those before it |
| `SsimRebuffer.BufferStream.DoneDataPoints` | src/scripts/plot_ssim_rebuffer.py:88 | done_data_points sets `out` to the reconstruction of all points received |
| `SsimRebuffer.DoCollectRebuffer` | src/scripts/plot_ssim_rebuffer.py:71-79 | every point of the window is added to the stream, in order, and the stream's output is left as it was |
| `SsimRebuffer.CollectRebuffer` | src/scripts/plot_ssim_rebuffer.py:82-90 | the points of every window are added in order before done_data_points, which is called exactly once; the result is the stream's output for all points |
| `SsimRebuffer.TotalMinutes` | src/scripts/plot_ssim_rebuffer.py:113 | `ceil(total_play/60)` is the least integer `m` with `60*m >= total_play` |
| `SsimRebuffer.RebufPercent` | src/scripts/plot_ssim_rebuffer.py:113-117 | the plotted x times the play minutes equals `100 * rebuf_minute`; it is undefined exactly when there are no play minutes |
| `SsimRebuffer.ScatterPoints` | src/scripts/plot_ssim_rebuffer.py:101-120 | the run exits iff some SSIM scheme is missing from the rebuffer dict, naming such a scheme; otherwise every SSIM scheme, and no other, gets the point built from its SSIM entry and its rebuffer record |
| `SsimRebuffer.ClampXLim` | src/scripts/plot_ssim_rebuffer.py:122-126 | the clamped limits satisfy `xmin >= 0` and `xmax <= 100`, and a limit already inside [0, 100] is kept |
| `SsimRebuffer.ClampXLimIdempotent` | src/scripts/plot_ssim_rebuffer.py:122-126 | clamping twice is clamping once |
| `SsimRebuffer.Run` | src/scripts/plot_ssim_rebuffer.py:163-174 | SSIM is collected first and a configuration failure stops the run there; an empty SSIM or rebuffer result stops it with "no data"; a missing counterpart stops it; otherwise the plot holds one point per SSIM scheme and the clamped x-axis limits |

## Left out

- Plotting: figures, `np.histogram`/`np.cumsum` CDFs, scatter, annotate, axis inversion and `savefig`. These are rendering through libraries outside the model. The clamp takes matplotlib's automatic limits as a parameter.
- I/O and setup: argparse, YAML/JSON loading, the Postgres and InfluxDB connections, `query_measurement`, `datetime_iter`, the progress messages, and the `print` of both dicts. Each window's query result is an input sequence of points.
- The `main` of plot_bbr_vs_cubic.py: it only loads the data and calls `plot_ssim` and `plot_rebuf_rate` in turn.
- `collect_video_data`, `collect_buffer_data` and the stream processor's reconstruction of play and rebuffer time. Their sources (collect_data.py, stream_processor.py) are not part of this model. `BufferStream` is an opaque sink whose output is a parameter function of the points it received.
- helpers.py is not part of this model. `retrieve_expt_config` (including its cache) and `get_abr_cc` become a map, and a missing id is modelled as stopping the run. `get_ssim_index` and `ssim_index_to_db` become function parameters. No dB formula or monotonicity is assumed.
- Floating point: values are Dafny reals, so rounding in sums, divisions and `log10` is not modelled. Where numpy would produce inf or nan (zero play minutes), the model yields no x value.
- Dict key order of the per-cc and per-scheme dicts: these are Dafny maps, so the order of legends and scatter calls is not modelled. Per-cc lists and each session's chunk order do keep their order.
- ScatterPoints: the script exits naming the first missing scheme in dict order. The model only promises that the named scheme is one of the missing ones.
- Run: it inherits the same weaker promise about which missing scheme is named.
- RebufRateRange: with no series the script goes on to plot with a `None` range. The model returns no range and does not model that plot call.
- Run: a scheme that stays `[0.0, 0]` after averaging and has a rebuffer record reaches `ax.scatter(x, y)` with a scalar x and a two-element y. matplotlib then raises a size-mismatch error, so the real run fails before the plot is saved. The model carries the `Totals(0.0, 0)` entry into the point and `Run` returns `Ok` for such input, because the behaviour of matplotlib is outside the model.
- Floating-point sums depend on the order of addition; with reals, `OrderFree` and `CollectSsimOrderFree` state exact order independence, which floating point only approximates.
