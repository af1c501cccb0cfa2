# Unikalizer copy service: a Dafny model

The backend of this video "unikalizer" turns one uploaded video into several
slightly different copies. For each copy it draws random parameters for the
effects the user switched on: brightness, contrast and saturation (one
combined `eq` filter), rotation, zoom (scale then crop back), horizontal
mirror (behind a coin flip), audio volume, audio tempo and audio pitch. It
builds a video filter chain, an audio filter chain and a human-readable log.
It then runs the transcoder once per copy, strictly one after another. A
copy whose transcode fails is dropped and the batch carries on. The batch
returns the records (id, file name, URL, filter summary) of the copies that
completed.

The model has seven modules:

- `Types` (types.dfy): the `ProcessSettings` and `GeneratedFileInfo` records.
- `Sampler` (sampler.dfy): `getRandom` and `getBool` over a supplied draw, and the per-copy `Draws` record.
- `FilterChain` (filter_chain.dfy): the filter plan.
  - A declarative specification: each copy has seven candidate steps in a fixed order, and the plan keeps those whose step fires (`Fired`, `Plan`).
  - The step-by-step builder `BuildPlan`, which pushes a filter and its log fragment behind each `if`, proved equal to that specification.
  - The filter summary with its `"No filters"` sentinel.
- `CopyJob` (copy_job.dfy): one copy job.
  - The output name and URL.
  - The chains attached to the transcoder `Invocation`.
  - The record reported on completion.
- `Batch` (batch.dfy): the sequential batch loop, proved against the list of completed attempts.
- `Seqs` (seqs.dfy) and `Wrappers` (wrappers.dfy): an order-preserving filter (`Keep`), `Join`, and `Option`.

Foreign inputs are parameters:

- `Math.random()` results arrive as the reals of a `Draws` record, one per effect, each in [0, 1) (`ValidDraws`).
- `uuidv4()` arrives as a string.
- `path.extname(originalName)` arrives as `Job.ext`.
- `Number.prototype.toFixed` is a `Formatter` function parameter.
- Whether the transcoder signalled `end` or `error` for an attempt is the `transcoded` flag of that attempt's `Attempt` record.

## Model

| member | source | states |
|---|---|---|
| `Sampler.GetRandom` | UNIQ/backend/src/services/ffmpegService.ts:14 | For a draw r in [0, 1) and min < max, getRandom(min, max) lies in [min, max). |
| `Sampler.GetBool` | UNIQ/backend/src/services/ffmpegService.ts:15 | On a draw in [0, 1) the coin is true exactly on (0.5, 1) and false exactly on [0, 0.5]. |
| `Sampler.GetBoolFair` | UNIQ/backend/src/services/ffmpegService.ts:15 | The coin is fair: the reflection r to 1 - r maps (0, 1) onto itself and swaps the outcome, except at 0.5. |
| `FilterChain.BuildPlan` | UNIQ/backend/src/services/ffmpegService.ts:33-96 | The builder's three lists equal the declarative plan: the texts of the video steps that fire, the texts of the audio steps that fire, and one log fragment per fired step in firing order. The log list is as long as both filter lists together. |
| `FilterChain.BuildVideoFilters` | UNIQ/backend/src/services/ffmpegService.ts:33-70 | Steps 1-4 (eq, rotate, scale+crop, hflip) push exactly the filter and log text of each candidate video step that fires, in order. |
| `FilterChain.BuildAudioFilters` | UNIQ/backend/src/services/ffmpegService.ts:72-96 | Steps 5-7 (volume, atempo, asetrate+aresample) push exactly the audio steps that fire, and append their log fragments after the video ones. |
| `FilterChain.FiredVideoSteps` | UNIQ/backend/src/services/ffmpegService.ts:43-70 | The fired video steps are eq, rotate, zoom, mirror in this order, each present only when its condition holds. |
| `FilterChain.FiredAudioSteps` | UNIQ/backend/src/services/ffmpegService.ts:75-96 | The fired audio steps are volume, tempo, pitch in this order, each present only when its toggle is on. |
| `FilterChain.FiredInBuilderOrder` | UNIQ/backend/src/services/ffmpegService.ts:43-96 | Fired steps are strictly ordered by the builder's step order, so each appears at most once. Every video step precedes every audio step. |
| `FilterChain.KindFiresIff` | UNIQ/backend/src/services/ffmpegService.ts:43-96 | A step's effect is in the plan if and only if the step fires. The eq filter fires iff brightness, contrast or saturation is on. |
| `FilterChain.EqNeutralValues` | UNIQ/backend/src/services/ffmpegService.ts:38-46 | In the eq filter, a component whose toggle is off has its neutral value: brightness 0, contrast 1, saturation 1. |
| `FilterChain.ParametersInRange` | UNIQ/backend/src/services/ffmpegService.ts:38-91 | With draws in [0, 1), every parameter lies in its getRandom interval: brightness [-0.08, 0.08), contrast, saturation and volume [0.9, 1.1), angle [-2, 2) degrees, zoom [1.01, 1.05), tempo [0.98, 1.02), pitch [0.97, 1.03). |
| `FilterChain.UnreadDrawsIrrelevant` | UNIQ/backend/src/services/ffmpegService.ts:38-96 | Draws for switched-off toggles do not change the plan. With the mirror toggle off, the coin flip has no effect. |
| `FilterChain.HflipIff` | UNIQ/backend/src/services/ffmpegService.ts:67-70 | `hflip` is among the video filters iff the mirror toggle is on and the coin flip is true. |
| `FilterChain.PlanPairsFiltersWithLogs` | UNIQ/backend/src/services/ffmpegService.ts:43-96 | Video filter i and log fragment i come from the same step. Audio filter j pairs with the log fragment after all video ones. The log count is the sum of the filter counts. |
| `FilterChain.FiredEmptyIff` | UNIQ/backend/src/services/ffmpegService.ts:43-96 | No step fires iff all toggles are off, or the only toggle on is mirror and its coin flip is false. |
| `FilterChain.SummarySentinelIff` | UNIQ/backend/src/services/ffmpegService.ts:116 | The summary is `"No filters"` exactly when no step fired. Otherwise it is the log fragments joined with ", ". |
| `FilterChain.FilterText` | UNIQ/backend/src/services/ffmpegService.ts:44-94 | Each step's filter text invokes that step's ffmpeg filter (`eq=`, `rotate=`, `scale=`, `hflip`, `volume=`, `atempo=`, `asetrate=`) whatever the number formatting gives. The text is exactly `hflip` iff the step is the mirror. |
| `FilterChain.LogText` | UNIQ/backend/src/services/ffmpegService.ts:45-95 | Each step's log fragment starts with that step's label (`EQ(`, `Rot(`, `Zoom(`, `Mirror(H)`, `Vol(`, `Spd(`, `Pitch(`). So it is non-empty and does not begin with 'N', and a non-empty log never reads as the sentinel. |
| `FilterChain.Summary` | UNIQ/backend/src/services/ffmpegService.ts:116 | No log fragments give `"No filters"`. Fragments whose first one is non-empty give their ", " join. When every fragment is non-empty and does not start with 'N', the result is the sentinel iff there are none. |
| `CopyJob.LeadingSegment` | UNIQ/backend/src/services/ffmpegService.ts:28 | `split('-')[0]` is a prefix of the uuid without '-', and it ends at the uuid's end or at its first '-'. |
| `CopyJob.FileInfoNaming` | UNIQ/backend/src/services/ffmpegService.ts:28-115 | The id is `copy_` plus the uuid's leading segment. The filename is the id plus the original extension. The URL is `http://localhost:4000/output/` plus the filename. |
| `CopyJob.OutputNamesCollideIff` | UNIQ/backend/src/services/ffmpegService.ts:28-30 | Two copies get the same filename, and the same URL, iff their uuids share the leading segment. |
| `CopyJob.Chain` | UNIQ/backend/src/services/ffmpegService.ts:100-106 | A chain is attached iff the filter list is non-empty, and it begins with the first filter. |
| `CopyJob.CreateUniqueCopy` | UNIQ/backend/src/services/ffmpegService.ts:20-125 | The invocation carries the input, each non-empty chain joined with ",", and the output name. The result is the file record when the transcoder completes and nothing when it fails. |
| `CopyJob.VideoChainAttachedIff` | UNIQ/backend/src/services/ffmpegService.ts:100-102 | A video chain is attached iff brightness, contrast, saturation, rotation or zoom is on, or mirror is on and its coin is true. |
| `CopyJob.AudioChainAttachedIff` | UNIQ/backend/src/services/ffmpegService.ts:104-106 | An audio chain is attached iff volume, speed or pitch is on. |
| `Batch.ProcessVideoBatch` | UNIQ/backend/src/services/ffmpegService.ts:127-146 | Exactly max(copies, 0) attempts, each invoking the transcoder once, in order. The results are the records of the completed attempts in attempt order. |
| `Batch.SucceededExactly` | UNIQ/backend/src/services/ffmpegService.ts:136-143 | The completed attempts are listed in strictly increasing order. Every completed attempt is listed, whatever failed before it, and nothing else is. |
| `Batch.SucceededPlusFailed` | UNIQ/backend/src/services/ffmpegService.ts:136-143 | Completed attempts plus failed attempts equal all attempts. |
| `Batch.BatchResultCount` | UNIQ/backend/src/services/ffmpegService.ts:132-145 | The result has max(copies, 0) minus the number of failures records. That is between 0 and max(copies, 0): none when all fail, one per attempt when none fails. |
| `Batch.BatchResultsAreTheCompletedCopies` | UNIQ/backend/src/services/ffmpegService.ts:136-143 | The record of every completed attempt is in the result, and every result record belongs to a completed attempt. |
| `Batch.BatchFileExtensions` | UNIQ/backend/src/services/ffmpegService.ts:136-143 | Every result filename ends with the original extension, for every batch. |
| `Batch.BatchFileNames` | UNIQ/backend/src/services/ffmpegService.ts:136-143 | If the uuids' leading segments differ, the result filenames are pairwise distinct. |

## Left out

- Floating point: the numbers are Dafny reals. `toFixed` and its rounding are an abstract `Formatter` parameter, so exact filter text such as `rotate=0.0262` for 1.5 degrees is not stated. `Math.PI` is the decimal 3.141592653589793.
- ParametersInRange: holds in real arithmetic. With IEEE doubles, `r*(max-min)+min` can round up to `max`.
- Randomness: each effect gets its own draw in `Draws`. The source reads one shared `Math.random()` stream, and only for the toggles that are on. Because the draws are independent, this changes no distribution. UnreadDrawsIrrelevant proves that unread draws cannot matter.
- `uuidv4`, `path.extname` and `path.join` are inputs. The invocation keeps the output directory and file name apart instead of joining them.
- The fluent-ffmpeg call, its `end`/`error` events and the Promise/async machinery are not modelled. The transcoder's answer is a boolean per attempt. The possibly partial output file left after a failure is not modelled.
- `console.error` diagnostics, including the copy index passed only for logging, are left out.
- `copies` is an integer. The endpoint's `parseInt` can also give NaN, for which the loop makes no attempt. NaN is not representable here.
- The HTTP endpoint, form parsing, static file serving and the web client are outside this model.
- getRandom's intervals are half-open ([min, max)) because Math.random() never returns 1. The `"No filters"` sentinel also appears when mirror is the only toggle on and its coin flip is false (ffmpegService.ts:67, 116).
