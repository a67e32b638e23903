# FrameEvolve core, modelled in Dafny

FrameEvolve is an Electron desktop application that upscales videos with
ffmpeg. This project models its decision logic and proves properties of it:

- **The video job** (`src/main/services/VideoProcessor.js`):
  - the plan optimiser, which clamps the requested scale factor to the 4K caps, rounds it down to one decimal with a floor of 1, and forces quality `high` for long, large jobs;
  - the ffmpeg command, described as data: output options, codec, and the filter chain of scale, denoise and mode stage;
  - the quality tables;
  - the progress relay, which forwards each new percent once;
  - the error classifier;
  - the `isProcessing`/`currentProcess` guard of `process` and `cancel`, driven by the engine's `end`, `error` and timeout events.
- **The configuration** (`src/main/config/ConfigManager.js`):
  - dotted-key `get` and `set` over nested objects;
  - `getAll`, `reset`, and the default-merge of `load`.

  Objects live in an explicit store of references (`Heap`), so the sharing created by the source's shallow copies is visible. One consequence is proved: `set('window.width', …)` without a configuration file changes the defaults too, and `reset` keeps the edit.
- **The settings panel** (`src/renderer/js/components/Settings.js`): load with default merge, single-key update, reset, the import key filter, `getSettings` and `getSetting`.
- **The file facts** (`src/main/services/FileService.js`): `formatDuration`, `validateVideoFile` over the probe's answer, and the `resolution` string of `getVideoInfo`.
- **The renderer application** (`src/renderer/js/core/App.js`):
  - the upscaling recommendation shown when a file is loaded;
  - the renderer's `isProcessing` guard around starting, cancelling and finishing a job.

The probe (ffprobe), the engine (fluent-ffmpeg), the file system, IPC, timers and the DOM are outside the model. Their answers become parameters:

- a `ProbeResult`;
- the engine's `end` and `error` events, with the output file's size or an error message;
- `stored` flags for the persistence calls;
- `Option`/`Result` values for calls that can throw.

Modules:

- `Wrappers`: `Option` and `Result`.
- `Text`: decimal numerals, `split`/`join`, `padStart(2, '0')`.
- `Probe`: the probe's metadata and the first video stream.
- `VideoPlan`, `VideoFilters` and `VideoJob`: the video job.
- `ConfigStore`: the configuration.
- `SettingsPanel`: the settings panel.
- `FileInfo`: the file facts.
- `AppCore`: the renderer application.

JavaScript's numbers are Dafny `real`s in the optimiser and the duration formatter. They are `int`s where the source only handles integers:

- pixel sizes;
- the slider;
- the settings;
- the rendered scale factor.

`Math.round` is `Floor(x + 0.5)`. JavaScript's `%` truncates toward zero and is written out (`FileInfo.JsRem`).

## Model

| member | source | states |
|---|---|---|
| `Probe.FindVideoStream` | src/main/services/VideoProcessor.js:48 | the first stream whose codec type is `video`; None exactly when no stream is a video stream |
| `VideoPlan.Round` | src/main/services/VideoProcessor.js:100-101 | `Math.round`: the result is within half of `x`, halves rounded up |
| `VideoPlan.FloorTenth` | src/main/services/VideoProcessor.js:79 | `Math.floor(x*10)/10` is a whole number of tenths, not above `x` and less than a tenth below it |
| `VideoPlan.Bounded` | src/main/services/VideoProcessor.js:74-78 | the minimum of a cap ratio and the factor: never above either, and equal to one of them; a zero dimension (ratio Infinity) never binds |
| `VideoPlan.ExceedsCaps` | src/main/services/VideoProcessor.js:72 | for a non-negative factor, the naive output breaks the caps exactly when it is wider than 3840 or taller than 2160; the pixel cap adds nothing |
| `VideoPlan.PixelCapImplied` | src/main/services/VideoProcessor.js:72 | a size within 3840 by 2160 has at most 8294400 pixels |
| `VideoPlan.EffectiveScale` | src/main/services/VideoProcessor.js:61-79 | the request unchanged when the naive output fits the caps; otherwise a whole number of tenths of at least 1. Never above the larger of 1 and the request |
| `VideoPlan.AdjustedQuality` | src/main/services/VideoProcessor.js:86-91 | the requested quality or `high`, and `high` replaces the request only for a defined duration over 60 s at a factor above 2 |
| `VideoPlan.PlanWith` | src/main/services/VideoProcessor.js:93-103 | the plan for a settled factor: the request, factor and input size as given, each output side the nearest integer to the scaled side, and the quality either the request or `high` |
| `VideoPlan.Optimize` | src/main/services/VideoProcessor.js:43-104 | a failed probe fails the plan with its error; a plan keeps the request as it was sent |
| `VideoPlan.NoVideoStreamFails` | src/main/services/VideoProcessor.js:48-52 | optimising fails exactly when no stream is a video stream, with "No video stream found in input file" |
| `VideoPlan.PlanDimensions` | src/main/services/VideoProcessor.js:54-63 | the plan's input dimensions are those of the first video stream, and the plan is computed from them and the container's duration |
| `VideoPlan.PlanForRounds` | src/main/services/VideoProcessor.js:99-102 | each output dimension is the input dimension times the effective factor, rounded to the nearest integer |
| `VideoPlan.PixelRatioNeverBinds` | src/main/services/VideoProcessor.js:74-78 | any non-negative `p` with `p² = 8294400/(w·h)` is at least the smaller of the width and height ratios, so the pixel ratio never wins the minimum |
| `VideoPlan.NoClampWithinCaps` | src/main/services/VideoProcessor.js:72 | when the naive output fits all three caps, the request is used unchanged |
| `VideoPlan.ClampRoundsDown` | src/main/services/VideoProcessor.js:78-79 | when a cap binds, the factor is the largest whole tenth not above the bound, or 1 when the bound is below 1 |
| `VideoPlan.ClampedWithin` | src/main/services/VideoProcessor.js:72-79 | for an input within the caps and a request of at least 1, the clamped factor lies between 1 and the request and keeps width and height within their caps |
| `VideoPlan.UnclampedWithin` | src/main/services/VideoProcessor.js:72 | an unclamped request of at least 1 keeps width and height within their caps |
| `VideoPlan.RoundedWithinCaps` | src/main/services/VideoProcessor.js:99-102 | rounding a scaled size that fits the width and height caps keeps it within all three caps, the pixel count included |
| `VideoPlan.ScaleWithinCaps` | src/main/services/VideoProcessor.js:61-79 | the effective factor of a request of at least 1 on an input within the caps is between 1 and the request and keeps both sides within their caps |
| `VideoPlan.EffectiveSizeWithinCaps` | src/main/services/VideoProcessor.js:61-102 | the effective factor and the rounded output size it gives fit all three caps |
| `VideoPlan.PlanForWithinCaps` | src/main/services/VideoProcessor.js:93-103 | the plan of an input within the caps has a factor between 1 and the request and an output within all three caps |
| `VideoPlan.WithinCaps` | src/main/services/VideoProcessor.js:43-104 | for an input within the caps and a request of at least 1, optimising succeeds, the factor never exceeds the request, and the output stays within 3840, 2160 and 8294400 pixels |
| `VideoPlan.QualityDowngrade` | src/main/services/VideoProcessor.js:86-91 | quality becomes `high` exactly for inputs longer than 60 s at an effective factor above 2; otherwise, and always for an undefined duration, it is the requested one |
| `VideoPlan.ClampExample` | src/main/services/VideoProcessor.js:72-83 | 1920x1080 at 4x runs at 2x and 3840x2160, keeping quality `ultra` |
| `VideoPlan.DowngradeExample` | src/main/services/VideoProcessor.js:86-91 | 90 s of 640x360 at 3x runs at 3x and 1920x1080 with `ultra` lowered to `high` |
| `VideoPlan.OverCapsInputStaysOver` | src/main/services/VideoProcessor.js:79 | a 7680x4320 input keeps factor 1 and an output above the caps, because `Math.max(1, …)` wins |
| `VideoFilters.DenoiseStrength` | src/main/services/VideoProcessor.js:259 | the spatial strength is the slider as a fraction capped at 0.8, positive for a positive slider |
| `VideoFilters.DenoiseStage` | src/main/services/VideoProcessor.js:258-261 | `hqdn3d` with luma and chroma spatial strength at the slider strength and both temporal strengths at half of it |
| `VideoFilters.ScalingAlgorithm` | src/main/services/VideoProcessor.js:279-290 | lanczos exactly for sharp, spline exactly for anime, bicubic for every other mode |
| `VideoFilters.ModeStage` | src/main/services/VideoProcessor.js:264-274 | a mode adds its own stage exactly when it is sharp, smooth or anime |
| `VideoFilters.ModeTables` | src/main/services/VideoProcessor.js:264-290 | sharp, smooth and anime add a stage of their own, sharp's differing from anime's; any other mode adds none and scales like smooth |
| `VideoFilters.BuildVideoFilters` | src/main/services/VideoProcessor.js:247-277 | the chain is in the order scale, denoise, mode stage; it has a scale stage to the target size exactly when the factor is above 1, a denoise stage exactly when the slider is positive, and the mode's stage exactly for sharp, smooth and anime |
| `VideoFilters.PartsMeetSpec` | src/main/services/VideoProcessor.js:252-274 | the three conditional parts, concatenated in order, meet that specification |
| `VideoFilters.ScaleComesFirst` | src/main/services/VideoProcessor.js:252-256 | when upscaling, the chain opens with the scale stage to the target size and holds no other scale stage |
| `VideoFilters.InOrderAtMostThree` | src/main/services/VideoProcessor.js:247-277 | an ordered chain holds at most three stages |
| `VideoFilters.FiltersForDetermined` | src/main/services/VideoProcessor.js:247-277 | at most one chain meets the specification, so the builder's output is determined by its options |
| `VideoFilters.PresetForQuality` | src/main/services/VideoProcessor.js:292-303 | slow, medium and veryslow exactly for ultra, high and lossless; fast exactly for any other quality |
| `VideoFilters.ApplyQualitySettings` | src/main/services/VideoProcessor.js:305-327 | libx264 with six options: `-crf`, `-maxrate` and `-bufsize`, each followed by its value; a quality other than ultra, high and lossless gets CRF 25 |
| `VideoFilters.QualityTierShape` | src/main/services/VideoProcessor.js:305-327 | every tier's CRF, maxrate and bufsize read back as numbers, and its buffer is twice its maximum rate |
| `VideoFilters.QualityLadder` | src/main/services/VideoProcessor.js:305-327 | CRF 0/20/23/25 and maxrate 50M/10M/8M/5M for lossless/ultra/high/other; any other quality gets the same codec options as `draft` |
| `VideoFilters.EnhanceCommand` | src/main/services/VideoProcessor.js:106-153 | the command is `CommandFor` the plan: it reads the input and writes the output of the request. Its options are the thread, preset and timestamp options followed by the tier's rate options, with libx264. Its filters meet the chain specification for the plan's factor and size, with mode `standard` and slider 50 when the request leaves them undefined |
| `VideoFilters.DefaultChain` | src/main/services/VideoProcessor.js:112-113 | with the request's defaults, a job at factor 1 gets exactly one stage: a denoise at 0.5 spatial and 0.25 temporal |
| `VideoJob.ClassifyError` | src/main/services/VideoProcessor.js:208-220 | the fallback message, or the message of a rule whose substring occurs in the error |
| `VideoJob.ClassifyErrorFirstMatch` | src/main/services/VideoProcessor.js:208-220 | the message is that of the first rule whose substring occurs, in the order SIGKILL, "No space left", "Permission denied", "Invalid data"; the fallback is given exactly when none occurs |
| `VideoJob.OrText` | src/main/services/VideoProcessor.js:168-171 | `text || placeholder`: the placeholder exactly for an undefined or empty string, the text otherwise |
| `VideoJob.UpdateFor` | src/main/services/VideoProcessor.js:166-172 | the rounded percent; `timemark` and `currentSpeed` when non-empty, else "00:00:00" and "0x"; "Calculating..." exactly when the target size (kB) is undefined or 0, else that size; `currentFps`, or 0 when undefined |
| `VideoJob.Relay` | src/main/services/VideoProcessor.js:156-174 | the forwarded percents: no more than the samples, each in 0..100 |
| `VideoJob.LastAfter` | src/main/services/VideoProcessor.js:156-174 | the relay's state after the samples: the starting value or a percent in 0..100 |
| `VideoJob.RelayWellFormed` | src/main/services/VideoProcessor.js:156-174 | no two consecutive forwarded percents are equal, the first differs from the start, and the last is the relay's final state; with nothing forwarded the state is the start |
| `VideoJob.OutOfRangeDropped` | src/main/services/VideoProcessor.js:161 | a sample rounding outside 0..100 is dropped, not clamped: output and state are unchanged |
| `VideoJob.RelayAppend` | src/main/services/VideoProcessor.js:157-174 | a new sample is forwarded exactly when its rounded percent is in range and differs from the last forwarded one, and then becomes the state |
| `VideoJob.RelayExample` | src/main/services/VideoProcessor.js:156-161 | from 0, an initial 0% or undefined percent is suppressed; 40, 40.2, 120, 35 forward 40 and 35 |
| `VideoJob.ProgressRelay.constructor` | src/main/services/VideoProcessor.js:156 | `lastProgress` starts at 0 |
| `VideoJob.ProgressRelay.OnProgress` | src/main/services/VideoProcessor.js:157-174 | an update is sent exactly when the relay forwards the sample. It is the event's update, every falsy field replaced by its placeholder. The state moves as the relay's does |
| `VideoJob.VideoProcessor.constructor` | src/main/services/VideoProcessor.js:11-15 | not processing, no current command |
| `VideoJob.VideoProcessor.Begin` | src/main/services/VideoProcessor.js:17-23 | a second job is refused with "Another video is currently being processed" and nothing changes; otherwise the processor becomes busy |
| `VideoJob.VideoProcessor.Launch` | src/main/services/VideoProcessor.js:22-41 | a failed optimisation rejects the job with its error and clears `isProcessing`. Otherwise a command that is `CommandFor` the plan (the `EnhanceCommand` contract) is launched and becomes current. A failed start rejects with "Failed to start FFmpeg: …" and clears the flag |
| `VideoJob.VideoProcessor.OnEnd` | src/main/services/VideoProcessor.js:178-198 | the first settling event resolves with the plan's output path, factor and size and the file's size, or rejects when the output file cannot be read; either way `isProcessing` is cleared; a job settles once |
| `VideoJob.VideoProcessor.OnError` | src/main/services/VideoProcessor.js:200-221 | an engine error rejects the job with the classified message and clears `isProcessing` |
| `VideoJob.VideoProcessor.OnTimeout` | src/main/services/VideoProcessor.js:223-228 | the timeout of an unsettled job sends SIGTERM, rejects with the timeout message and clears `isProcessing` |
| `VideoJob.VideoProcessor.Cancel` | src/main/services/VideoProcessor.js:336-362 | a no-op unless a command is current and a job is running; then SIGTERM to it, both fields cleared, and the grace timer armed for that command |
| `VideoJob.VideoProcessor.GraceTimer` | src/main/services/VideoProcessor.js:350-354 | as written: SIGKILL to whatever command is current if a job is running by then; throws if a job is running with no command yet |
| `VideoJob.VideoProcessor.GraceTimerFixed` | src/main/services/VideoProcessor.js:349-354 | as intended: SIGKILL only to the command it was armed for, and only if that job has not settled |
| `VideoJob.GraceTimerKillsNextJob` | src/main/services/VideoProcessor.js:336-362 | cancel job 0; it errors; job 1 starts; the timer fires: job 1 is SIGKILLed |
| `VideoJob.GraceTimerFixedSparesNextJob` | src/main/services/VideoProcessor.js:349-354 | the same sequence with the corrected timer kills nothing more, and job 1 keeps running |
| `VideoJob.GraceTimerIdleAfterCancel` | src/main/services/VideoProcessor.js:350-356 | with no new job the as-written timer never fires, since cancel cleared `isProcessing` |
| `Text.NatToString` | src/main/services/FileService.js:72 | the decimal numeral: digits only, no leading zero |
| `Text.IntToString` | src/main/services/FileService.js:72 | the numeral of an integer: a minus sign before the digits of a negative one |
| `Text.ParseNat` | src/renderer/js/core/App.js:215 | a value exactly for a non-empty string of digits |
| `Text.NatToStringRoundTrip` | src/main/services/FileService.js:72 | the numeral of `n` reads back as `n` |
| `Text.PadStart2` | src/main/services/FileService.js:72 | `padStart(2, '0')`: at least two characters, the original at the end |
| `Text.PaddedRoundTrip` | src/main/services/FileService.js:72 | below 100, the padded numeral is two digits and reads back as the number |
| `Text.Split` | src/main/config/ConfigManager.js:61 | at least one piece, none holding the separator |
| `Text.SplitJoin` | src/main/config/ConfigManager.js:61 | splitting pieces joined by a separator they lack gives back the pieces |
| `Text.JoinSplit` | src/main/config/ConfigManager.js:61 | joining the pieces of a split with the same character gives the string back, so `split` loses nothing |
| `ConfigStore.Lookup` | src/main/config/ConfigManager.js:60-69 | `get`'s walk: no segments leave the value itself; a value found after a segment means the first segment is a property of an object in the store |
| `ConfigStore.SetPath` | src/main/config/ConfigManager.js:71-84 | `set`'s walk: a success allocates at most one new object per intermediate segment; a throw needs an intermediate segment |
| `ConfigStore.CreateKeepsStore` | src/main/config/ConfigManager.js:77-79 | `current[k] = {}` adds one new empty object at the next free reference, changes only `current[k]`, and keeps the store closed |
| `ConfigStore.SetKeepsStore` | src/main/config/ConfigManager.js:71-84 | a successful `set` keeps every existing object in the store, allocates only above `next`, and keeps every reference pointing into the store |
| `ConfigStore.SetFrame` | src/main/config/ConfigManager.js:76-84 | `set` changes existing objects only at the (object, key) pairs of its walk; no other property of any existing object is changed, added or removed |
| `ConfigStore.GetAfterSet` | src/main/config/ConfigManager.js:60-84 | after a successful `set(k, v)` over a walk of distinct objects, `get(k)` finds `v` |
| `ConfigStore.LookupUndefined` | src/main/config/ConfigManager.js:64-66 | `?.` below an undefined value stays undefined |
| `ConfigStore.SetFailsOnTruthyPrimitive` | src/main/config/ConfigManager.js:76-84 | `set` throws exactly when the walk meets, before the last segment, a non-empty string, a non-zero number or `true` |
| `ConfigStore.FreshWalkSucceeds` | src/main/config/ConfigManager.js:76-84 | from a new empty object `set` always succeeds |
| `ConfigStore.SetBuildsChain` | src/main/config/ConfigManager.js:76-84 | for a missing or falsy first segment, `set` builds one new object per intermediate segment, each holding exactly the next segment, the last holding the value |
| `ConfigStore.SetWalk` | src/main/config/ConfigManager.js:72-84 | the loop of `set` leaves the store and next free reference of the walk's definition, or fails where it throws |
| `ConfigStore.MergeFile` | src/main/config/ConfigManager.js:38 | `{ ...defaults, ...JSON.parse(data) }`: every key of either, the file's entries winning, the defaults' other entries kept as they are, each nested file object a new object |
| `ConfigStore.MergeKeepsStore` | src/main/config/ConfigManager.js:38 | adding the merged objects keeps the store closed and every old object unchanged |
| `ConfigStore.ConfigManager.constructor` | src/main/config/ConfigManager.js:10-26 | the defaults object holds a `window` object of 1400x900, `ultra`, `4` and `dark`; without a file the config is a copy of the defaults sharing its `window` |
| `ConfigStore.ConfigManager.Get` | src/main/config/ConfigManager.js:60-69 | the value at the dotted path from `config`, or `defaultValue` when any segment is missing |
| `ConfigStore.ConfigManager.Set` | src/main/config/ConfigManager.js:71-88 | the new store is that of the walk, which creates missing or falsy intermediate segments and assigns the last; where the source throws, nothing changes |
| `ConfigStore.ConfigManager.GetAll` | src/main/config/ConfigManager.js:90-92 | the top level of `config`, with nested objects shared |
| `ConfigStore.ConfigManager.Reset` | src/main/config/ConfigManager.js:94-97 | `config` becomes a new object holding the top level of the defaults |
| `ConfigStore.ConfigManager.Load` | src/main/config/ConfigManager.js:28-49 | the file's top-level entries over a new copy of the defaults; without a readable file, exactly the copy; old objects unchanged |
| `ConfigStore.SetWindowWidth` | src/main/config/ConfigManager.js:71-84 | `set('window.width', w)` writes into the object `config.window` and nowhere else |
| `ConfigStore.GetWindowWidth` | src/main/config/ConfigManager.js:60-69 | `get('window.width')` reads the object `config.window` |
| `ConfigStore.EditWidthThenReset` | src/main/config/ConfigManager.js:94-97 | after `set('window.width', 1600)` and `reset`, `get('window.width')` is 1600 exactly when the config's `window` is the defaults' object |
| `ConfigStore.WindowEditSurvivesReset` | src/main/config/ConfigManager.js:14-26 | without a file, the edit reaches the defaults and survives `reset` |
| `ConfigStore.WindowEditWithFileUndoneByReset` | src/main/config/ConfigManager.js:36-38 | with a file holding its own `window`, `reset` brings back 1400 |
| `SettingsPanel.Defaults` | src/renderer/js/components/Settings.js:9-27 | the twelve default keys |
| `SettingsPanel.Merge` | src/renderer/js/components/Settings.js:50 | the object spread: every key of either, the later map winning, the earlier one's other values kept |
| `SettingsPanel.HasOwnCall` | src/renderer/js/components/Settings.js:307 | `hasOwnProperty(key)` throws exactly for `null` and for an object whose own `hasOwnProperty` property hides the method; otherwise it answers whether the key is an own property |
| `SettingsPanel.KeepKnownKeys` | src/renderer/js/components/Settings.js:305-310 | fails exactly where `hasOwnProperty` throws; otherwise exactly the default keys the parsed file has as own properties, with the file's values |
| `SettingsPanel.ImportedSettings` | src/renderer/js/components/Settings.js:305-313 | the import result has exactly the default keys, the file's value for those it has and the default for the rest |
| `SettingsPanel.SettingsComponent.constructor` | src/renderer/js/components/Settings.js:8 | settings start empty |
| `SettingsPanel.SettingsComponent.LoadSettings` | src/renderer/js/components/Settings.js:45-56 | the defaults overridden by the stored settings; exactly the defaults when fetching fails |
| `SettingsPanel.SettingsComponent.UpdateSetting` | src/renderer/js/components/Settings.js:191-203 | the key is set locally and nothing else changes, whether or not storing it succeeds; the feedback reports the outcome |
| `SettingsPanel.SettingsComponent.ResetSettings` | src/renderer/js/components/Settings.js:243-265 | nothing without confirmation; otherwise exactly the defaults, kept even when storing them fails |
| `SettingsPanel.SettingsComponent.ImportSettings` | src/renderer/js/components/Settings.js:296-328 | an unreadable, unparsable or `null` file, or one with its own `hasOwnProperty` key, changes nothing and reports "Invalid settings file". Otherwise the defaults are overridden by the file's values for known keys only, and no other key gets in |
| `SettingsPanel.ShadowedImportRejected` | src/renderer/js/components/Settings.js:305-327 | importing `{"hasOwnProperty": 1, "appTheme": "light"}` reports "Invalid settings file" and keeps the theme dark |
| `SettingsPanel.SettingsComponent.GetSettings` | src/renderer/js/components/Settings.js:379-381 | a copy with the same keys and values |
| `SettingsPanel.SettingsComponent.GetSetting` | src/renderer/js/components/Settings.js:384-386 | the stored value, or `defaultValue` for a key not set |
| `SettingsPanel.UpdateAfterLoad` | src/renderer/js/components/Settings.js:191-194 | after loading and updating a key, `getSetting` sees the new value and every default key is still present |
| `SettingsPanel.ResetAfterImport` | src/renderer/js/components/Settings.js:243-249 | a confirmed reset after any import gives back every default |
| `FileInfo.FormatDuration` | src/main/services/FileService.js:65-75 | "Unknown" exactly for an undefined, NaN or zero duration |
| `FileInfo.JsRem` | src/main/services/FileService.js:68-69 | JavaScript's `%`: for a non-negative dividend the remainder is in [0, m), for a non-positive one in (-m, 0] |
| `FileInfo.Hours` | src/main/services/FileService.js:67 | for a non-negative duration, non-negative, and positive exactly from 3600 s on |
| `FileInfo.Minutes` | src/main/services/FileService.js:68 | for a non-negative duration, in 0..59 |
| `FileInfo.Seconds` | src/main/services/FileService.js:69 | for a non-negative duration, in 0..59 |
| `FileInfo.HoursOf` | src/main/services/FileService.js:67 | for a non-negative duration, the whole seconds divided by 3600 |
| `FileInfo.MinutesOf` | src/main/services/FileService.js:68 | for a non-negative duration, the whole seconds within the hour divided by 60 |
| `FileInfo.SecondsOf` | src/main/services/FileService.js:69 | for a non-negative duration, the whole seconds modulo 60 |
| `FileInfo.DurationFields` | src/main/services/FileService.js:67-69 | for a non-negative duration the hours, minutes and seconds add up to the whole seconds with the fraction dropped |
| `FileInfo.ParseClock` | src/main/services/FileService.js:71-74 | the reading of a clock string: a value exactly for two or three `:`-separated fields of digits |
| `FileInfo.FormatDurationRoundTrip` | src/main/services/FileService.js:65-75 | for a positive duration, the string has three fields from one hour on and two below it. The padded fields are two characters wide. It reads back as the whole seconds of the duration |
| `FileInfo.LongClock` | src/main/services/FileService.js:72 | `H:MM:SS` splits into three fields, the last two two characters wide, and reads back as `h·3600 + m·60 + s` |
| `FileInfo.ShortClock` | src/main/services/FileService.js:74 | `M:SS` splits into two fields, the last two characters wide, and reads back as `m·60 + s` |
| `FileInfo.FloorDivide` | src/main/services/FileService.js:67 | `Math.floor(x / m)` of a non-negative `x` is the integer quotient of `Math.floor(x)` by `m` |
| `FileInfo.LongDurationExample` | src/main/services/FileService.js:71-72 | 3725.5 s is "1:02:05" |
| `FileInfo.ShortDurationExample` | src/main/services/FileService.js:74 | 59.9 s is "0:59", minutes unpadded |
| `FileInfo.NegativeDurationExample` | src/main/services/FileService.js:66-74 | -5 s is "-1:-5", because truncating `%` keeps the sign |
| `FileInfo.ValidateVideoFile` | src/main/services/FileService.js:77-87 | true exactly when the probe succeeds and some stream is a video stream |
| `FileInfo.ValidIffVideoStreamFound` | src/main/services/FileService.js:77-87 | a file is valid exactly when `getVideoInfo` and the video job find a video stream in it |
| `FileInfo.Resolution` | src/main/services/FileService.js:13-43 | "Unknown" exactly when no stream is a video stream or `getVideoInfo` ends in its catch block: `fs.stat` rejects, the probe fails, the format has no `format_name`, or the video stream has no `codec_name`; otherwise a string with an `x` |
| `FileInfo.ResolutionFields` | src/main/services/FileService.js:24 | the resolution splits at its one `x` into the first video stream's width and height |
| `AppCore.JsNumber` | src/renderer/js/core/App.js:215 | `Number` on a piece: 0 for the empty string, a value exactly for a string of digits |
| `AppCore.ParseResolution` | src/renderer/js/core/App.js:215 | without an `x` the width is `Number` of the whole string and the height undefined; a height is found only after an `x` |
| `AppCore.AdviceFor` | src/renderer/js/core/App.js:223-229 | warning exactly when the output is wider than 3840 or taller than 2160. Otherwise a tip exactly when the factor is at least 3 on an input of HD width or height. Good in every other case |
| `AppCore.AdviceMessage` | src/renderer/js/core/App.js:223-229 | each message opens with its advice's emoji and label, then the factor followed by `x` |
| `AppCore.MessagesDistinct` | src/renderer/js/core/App.js:223-229 | different advice gives different text |
| `AppCore.Recommend` | src/renderer/js/core/App.js:213-233 | as written: a recommendation exactly when both parsed dimensions are defined and non-zero, with the advice for the scaled size; shown as a warning exactly when the output width exceeds 3840 |
| `AppCore.PortraitWarningShownAsInfo` | src/renderer/js/core/App.js:232 | a 1080x1920 input at 2x gets the warning text shown as info as written, and as a warning with the corrected rule |
| `AppCore.RecommendFixed` | src/renderer/js/core/App.js:223-232 | the same advice and text, shown as a warning exactly when the text is the warning |
| `AppCore.ResolutionText` | src/renderer/js/core/App.js:215 | `"WxH"` built from two numbers parses back to them |
| `AppCore.RecommendationForProbedFile` | src/renderer/js/core/App.js:213-219 | for a file whose first video stream is `w` by `h`, a recommendation exists exactly when both are non-zero, computed on that size; a file without a video stream, or whose information ends in the catch block, gets none |
| `AppCore.RecommendationNotice` | src/renderer/js/core/App.js:232 | one notification for a recommendation, with its message and the type its severity names |
| `AppCore.App.constructor` | src/renderer/js/core/App.js:6-11 | no current file, not processing |
| `AppCore.App.HandleFileSelected` | src/renderer/js/core/App.js:187-210 | an invalid file or a failed call leaves the current file and reports the failure. A valid file becomes current; its recommendation, if any, is shown, then the success message. The recommendation is the corrected one, so a height-only overflow is shown as a warning (see "Left out") |
| `AppCore.App.StartProcessing` | src/renderer/js/core/App.js:287-311 | nothing while processing or without a file. A failed or cancelled output dialog sends nothing. Otherwise the flag is set before the request is sent, and a rejected call clears it again with an error notification |
| `AppCore.App.CancelProcessing` | src/renderer/js/core/App.js:370-379 | a successful cancel clears the flag and shows "Processing cancelled"; a failed one changes nothing |
| `AppCore.App.HandleProcessComplete` | src/renderer/js/core/App.js:381-393 | clears the flag and shows the completion message |
| `AppCore.App.HandleProcessError` | src/renderer/js/core/App.js:395-401 | clears the flag and shows the error |
| `AppCore.CompletionMessage` | src/renderer/js/core/App.js:385-388 | the output size is appended exactly when the result has a non-empty one |
| `AppCore.SecondStartIgnoredUntilComplete` | src/renderer/js/core/App.js:287-302 | a second click while a job runs sends nothing; after completion the next click sends again |
| `AppCore.RejectedStartCanBeRetried` | src/renderer/js/core/App.js:305-310 | a rejected process call leaves the flag cleared, so the next click starts again |

## Left out

- The probe (`ffprobe`), the engine (fluent-ffmpeg `save`, `kill`, events), `fs.stat` and the IPC calls: they are external. Their answers are parameters of the model (`ProbeResult`, the `end`/`error` events, the `statOk` flag of `FileInfo.Resolution`, `stored` flags, `Option`/`Result` values).
- `setTimeout` timing: the 30-minute timeout, the 5-second grace timer and the 1-second cancel resolve. These are events the caller invokes (`OnTimeout`, `GraceTimer`). The order of events is the caller's.
- The Promise settle-once race between `end`, `error` and the timeout is modelled by the `settled` set. The `clearTimeout` calls are not modelled separately.
- The `emit` calls of the EventEmitter and all `console` output.
- `formatFileSize` in VideoProcessor.js and FileService.js: it uses `Math.log` and floating-point rounding. `outputSizeFormatted` is an input string to `HandleProcessComplete`.
- The `fps` (computed with `eval`), `codec`, `bitrate`, `size`, `hasAudio` and `format` fields of `getVideoInfo`: they are foreign strings and floating point. Only `resolution` and `duration` are modelled, together with the throws that send `getVideoInfo` to its catch block (a missing `codec_name` or `format_name`).
- `FileInfo.Resolution`: an `eval` of `r_frame_rate` that throws (a malformed rate string) is not modelled; the probe's rate is taken to be a fraction.
- DOM reads and updates: progress bars, previews, `populateUI`, `applyTheme`, the file dialogs, notifications as UI. Notifications are kept as a list of (message, type).
- The scale factor of `showProcessingRecommendations` is an integer parameter. `parseInt` of the DOM field and its NaN case are not modelled.
- `AppCore.JsNumber`: it models `Number` only on the strings `getVideoInfo` produces (empty, digits, or other text such as "Unknown"). `Number`'s whitespace, sign, hexadecimal and exponent forms are not modelled.
- JSON numbers are integers in the settings and configuration models. Floating-point settings values are not modelled.
- `ConfigStore.ConfigManager.Set`: the value argument is restricted to JSON primitives. Setting an object value, which would be stored by reference, is not modelled.
- `ConfigStore.MergeFile`: nested objects in the configuration file are one level deep (objects of primitives). Deeper file objects are not modelled.
- `ConfigStore.ConfigManager.Load`: the directory creation and the `save` of a new file are left out (file I/O). A missing file and a file that fails to read or parse both give the copy of the defaults, as in the source.
- Writing the configuration file (`save`) and the settings persistence loops are left out. Their failure is the `stored` flag.
- `ConfigStore.GetAfterSet` requires the walk to visit distinct objects. A configuration in which an object contains itself on the key path cannot come from JSON.
- `VideoPlan.WithinCaps` is stated for inputs already within 3840x2160. The code's caps do not bound an input already larger than 3840x2160, because `Math.max(1, …)` at src/main/services/VideoProcessor.js:79 keeps factor 1 and the output stays over the caps (`VideoPlan.OverCapsInputStaysOver`).
- `VideoPlan.RatioBound` leaves the pixel ratio out of the minimum. `VideoPlan.PixelRatioNeverBinds` proves that it never wins the minimum, so `Math.sqrt` is not modelled.
- `VideoPlan.Round` models `Math.round` for finite numbers. Negative zero, Infinity and NaN are not modelled.
- `ConfigStore.ConfigManager.Get` and the rest of the configuration model read properties of objects only. Properties of primitives (`"abc".length`) and inherited prototype properties are undefined in the model.
- `SettingsPanel.HasOwn`: only a JSON object has the default keys as own properties. A parsed string's or array's own properties are indices and `length`, which no default key matches.
- `AppCore.App.HandleFileSelected` shows recommendations through `AppCore.RecommendFixed`, not as written. A height-only overflow, such as 1080x1920 at 2x, gets notification type `warning` in the model where src/renderer/js/core/App.js:232 gives `info`. The message and advice are those of the source; `AppCore.Recommend` and `AppCore.PortraitWarningShownAsInfo` state the as-written type.
- `VideoJob.UpdateFor`: a NaN percent, fps or target size is not modelled. Events carry numbers or undefined.

## Findings

| source | as written | input that shows it | evidently intended | confidence | as-written member | corrected member |
|---|---|---|---|---|---|---|
| src/main/services/VideoProcessor.js:350-354 | the 5-second grace timer of `cancel` SIGKILLs `this.currentProcess` whenever `isProcessing` is set when it fires | cancel job 0, job 0 errors, job 1 starts within 5 s: the timer SIGKILLs job 1, which nobody cancelled | force-kill only the cancelled command, and only if it is still running | medium, not executed | `VideoJob.GraceTimerKillsNextJob` | `VideoJob.GraceTimerFixedSparesNextJob` |
| src/renderer/js/core/App.js:232 | the notification is of type `warning` only when the output width exceeds 3840 | a 1080x1920 portrait input at 2x: the output is 2160x3840, so the "Warning" text is shown as `info` | show the warning text as a warning whenever the height overflows too | medium, not executed | `AppCore.PortraitWarningShownAsInfo` | `AppCore.RecommendFixed` |

The corrected members are the ones the rest of the model builds on:

- `VideoJob.VideoProcessor.GraceTimerFixed` is the timer that remembers the command it was armed for.
- `AppCore.App.HandleFileSelected` shows recommendations through `AppCore.RecommendFixed`.
