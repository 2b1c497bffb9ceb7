# jamstream: audio device layer and stage renderer, modelled and proved

This project models the parts of jamstream where audio meets hardware and where
the broadcast stage is drawn, and proves what they keep over whole runs:

| files | component |
|---|---|
| `Rendezvous.dfy`, `RendezvousLiveness.dfy` | the WASAPI exclusive-mode open: an opening thread and two device threads, as a step system over every interleaving |
| `ExclusiveGate.dfy`, `WasapiPolicy.dfy` | the cooldown gate in front of the exclusive probe |
| `PeriodArithmetic.dfy` | frames to 100 ns periods and back |
| `CaptureConverter.dfy`, `PlaybackConverter.dfy` | the boundary rate converters over an abstract resampler |
| `OfflineStream.dfy`, `OfflineBackend.dfy` | the offline stream: periods, two clocks, loss and refusal |
| `RateLadder.dfy`, `Rates.dfy`, `Demotion.dfy` | the sample-rate ladder and the demoted set |
| `CallbackBridge.dfy` | the two rings between device callbacks and engine, under every interleaving |
| `SampleCodec.dfy`, `DeviceStage.dfy` | sample bytes, frame mapping, and the scratch stage of a device thread |
| `PeakHold.dfy`, `StageRenderer.dfy` | the meter's peak hold and the cached stage renderer |
| `Arithmetic.dfy`, `Types.dfy`, `Wrappers.dfy` | shared facts about sums and quotients; directions; Option and Result |

`dafny verify dfyconfig.toml` checks all of it.

## How the source is read

- Driver, host and thread-spawn results, event waits, clocks and error callbacks
  are choices of the environment: a step with a nondeterministic outcome, or a
  parameter. A device thread may panic at any point while it runs.
- A resampler is any deterministic machine that asks for between one frame and its
  maximum and produces between one frame and its announced output. Samples are
  opaque to the converters and the rings.
- `f64` and `f32` values are exact rationals or reals, with one exception: the
  conversion of a 32-bit integer to binary32 is rounded to nearest, ties to even
  (section 4.3.1 of IEEE 754-2019), because the codec's 32-bit round trip turns on
  it. Scaling by a power of two is exact either way.
- A painted scene is the free term over what painting it reads, so two scenes are
  equal exactly when nothing they were painted from differs. A level is its
  reading in decibels; the logarithm is not modelled.
- Code that changes fields in place is a class over those fields (and over arrays
  of the constructed capacity where the source promises not to reallocate); code
  that races is a step system.

## What the code does not promise

Properties that the comments suggest, or that one might assume, and that do not
hold as they stand. Each entry names a lemma with a concrete witness, then the
lemma with the exact condition.

- A device thread's death reaches the poller: not when it panics early
  (`PanicIsSilent`). Exactly which deaths are silent: `DeathIsSilentIff`, and
  which panics make one: `PanicIsSilentIff`.
- A failed request stays away for its cooldown: not when requests take turns, for
  the gate has one slot (`TakingTurnsDefeatsTheGate`). Exactly when one is held
  off: `GatedIff`; exactly when one probes early: `EarlyProbeIff`.
- Frames to period and back stays within one frame: not for one frame above 20 MHz
  (`OneFrameIsLost`). Exactly the rates from 1 Hz to 20 MHz: `RoundTripIffRate`.
- 32-bit words survive decode and encode: not 2^24 + 1 (`LostWord`). Exactly those
  binary32 can hold, and `i32::MAX`: `EncodeOfDecode`.
- A low-water reading below one callback's worth is an underrun: not when a push
  lands in time (`LowReadingWithoutUnderrun`). Exactly when the fill read and what
  landed after it fall short: `UnderrunIff`.
- With every dead stream polled before the next open, a device loses one clock:
  not when two streams are live at once (`TwoLiveStreamsCanBothLoseTheClock`).
  Exactly when two losses can come: `CanLoseTwoIff`; exactly what rules them out
  over a run, device by device: `DisciplinedIff`.
- A refused rate demotes the device: not when the refusal arrives after the first
  poll of the dead stream (`LateRefusalIsForgotten`). Exactly what demotes:
  `DemotedIff`.
- Frames are functions of their arguments: not when a slot's peak hold outlives the
  member who set it (`HoldOutlivesItsMember`), nor when pixels are rewritten under
  an unchanged buffer (`RewrittenPixelsStayOnStage`). Exactly when they are:
  `FrameIsPureIff`; exactly when the cached scene is current: `CacheIsCurrentIff`.

## Model

| member | source | states |
|---|---|---|
| `Rendezvous.OpenIsSafe` | crates/audio-io/src/wasapi_backend.rs:341-467 | Over every interleaving: no stream starts unless both directions reported ready; each handler half is in exactly one place; a failed open has no thread left; the handler comes back whole iff no channel accepted a half, never in part; the failure is the one the reports determine, capture's first, the catch-all for silence; success reports the sum and the maximum of the two periods |
| `Rendezvous.OpenFailsOnlyForAReason` | crates/audio-io/src/wasapi_backend.rs:347-467 | An open of at least one channel fails only when a thread could not be spawned, a direction did not report ready, or a thread panicked |
| `Rendezvous.ErrorIsForGood` | crates/audio-io/src/wasapi_backend.rs:632-655 | Once a device call has failed, the latch stays up and that thread never waits or delivers again |
| `Rendezvous.LostAfterTenInARow` | crates/audio-io/src/wasapi_backend.rs:728-744 | A thread whose deliveries succeed declares its device lost iff ten waits in a row have expired |
| `Rendezvous.StepKeepsInv` | crates/audio-io/src/wasapi_backend.rs:394-467 | Every step of any of the three threads keeps the protocol invariant: channel ends, ownership, reports heard, clean-up order |
| `Rendezvous.RunKeepsInv` | crates/audio-io/src/wasapi_backend.rs:341-467 | The invariant holds in every state of every run from the start of the open |
| `Rendezvous.DeviceStepKeeps` | crates/audio-io/src/wasapi_backend.rs:588-744 | Either device thread, at any step including a panic, keeps its half in one place, reports before it waits, and ends after taking its half only when told to stop, latched, or panicked |
| `Rendezvous.ReportIsHeard` | crates/audio-io/src/wasapi_backend.rs:618-620 | The opener is still listening whenever a thread is about to report, so the failed-send exit is never taken |
| `Rendezvous.DeadThreadIsLatched` | crates/audio-io/src/wasapi_backend.rs:632-655 | The latch is up iff some device thread raised it, and a thread of an opened stream that ended unasked raised it itself or panicked |
| `Rendezvous.DeathIsSilentIff` | crates/audio-io/src/wasapi_backend.rs:510-521 | With a dead thread on an opened, unstopped stream the poller hears nothing iff every dead thread panicked before latching and no other latched |
| `Rendezvous.PanicIsSilentIff` | crates/audio-io/src/wasapi_backend.rs:637-655 | A panic goes unheard iff it strikes before its thread has broken off its own loop and the other thread has latched nothing |
| `Rendezvous.PanicIsSilent` | crates/audio-io/src/wasapi_backend.rs:519-521 | A reachable opened stream whose capture thread is gone with the error latch still clear |
| `RendezvousLiveness.NoDeadlock` | crates/audio-io/src/wasapi_backend.rs:394-485 | Every reachable unfinished state has an enabled step that is not a panic and strictly lowers the measure |
| `RendezvousLiveness.StepMeasure` | crates/audio-io/src/wasapi_backend.rs:394-467 | No step raises the measure, and every opener step, or any step while the opener is blocked, lowers it |
| `RendezvousLiveness.LapsLeaveTheOpenerFree` | crates/audio-io/src/wasapi_backend.rs:639-653 | While a device loop can still go round, the opener is not blocked |
| `RendezvousLiveness.OpenReturns` | crates/audio-io/src/wasapi_backend.rs:341-467 | On every infinite schedule that does not starve the opener, the open returns, whatever fails or panics |
| `ExclusiveGate.RetryGate.Remaining` | crates/audio-io/src/wasapi_policy.rs:370-379 | Some exactly when this key is gated now, and then the positive time left |
| `ExclusiveGate.RetryGate.Block` | crates/audio-io/src/wasapi_policy.rs:384-386 | Afterwards exactly this key is gated, exactly until now plus the cooldown; a zero cooldown gates nothing |
| `ExclusiveGate.RetryGate.Clear` | crates/audio-io/src/wasapi_policy.rs:388-390 | Nothing is gated |
| `ExclusiveGate.WindowsBackend.OpenDuplex` | crates/audio-io/src/wasapi_backend.rs:209-273 | Probes iff allowed and not gated; which of the four openings results, exactly; the gate moves as the run model says |
| `ExclusiveGate.GateMoves` | crates/audio-io/src/wasapi_backend.rs:209-273 | Outcome by outcome, when an attempt probes and where it leaves the gate: never when exclusive mode is not allowed, open after a success, closed on this very request until its cooldown has passed |
| `WasapiPolicy.FailureClasses` | crates/audio-io/src/wasapi_policy.rs:120-169 | Which failures shared mode cannot survive, and which keep a request away for nothing, ten seconds or a minute |
| `ExclusiveGate.LastVerdict` | crates/audio-io/src/wasapi_backend.rs:248-266 | A closed gate was closed by the last verdict that touched it, a cooling failure of the very key it holds |
| `ExclusiveGate.GatedIff` | crates/audio-io/src/wasapi_policy.rs:353-391 | Over any run a request is gated iff the last verdict that touched the gate was its own failure and its cooldown has not run out; no other key's verdict gates it |
| `ExclusiveGate.NeverGatedPastAMinute` | crates/audio-io/src/wasapi_policy.rs:149-169 | No gate ever reaches more than sixty seconds ahead of the clock |
| `ExclusiveGate.EarlyProbeIff` | crates/audio-io/src/wasapi_policy.rs:353-391 | Between two attempts of one request, the second inside the first's cooldown, the second probes iff another request's verdict came between |
| `ExclusiveGate.ProbesAreSpaced` | crates/audio-io/src/wasapi_policy.rs:138-169 | Two probes of one request with no other request's verdict between them are apart by at least the cooldown of the first one's failure |
| `ExclusiveGate.ProbeRateIsBounded` | crates/audio-io/src/wasapi_policy.rs:138-169 | A window of length T holds at most floor(T/c)+1 probes of a request that keeps failing there with cooldown at least c, undisturbed between its probes |
| `ExclusiveGate.TakingTurnsDefeatsTheGate` | crates/audio-io/src/wasapi_policy.rs:353-362 | Requests that alternate keys probe every single time, cooldowns or not |
| `PeriodArithmetic.NearestUnit` | crates/audio-io/src/wasapi_policy.rs:319-324 | The period is within half a 100 ns unit of the exact time |
| `PeriodArithmetic.RoundTripWithinOne` | crates/audio-io/src/wasapi_policy.rs:319-334 | f <= frames(period(f)) <= f+1 for every u32 f at every rate from 1 Hz to 20 MHz |
| `PeriodArithmetic.RoundTripIffRate` | crates/audio-io/src/wasapi_policy.rs:319-334 | That bound holds for all frame counts at a rate iff the rate is in that range |
| `PeriodArithmetic.OneFrameIsLost` | crates/audio-io/src/wasapi_policy.rs:319-334 | Above 20 MHz one frame converts to no period and comes back as none |
| `PeriodArithmetic.RoundsDownIff` | crates/audio-io/src/wasapi_policy.rs:319-324 | The conversion rounds down exactly when less than half a unit is left over |
| `PeriodArithmetic.RoundTripExactIff` | crates/audio-io/src/wasapi_policy.rs:319-334 | The count itself comes back iff the conversion rounded down |
| `PeriodArithmetic.PeriodFramesCovers` | crates/audio-io/src/wasapi_policy.rs:326-334 | A converted period covers at least the time it came from and not a whole frame more |
| `PeriodArithmetic.PeriodsOutOfRange` | crates/audio-io/src/wasapi_policy.rs:319-334 | No rate gives no period, no period gives no frames, and a count past u32 saturates |
| `PeriodArithmetic.BoundsAreAskable` | crates/audio-io/src/wasapi_policy.rs:304-351 | Advertised bounds are the larger of 32 and the driver's minimum up to 4800, never inverted, in the askable range, and absent iff that minimum is above the ceiling; a request clamps to the nearer end |
| `CaptureConverter.InterleavedMeets` | crates/audio-io/src/resample.rs:96-118 | The resampler counted in samples meets the contract, asks for its frames times the channels, and processes as it did |
| `CaptureConverter.DrainAppend` | crates/audio-io/src/resample.rs:106-123 | Draining the backlog in two sittings is draining it once |
| `CaptureConverter.CallbackSizesDoNotMatter` | crates/audio-io/src/resample.rs:102-125 | Any split of a stream into callbacks gives the chunks, state and backlog of one pass over all of it |
| `CaptureConverter.DrainIsTransducer` | crates/audio-io/src/resample.rs:106-123 | The conversions tile the stream from its start, each the resampler on the state the one before left and on exactly the samples it asks for, and what remains is too short for another: nothing dropped, doubled or reordered |
| `CaptureConverter.ConvertingCapture.constructor` | crates/audio-io/src/resample.rs:93-101 | Capacity (MAX_CHUNK_FRAMES + input max) * channels, empty backlog |
| `CaptureConverter.ConvertingCapture.OnCapture` | crates/audio-io/src/resample.rs:102-125 | One callback of any size is exactly one drain of backlog plus samples, inside the fixed capacity, ending below one input need |
| `CaptureConverter.ConvertingCapture.HandedIsTransduced` | crates/audio-io/src/resample.rs:102-125 | After any callbacks, what the inner handler was called with, the state and the backlog are that transducer's over everything fed |
| `CaptureConverter.ConvertingCapture.Append` | crates/audio-io/src/resample.rs:104-105 | A slice always fits the constructed capacity |
| `CaptureConverter.ConvertingCapture.ConvertOne` | crates/audio-io/src/resample.rs:107-122 | One conversion takes a need from the front, hands on one chunk and keeps the rest in order |
| `PlaybackConverter.OutputIsOneStream` | crates/audio-io/src/resample.rs:155-171 | The converted stream only grows at its end, by at least one sample a pull |
| `PlaybackConverter.InterleavedFeedMeets` | crates/audio-io/src/resample.rs:144-167 | The resampler and source counted in samples meet the contract and are otherwise unchanged |
| `PlaybackConverter.OutputIsTransducer` | crates/audio-io/src/resample.rs:155-171 | The stream is chunk after chunk of the source converted on the state the chunk before left behind, from the initial state, joined in order |
| `PlaybackConverter.LeastPullsMeansLeast` | crates/audio-io/src/resample.rs:155-171 | n pulls cover what was served iff n is at least the pulls made |
| `PlaybackConverter.RequestSizesDoNotMatter` | crates/audio-io/src/resample.rs:152-177 | Two histories that served equally much pulled equally often and served the same audio |
| `PlaybackConverter.PullsAreLeast` | crates/audio-io/src/resample.rs:154-171 | A run of requests, each covered before the next, pulls the least number of times that covers their sum |
| `PlaybackConverter.ConvertingPlayback.constructor` | crates/audio-io/src/resample.rs:144-151 | Capacity (MAX_CHUNK_FRAMES + output max) * channels, nothing pulled |
| `PlaybackConverter.ConvertingPlayback.OnPlayback` | crates/audio-io/src/resample.rs:152-177 | A request of any size gets the next part of the one unrolled stream; pulls stay the least that cover the service; staging stays in its capacity |
| `PlaybackConverter.ConvertingPlayback.StateIsCarried` | crates/audio-io/src/resample.rs:145-176 | The resampler in use is the one that all pulls so far have left, and staging is the unserved end of their output |
| `PlaybackConverter.ConvertingPlayback.PullOne` | crates/audio-io/src/resample.rs:155-171 | One pull converts the next chunk on the state held, keeps the state it leaves, appends what it made, and fits the capacity |
| `OfflineStream.DeliveriesComeTo` | crates/audio-io/src/wav.rs:468-491 | Delivered capture is the input followed by zeros, and playback has been asked for exactly floor(F * playback_rate / capture_rate) frames, however F was split |
| `OfflineStream.CallAt` | crates/audio-io/src/wav.rs:468-486 | Delivery k is one capture call with its own window of the input, then one playback call for the frames owed since the delivery before |
| `OfflineStream.EqualClocksAreFrameForFrame` | crates/audio-io/src/wav.rs:461-467 | On equal clocks playback is asked for exactly the frames delivered |
| `OfflineStream.DebtStaysBelowOne` | crates/audio-io/src/wav.rs:418-421 | The debt stays in [0, 1), and is zero for the whole run on equal clocks |
| `OfflineStream.DebtStep` | crates/audio-io/src/wav.rs:480-483 | One accumulation asks for exactly the difference of two floors and leaves exactly the new debt |
| `OfflineStream.ConvertedCaptureDependsOnTotal` | crates/audio-io/src/wav.rs:303-308 | Wrapped in the capture converter, the session-rate chunks, state and backlog depend only on the total frames delivered |
| `OfflineStream.ConvertedPlaybackDependsOnTotal` | crates/audio-io/src/wav.rs:309-315 | Wrapped in the playback converter, the inner source's pulls depend only on the total frames delivered and are the least that cover the frames owed |
| `OfflineBackend.RungReportsItsClock` | crates/audio-io/src/wav.rs:49-82 | A rung's outcome is the converter's iff its clock is not the session's, at that clock |
| `OfflineBackend.RungsAre` | crates/audio-io/src/wav.rs:49-82 | Clock and outcome of each of the four rungs, at the session's rate and away from it |
| `OfflineBackend.PumpSizesDoNotMatter` | crates/audio-io/src/wav.rs:449-459 | With a device period, two pump schedules of equal total drive the identical callback sequence and leave the same pending below the period; without one, the same audio and frames |
| `OfflineBackend.WavStream.Scheduled` | crates/audio-io/src/wav.rs:449-459 | A stream's deliveries and pending frames are those of the reference schedule of its pumps |
| `OfflineBackend.WavStream.Pump` | crates/audio-io/src/wav.rs:449-459 | Adds its frames to the run and keeps every field a function of the deliveries made |
| `OfflineBackend.WavStream.Deliver` | crates/audio-io/src/wav.rs:468-501 | One callback pair, then the loss threshold: errored, and the backend's latch set, iff they were or the pumped frames have reached it |
| `OfflineBackend.WavStream.Read` | crates/audio-io/src/wav.rs:469-478 | The callback carries the next window of input then silence; exhausted iff more was asked than there is |
| `OfflineBackend.WavStream.Play` | crates/audio-io/src/wav.rs:480-486 | The callback asks for exactly the frames the playback clock owes beyond those already asked |
| `OfflineBackend.WavStream.ReportDeviceLost` | crates/audio-io/src/wav.rs:505-507 | The stream is errored from now on and stays consistent |
| `OfflineBackend.WavBackend.OpenOffline` | crates/audio-io/src/wav.rs:262-365 | Every open counts, refused ones too; which opens are refused; clocks and outcomes are those of the rungs for that open; the one-shot loss is spent once served unless it repeats; the loss latch rises iff a zero threshold is armed |
| `RateLadder.BestIsLastMaximum` | crates/audio-io/src/cpal_policy.rs:165-184 | The choice covers the rate exactly, nothing covering is better, none after it is as good; missing iff nothing covers |
| `RateLadder.BestPrefers` | crates/audio-io/src/cpal_policy.rs:173-184 | No covering range beats the choice: f32 first, then the native channel count, then more channels |
| `RateLadder.PlanRefusesIff` | crates/audio-io/src/cpal_policy.rs:117-161 | The ladder refuses iff an undemoted capture device at 8 or 16 kHz, or a Bluetooth device or headset, is off the session rate with no range that covers it |
| `RateLadder.LadderIs` | crates/audio-io/src/cpal_policy.rs:117-161 | Exactly when a direction is opened unconverted, attempted, or converted, and with which configuration |
| `RateLadder.AskingHosts` | crates/audio-io/src/cpal_policy.rs:26-50 | The hosts asked for a rate the device does not advertise |
| `RateLadder.OpensIff` | crates/audio-io/src/cpal_backend.rs:363-455 | A planned direction opens iff the host builds it, or refuses an attempt, hands the half back and builds at the native rate; then at that rate through the converter |
| `RateLadder.OutcomeIs` | crates/audio-io/src/cpal_policy.rs:66-88 | What an open direction reports, host by host |
| `RateLadder.EveryRungIsBridged` | crates/audio-io/src/cpal_backend.rs:363-455 | On every rung, also after a refused attempt, a converter is in place iff the opened rate is not the session's iff the outcome is Resampled at that rate |
| `RateLadder.UnverifiedHostsAreNotAsked` | crates/audio-io/src/cpal_policy.rs:15-50 | A host that does not verify its rate is only asked for the native or an advertised configuration |
| `Demotion.DemotedSet.Demote` | crates/audio-io/src/cpal_backend.rs:336-347 | The set gains exactly the given devices |
| `Demotion.CpalStreamHandle.OnError` | crates/audio-io/src/cpal_backend.rs:613-634 | Informational kinds change nothing; any other latches the death, a config refusal also its reason |
| `Demotion.CpalStreamHandle.Errored` | crates/audio-io/src/cpal_backend.rs:730-747 | Answers the latch, and on the first dead poll demotes the clock-set devices, and the attempted ones iff refused |
| `Demotion.DemotedIsLeftAlone` | crates/audio-io/src/cpal_policy.rs:126-132 | A demoted device is planned without an attempt and its clock is not moved |
| `Demotion.OpenSparesDemoted` | crates/audio-io/src/cpal_backend.rs:220-250 | An open records a demoted device neither as clock-set nor as attempted |
| `Demotion.OpenRecords` | crates/audio-io/src/cpal_backend.rs:220-250 | A successful open records exactly the devices, of either direction, whose clock it moved, and exactly those whose attempt still stands |
| `Demotion.OpensIff` | crates/audio-io/src/cpal_backend.rs:180-218 | An open succeeds iff both directions open and the streams play |
| `Demotion.DirectionIs` | crates/audio-io/src/cpal_backend.rs:180-217 | Each direction's plan and report are those of its own endpoint, host and demotion, from what the host answered |
| `Demotion.OpenIgnoresOthers` | crates/audio-io/src/cpal_backend.rs:180-201 | Other devices' demotions make no difference to an open |
| `Demotion.DemotedOnlyGrows` | crates/audio-io/src/cpal_backend.rs:315-347 | Over any run of opens, error stores, polls and closes the demoted set only grows |
| `Demotion.DemotedIff` | crates/audio-io/src/cpal_backend.rs:310-333 | A device is demoted iff an open of the run moved its clock and a poll found that stream dead, or an open's attempt at it stood and that poll found it refused |
| `Demotion.StreamIsOpened` | crates/audio-io/src/cpal_backend.rs:220-250 | Every stream of a run was made by one open of it, and carries for good what that open recorded |
| `Demotion.NoContestAfterDemotion` | crates/audio-io/src/cpal_backend.rs:180-250 | Over any run, no open after a demotion attempts the device or moves its clock |
| `Demotion.CanLoseTwoIff` | crates/audio-io/src/cpal_backend.rs:730-747 | A device can be lost twice without another open iff two streams record it and each is lost or still can be; for moved clocks and for refused attempts |
| `Demotion.OpenSparesTheLost` | crates/audio-io/src/cpal_backend.rs:180-250 | In any run, an open that records a device finds no earlier stream whose noted death condemned it: the first of two clock-moved streams is not yet noted |
| `Demotion.DisciplineMeans` | crates/audio-io/src/cpal_backend.rs:730-747 | What the discipline asks of a caller: a recording open finds every earlier stream that records the device noted, or closed (alive, if it moved the clock) |
| `Demotion.DisciplinedIff` | crates/audio-io/src/cpal_backend.rs:730-747 | A run keeps to the discipline for a device iff at no point of it could that device be lost twice without another open |
| `Demotion.AtMostOneLossPerDevice` | crates/audio-io/src/cpal_backend.rs:730-747 | In a run that keeps to it for a device, at most one clock-moved stream and at most one refused attempt of that device are lost, whatever other devices do |
| `Demotion.TwoLiveStreamsCanBothLoseTheClock` | crates/audio-io/src/cpal_backend.rs:730-747 | A run with two live streams in which both lose the same device's clock, each polled once dead |
| `Demotion.LateRefusalIsForgotten` | crates/audio-io/src/cpal_backend.rs:735-745 | A run in which a refusal lands after the noting poll and the device is never demoted |
| `CallbackBridge.StepKeeps` | crates/audio-io/src/bridge.rs:93-112 | Every atomic step of capture, playback or engine keeps conservation, capacity, counters and the low-water invariant |
| `CallbackBridge.BridgeConserves` | crates/audio-io/src/bridge.rs:93-171 | Pulled plus ring is the accepted capture prefixes; the accepted playout prefixes are what was played plus ring, shortfalls zero; rings within capacity; counters exactly the callbacks cut short |
| `CallbackBridge.RingsTakeWhatFits` | crates/audio-io/src/bridge.rs:93-171 | At every step: a push is cut short iff its slice is longer than the free room, takes exactly that room and leaves the ring full; a pull or pop takes everything asked for that is there |
| `CallbackBridge.OverrunIff` | crates/audio-io/src/bridge.rs:93-98 | A capture callback overruns iff it brought more than the room it found, and then got exactly that room |
| `CallbackBridge.CutShortAreCounted` | crates/audio-io/src/bridge.rs:93-112 | Overruns and underruns are the numbers of callbacks cut short |
| `CallbackBridge.UnderrunIff` | crates/audio-io/src/bridge.rs:100-112 | A callback underruns iff its recorded fill plus what landed before the pop is below its request, hence its recorded fill was |
| `CallbackBridge.LowReadingWithoutUnderrun` | crates/audio-io/src/bridge.rs:192-195 | A reachable state with a reading of zero whose one callback was served in full |
| `CallbackBridge.ReadingIsLeastSinceTake` | crates/audio-io/src/bridge.rs:192-210 | A reading is the least fill recorded since the previous take, missing iff none was |
| `CallbackBridge.HighReadingMeansNoUnderrun` | crates/audio-io/src/bridge.rs:192-196 | A reading at or above a callback's request clears that callback |
| `SampleCodec.UnpackOfPack` | crates/audio-io/src/format.rs:231-251 | Little-endian two's complement: every value in range comes back from its bytes |
| `SampleCodec.PackOfUnpack` | crates/audio-io/src/format.rs:231-297 | Every byte pattern of a format comes back from its value |
| `SampleCodec.LowByteFirst` | crates/audio-io/src/format.rs:231-251 | Each format's value from its bytes: lowest byte first, the upper half of the span negative |
| `SampleCodec.RoundsToNearest` | crates/audio-io/src/format.rs:232-237 | Conversion to binary32 is representable, within half a spacing, and exact iff the value is representable |
| `SampleCodec.TiesGoToEven` | crates/audio-io/src/format.rs:232-237 | A tie rounds to the even neighbour |
| `SampleCodec.ToBinary32IsNear` | crates/audio-io/src/format.rs:232-237 | For either sign, the conversion keeps the sign and is within half a spacing |
| `SampleCodec.QuantiseInRange` | crates/audio-io/src/format.rs:269-297 | A clamped sample quantises inside the format, and leaves the low byte clear in the 24-in-32 layout |
| `SampleCodec.QuantiseTruncates` | crates/audio-io/src/format.rs:269-297 | The magnitude is the whole part of the scaled magnitude, but for positive full scale, one short |
| `SampleCodec.JustifiedTruncates` | crates/audio-io/src/format.rs:276-282 | The 24-in-32 layout is the 32-bit value with its low byte cleared downwards |
| `SampleCodec.OutOfRangeSamples` | crates/audio-io/src/format.rs:305-312 | NaN encodes as silence, everything out of range as full scale of its sign |
| `SampleCodec.QuantiseOfValue` | crates/audio-io/src/format.rs:224-303 | Which integers survive decode and encode, exactly, per format |
| `SampleCodec.EncodeOfDecode` | crates/audio-io/src/format.rs:224-303 | encode(decode(b)) = b for every 16-bit and packed 24-bit sample; for 24-in-32 iff the low byte is clear; for 32-bit iff binary32 holds it or it is i32::MAX |
| `SampleCodec.LostWord` | crates/audio-io/src/format.rs:231-275 | A 32-bit word, 2^24 + 1, that decode and encode do not give back |
| `SampleCodec.DecodeOfEncodeIsClose` | crates/audio-io/src/format.rs:261-312 | decode(encode(s)) is within one quantisation step of the clamped sample, for every binary32 sample, NaN and infinities included |
| `SampleCodec.DecodeOfEncodeIsProjection` | crates/audio-io/src/format.rs:224-303 | A second trip through the codec changes nothing, in every integer format |
| `DeviceStage.DecodedCount` | crates/audio-io/src/format.rs:219-224 | Exactly min(room, whole samples) are decoded |
| `DeviceStage.EncodedCount` | crates/audio-io/src/format.rs:255-261 | Exactly min(samples, whole samples of room) are encoded |
| `DeviceStage.DecodedAt` | crates/audio-io/src/format.rs:224-253 | Sample k is what the format makes of its own bytes |
| `DeviceStage.EncodedAt` | crates/audio-io/src/format.rs:261-304 | Sample k's bytes are the ones it is encoded to |
| `DeviceStage.DecodeToF32` | crates/audio-io/src/format.rs:224-253 | The slice's front is the decoded samples and the rest is untouched |
| `DeviceStage.EncodeFromF32` | crates/audio-io/src/format.rs:261-304 | The slice's front is the encoded samples and the rest is untouched |
| `DeviceStage.NarrowBuffersRoundTrip` | crates/audio-io/src/format.rs:224-304 | Any 16-bit or packed 24-bit buffer of whole samples comes back byte for byte |
| `DeviceStage.MappedAt` | crates/audio-io/src/format.rs:200-217 | Channel i of frame k is source channel min(offset + i, last) of frame k |
| `DeviceStage.MappedCount` | crates/audio-io/src/format.rs:205-217 | Whole frames on both sides come out one for one |
| `DeviceStage.MapFramesFrom` | crates/audio-io/src/format.rs:205-217 | The slice's front is the mapped frames and the rest is untouched |
| `DeviceStage.MappedSame` | crates/audio-io/src/wasapi_backend.rs:1036-1038 | With equal channels and no offset the mapping is the identity, so the stage may skip it |
| `DeviceStage.MappedSilence` | crates/audio-io/src/wasapi_backend.rs:1067-1087 | Silence is silence in any channels |
| `DeviceStage.MappedThereAndBack` | crates/audio-io/src/format.rs:189-198 | Fanned out to at least as many channels and taken back, frames are unchanged |
| `DeviceStage.SameSamples` | crates/audio-io/src/format.rs:92-142 | A stage's bytes and its device floats are lengths of one and the same number of samples |
| `DeviceStage.Stage.constructor` | crates/audio-io/src/wasapi_backend.rs:1018-1034 | Scratch sized for the promised periods, with at least one channel on each side |
| `DeviceStage.Stage.Deliver` | crates/audio-io/src/wasapi_backend.rs:1057-1095 | Every slice is in bounds; the handler hears exactly the packet's frames in its own channels on either path, nothing stale; nothing when the device had none |
| `DeviceStage.Stage.Write` | crates/audio-io/src/wasapi_backend.rs:1107-1140 | Every slice is in bounds; the bytes for the device are exactly the encoded, mapped frames |
| `DeviceStage.LoopbackIsTheCodec` | crates/audio-io/src/wasapi_backend.rs:1057-1140 | Written by a render stage and read by a capture stage of the same format, the handler hears its own frames, each sample once through the codec |
| `PeakHold.FramesFor` | crates/broadcast/src/meter.rs:38-41 | Never zero, and within half a frame of the duration unless that is below half a frame |
| `PeakHold.TimingFor` | crates/broadcast/src/render.rs:103-106 | The hold is within half a frame of 1.5 s and the fade of 0.5 s at every frame rate, neither ever zero |
| `PeakHold.ScaleIs` | crates/broadcast/src/render.rs:598-610 | The scale is linear from -60 dB to 0, and a level is live above -59.5 |
| `PeakHold.HeldPeakDominates` | crates/broadcast/src/render.rs:648-657 | Over any run: an active hold is the peak of the tick that set it and strictly above every peak since; inactive only on a silent or absent meter |
| `PeakHold.HoldPersists` | crates/broadcast/src/render.rs:648-657 | A held peak survives, unchanged, every lower peak inside its time |
| `PeakHold.AlphaStaysVisible` | crates/broadcast/src/render.rs:658-663 | Drawn alpha is in (0, 1], and 1 iff the age is within the hold |
| `PeakHold.AlphaFades` | crates/broadcast/src/render.rs:658-663 | After its span a hold fades by equal steps a frame, to nothing at the end of the fade |
| `PeakHold.EarlierFramesAreFresh` | crates/broadcast/src/render.rs:648-663 | A frame from before the hold was set neither ages nor resets it |
| `PeakHold.LitForTheHoldSpan` | crates/broadcast/src/render.rs:648-663 | A peak is fully lit through its hold span until one as high |
| `PeakHold.HoldIsAtOrAbovePeak` | crates/broadcast/src/render.rs:665-668 | The held segment is never below the live one |
| `PeakHold.SegmentOf` | crates/broadcast/src/render.rs:665-668 | The segment is the interval holding the fraction, the last one at full scale |
| `PeakHold.PaintedIs` | crates/broadcast/src/render.rs:665-691 | Which segments are painted full, which faded and which not, in terms of level, hold and segment middle |
| `PeakHold.RedrawIsIdempotent` | crates/broadcast/src/render.rs:648-692 | Drawing the same frame and level again changes neither hold nor pixels |
| `PeakHold.PixelsRememberIff` | crates/broadcast/src/render.rs:628-692 | A meter differs from one drawn from an idle hold iff the carried hold is up, above the peak, in time, and on a segment the level does not light |
| `StageRenderer.RowsHoldTheRoster` | crates/broadcast/src/render.rs:403-417 | The row table for n musicians holds exactly n slots |
| `StageRenderer.RowsAreBalanced` | crates/broadcast/src/render.rs:403-417 | One row to three, two to eight, three to ten, longer rows first, none apart by more than one |
| `StageRenderer.SlotOf` | crates/broadcast/src/render.rs:205-219 | Slot c of row r comes after all the rows above it |
| `StageRenderer.CardedAre` | crates/broadcast/src/render.rs:134-142 | No listener is carded; the first ten musicians are, in order, or all of them |
| `StageRenderer.FitsIsKeyEquality` | crates/broadcast/src/render.rs:80-87 | The field-by-field comparison is equality of keys |
| `StageRenderer.KeyCoversThePainting` | crates/broadcast/src/render.rs:242-354 | With equal keys the meters agree, and the scenes agree iff the avatars' pixels do: the key covers every other field read |
| `StageRenderer.SceneTellsApart` | crates/broadcast/src/render.rs:242-354 | A scene tells names, connection, art, listeners and places apart |
| `StageRenderer.SceneHasAPainter` | crates/broadcast/src/render.rs:143-155 | The cached scene was painted by some request, and every request since has had its key |
| `StageRenderer.CacheIsCurrentIff` | crates/broadcast/src/render.rs:124-239 | After any run the meters are a repaint's, one per slot, and the scene is iff no carded avatar's pixels changed under its buffer |
| `StageRenderer.CacheIsNeverStale` | crates/broadcast/src/render.rs:124-239 | With stable avatar buffers, cached scene and meters always equal a repaint from scratch |
| `StageRenderer.RewrittenPixelsStayOnStage` | crates/broadcast/src/render.rs:80-87 | A two-request run whose scene is stale |
| `StageRenderer.FrameIsPureIff` | crates/broadcast/src/render.rs:124-178 | A frame is a new renderer's iff no carded avatar's pixels changed under its buffer and no hold from an earlier frame shows on it |
| `StageRenderer.StableFrameIsPureIff` | crates/broadcast/src/lib.rs:56-60 | With stable buffers, iff no such hold shows |
| `StageRenderer.HoldOutlivesItsMember` | crates/broadcast/src/lib.rs:4-6 | A one-request past after which the same arguments draw a different frame |
| `StageRenderer.FrameIs` | crates/broadcast/src/render.rs:124-178 | A frame is the cached scene and, slot by slot, the member's own peak and rms painted on the hold the slot carries |
| `StageRenderer.SlotIsOneMeter` | crates/broadcast/src/render.rs:160-177 | A slot's hold is that of one meter drawn for whoever was in the slot, so what holds of a meter over a run holds of every slot |
| `StageRenderer.Renderer.constructor` | crates/broadcast/src/render.rs:92-117 | An empty stage, ten idle holds, positive hold and fade counts |
| `StageRenderer.Renderer.Render` | crates/broadcast/src/render.rs:124-178 | Scene, key, meters and holds move as the run says, and the frame is the one the run defines |
| `StageRenderer.Renderer.TakeCards` | crates/broadcast/src/render.rs:134-142 | The first ten musicians in order, listeners passed over |
| `StageRenderer.Renderer.Rebuild` | crates/broadcast/src/render.rs:180-239 | Every musician gets a card and a meter in its own slot, in bounds of the roster, and the key is theirs |
| `StageRenderer.Renderer.DrawMeters` | crates/broadcast/src/render.rs:160-177 | Every slot in use draws its segments and settles its own hold; the others keep theirs |
| `StageRenderer.Renderer.DrawMeterLive` | crates/broadcast/src/render.rs:628-692 | The settled hold and every segment's alpha, none on an absent meter |

## Left out

- COM, MMCSS, HRESULT classification, endpoint lookup and format negotiation: foreign calls behind one setup step.
- `ExclusiveStream` shutdown, drop and close, and the frames-zero packet loop limit of the capture thread: easy members around the modelled loop.
- Sinc filter quality, group delay, `added_ms` and `session_frames`: signal processing figures.
- Rounding drift of the `f64` playback debt and of the `f64` period formulas: both are stated in exact arithmetic.
- Integer widths of latency sums, frame counters and the `u64`/`u32` atomics: unbounded here; the low-water sentinel is kept and the playout capacity is below it.
- A zero device period, a zero capture rate and a session rate the resampler cannot be built for: the source loops, divides by zero or panics there.
- WAV reading and writing, and a writer error that ends a pump early.
- Mutex poisoning, and one device answering with different ids within one open.
- The recoverable handler slot's contended first callback: only whether the half came back is modelled.
- The raw copy of 32-bit floats inside `SampleCodec`: `DeviceStage` covers it as one more layout.
- `FormatSpec`, `format_candidates`, `playout_depth` and `playout_cushion_samples`: easy members.
- Pixel drawing, fonts, palette and avatar decoding, card rectangles, segment colours, and NaN levels.
- Weak-memory reorderings: every atomic access and ring operation is one step in one total order.
- ExclusiveGate.ProbesAreSpaced: asks that no other request's verdict falls between the two probes, because one evicts the gate's only entry; see `EarlyProbeIff`.
- Demotion.AtMostOneLossPerDevice: asks for the discipline that `DisciplinedIff` shows to be exactly what is needed.
- Demotion.CpalStreamHandle.Errored: a poll and an open are one step each; the gap between noting a death and demoting its devices, seen by a second poller or an open in flight, is not modelled.
- The CLI, networking, session, cloud, site and packaging code.
