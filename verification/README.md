# Verified models of the voice client

The repository joins a mediasoup client for Android with the audio effect and media manager
code of an audio-video library. This project models the parts of it whose correctness is
hardest to see from the code, and proves what they are for.

- **Time scaling** (`Samples`, `Rings`, `TimeScaleSpec`, `TimeScaleLaws`, `TimeScale`,
  `PitchEffects`, `PitchCycler`).
  Pitch and pace effects insert speech into a ring of 16384 samples and read it back at
  another rate, adding or removing whole pitch periods so that the level stays in a band.
  The specification is an unbounded stream; the ring with its masked indices is an object
  that refines it. The similarity of two periods is a function that is not interpreted, and
  samples are mixed over the reals. The laws say which samples come out: first in, first out
  up to a splice, and a periodic signal unchanged through any splices.
- **Reverb, reversal, WAV conversion** (`AllPass`, `Reverse`, `WavEffect`). An all-pass delay
  ring against its recurrence and an energy identity; seek-and-reverse loops against whole
  reversal; the conversion loop against exact sample counts.
- **Media manager** (`MediaManagerSpec`, `MediaManagerLaws`, `MediaManager`, `Sounds`). One thread handles a queue
  of messages; what it asks of the platform posts further messages and changes the audio
  route. `MediaManagerSpec` is the state machine, with every other thread, the Bluetooth timer
  and the hardware as steps of their own; `MediaManager` is the object whose handlers refine
  it. `MediaManagerLaws` says field by field what each message does. `Sounds` decides which sounds may play together.
- **Packet queue** (`PacketQueue`). Any number of threads push and pop packets around a lock
  and a semaphore, each lock operation, list operation, semaphore operation and reference
  count a step of its own.
- **RTP negotiation** (`RtpValidation`, `RtpAcceptance`, `RtpNegotiation`, `RtpParameters`,
  `RtpSending`).
  Validation of capabilities and parameters as JSON, matching of local and remote codecs with
  a matcher that rewrites what it matches, pairing of RTX codecs through `apt` (section 8.6 of
  RFC 4588), and the receive, sending and probator parameters made from the result. The
  H.264 profile functions (section 8.1 of RFC 6184) are parameters.

Code that updates fields or arrays in place is modelled by classes and methods with loops;
each method is proved to compute a specification function, and the theorems are about those
functions and about whole runs. Errors are results, not preconditions (`Wrappers`).

Some promises turn out to hold only under a condition. Each is stated with the exact one and
with an input or a run that fails it:

- an AUDIO_ALLOC that arrives while the device is held leaves `alloc_pending` set, so when the
  system call is left and entered again within the same call the audio starts without being
  announced; the end of the call clears the flag (`AnnouncedIff`, `ReentryEffect`,
  `SilentReentry`, `EndsCall`);
- DEVICE_CHANGED messages can go round for ever when the speaker is preferred and switching it
  on leaves the earpiece on (`SettlesIff`, `GoesRoundFromStart`);
- an exclusive sound may play beside others if it has a priority, shares its player with
  another name, or is registered while its player runs (`PlayKeepsIff`, `StepKeepsIff`,
  `SafeIff`, `PriorityBreaks`, `SharingBreaks`);
- a header extension with an unknown direction passes validation, and neither receive
  capabilities nor, for its kind, sending parameters can be built (`RecvFromJsonAccepted`,
  `DirectedIff`, `BuiltIff`, `UnknownDirection`, `UnknownDirectionSends`);
- receive capabilities do not pass validation when a matched remote codec has no payload type
  (`RecvFromJsonAccepted`, `MissingPayloadType`), nor probator parameters when the video
  parameters have no codec (`ProbatorAcceptedIff`, `NoCodecToProbe`);
- when one side's RTX codec has no payload type, the other side's RTX payload type is
  negotiated without a partner (`RtxPairedIff`, `HalfTypedJson`).

`dafny verify dfyconfig.toml` checks everything.

## Model

| member | source | states |
|---|---|---|
| `Samples.Mix` | audioeffect/deps/avs/src/audio_effect/time_scale.cpp:51-59 | a crossfaded sample lies between its two sources |
| `Samples.CrossfadeSelf` | audioeffect/deps/avs/src/audio_effect/time_scale.cpp:96-103 | crossfading a signal with itself gives the signal back |
| `Samples.CrossfadeRamp` | audioeffect/deps/avs/src/audio_effect/time_scale.cpp:47-59 | step i of n weighs the rising signal with i + 1 and the falling one with n − i − 1, to less than one unit of rounding, and the last step is the rising signal |
| `TimeScaleSpec.RemovedContents` | audioeffect/deps/avs/src/audio_effect/time_scale.cpp:22-67 | a removal leaves an untouched prefix, then 2·fs samples that fade on a straight ramp from the signal to the signal one period later, then the untouched last samples, for every window size including the clamped one |
| `TimeScaleSpec.RemoveOne` | audioeffect/deps/avs/src/audio_effect/time_scale.cpp:22-67 | the queue gets exactly best_d shorter, or stays as it is when less than a period is buffered; the read position does not move |
| `TimeScaleSpec.InsertedContents` | audioeffect/deps/avs/src/audio_effect/time_scale.cpp:69-115 | everything before the splice point and the last L samples are unchanged; between them lie 2·fs samples that fade on a straight ramp from the signal to the signal one period earlier, and then a verbatim copy of the earlier period |
| `TimeScaleSpec.InsertOne` | audioeffect/deps/avs/src/audio_effect/time_scale.cpp:69-115 | the queue gets exactly best_d longer and the read position does not move |
| `TimeScaleSpec.RemoveOnePeriodic` | audioeffect/deps/avs/src/audio_effect/time_scale.cpp:22-67 | on a signal of that period a removal only drops the last period: nothing audible changes |
| `TimeScaleSpec.InsertOnePeriodic` | audioeffect/deps/avs/src/audio_effect/time_scale.cpp:69-115 | on a signal of that period an insertion only repeats the last period |
| `TimeScaleSpec.InsertThenRemove` | audioeffect/deps/avs/src/audio_effect/time_scale.cpp:22-115 | on a periodic signal a removal undoes an insertion exactly |
| `TimeScaleSpec.RemoveThenInsert` | audioeffect/deps/avs/src/audio_effect/time_scale.cpp:22-115 | on a periodic signal an insertion undoes a removal exactly |
| `TimeScaleSpec.SearchFindsBest` | audioeffect/deps/avs/src/audio_effect/time_scale.cpp:153-178 | the search keeps the first lag with the highest similarity; every scored lag in range scores no higher |
| `TimeScaleSpec.LagInRange` | audioeffect/deps/avs/src/audio_effect/time_scale.cpp:151-182 | the chosen lag is between 1 ms and the configured maximum, also when the search finds nothing or the frame is unvoiced |
| `TimeScaleSpec.Shorten` | audioeffect/deps/avs/src/audio_effect/time_scale.cpp:186-191 | the shortening loop ends with the level at or below 45 ms and above 45 ms minus one period |
| `TimeScaleSpec.Boost` | audioeffect/deps/avs/src/audio_effect/time_scale.cpp:194-202 | the similarity-driven expansion never shrinks the level and never raises it beyond 45 ms plus half a period |
| `TimeScaleSpec.Refill` | audioeffect/deps/avs/src/audio_effect/time_scale.cpp:204-209 | the refill loop ends with at least the target level and less than one period above it |
| `TimeScaleSpec.BalanceBounds` | audioeffect/deps/avs/src/audio_effect/time_scale.cpp:184-210 | after level control N + 3 ms are buffered, at most 45 ms plus half a period, and one period of history behind the read position is still in the ring |
| `TimeScaleSpec.AdvanceSettled` | audioeffect/deps/avs/src/audio_effect/time_scale.cpp:126-215 | one insertion and one extraction deliver exactly N samples and leave between 3 ms and 45 ms + D/2 − N buffered, with the history the next splice needs still in the ring |
| `TimeScaleSpec.Run` | audioeffect/deps/avs/src/audio_effect/time_scale.cpp:117-215 | for every run from time_scale_init: the buffer stays settled, holds at least 3 ms after each extraction, and exactly the requested number of samples has come out |
| `TimeScaleLaws.RemoveOneContents` | audioeffect/deps/avs/src/audio_effect/time_scale.cpp:22-67 | the same of what is buffered, at the place the level puts the removal |
| `TimeScaleLaws.InsertOneContents` | audioeffect/deps/avs/src/audio_effect/time_scale.cpp:69-115 | the same for an insertion |
| `TimeScaleLaws.ChosenLag` | audioeffect/deps/avs/src/audio_effect/time_scale.cpp:151-182 | the lag is the first with the best score of a voiced frame if one scores above −1, else ten milliseconds with score 0.1 |
| `TimeScaleLaws.BoostDueIff` | audioeffect/deps/avs/src/audio_effect/time_scale.cpp:195-197 | a period is similar enough to be repeated exactly when its score exceeds 0.75 less 0.015 for each missing millisecond below 35 |
| `TimeScaleLaws.LevelLaw` | audioeffect/deps/avs/src/audio_effect/time_scale.cpp:184-209 | a high level loses whole periods down to 45 ms; a low one gains the periods nearest to 10 ms if a boost is due and then just enough to reach N + 3 ms |
| `TimeScaleLaws.Delivers` | audioeffect/deps/avs/src/audio_effect/time_scale.cpp:126-215 | first in, first out: what a call delivers, followed by what stays buffered, begins with what was buffered followed by the input, up to the first splice, and equals it if and only if nothing is spliced |
| `TimeScaleLaws.PeriodicStep` | audioeffect/deps/avs/src/audio_effect/time_scale.cpp:126-215 | on a signal whose period is the chosen lag a call delivers the signal itself, whatever is removed or repeated |
| `TimeScaleLaws.FirstInFirstOut` | audioeffect/deps/avs/src/audio_effect/time_scale.cpp:117-215 | over any unspliced stretch of any run everything delivered followed by everything buffered is what it was, followed by all inputs in order |
| `TimeScaleLaws.PeriodicRun` | audioeffect/deps/avs/src/audio_effect/time_scale.cpp:117-215 | over any stretch of any run a signal whose period is the chosen lag comes out as it went in |
| `TimeScale.TimeScaler.constructor` | audioeffect/deps/avs/src/audio_effect/time_scale.cpp:117-124 | a fresh ring represents an empty stream behind 16384 samples of silence |
| `TimeScale.TimeScaler.Insert` | audioeffect/deps/avs/src/audio_effect/time_scale.cpp:126-141 | appends the block to the stream and records the pitch range; older samples survive |
| `TimeScale.TimeScaler.RemoveOne` | audioeffect/deps/avs/src/audio_effect/time_scale.cpp:22-67 | the masked in-place copy loops refine the removal on the unbounded stream |
| `TimeScale.TimeScaler.InsertOne` | audioeffect/deps/avs/src/audio_effect/time_scale.cpp:69-115 | the masked in-place copy loops refine the insertion on the unbounded stream, reading history behind read_idx correctly across the wrap |
| `TimeScale.TimeScaler.FindLag` | audioeffect/deps/avs/src/audio_effect/time_scale.cpp:151-182 | the running maximum refines the best-lag search |
| `TimeScale.TimeScaler.ShortenLoop` | audioeffect/deps/avs/src/audio_effect/time_scale.cpp:186-191 | terminates and refines Shorten |
| `TimeScale.TimeScaler.RefillLoop` | audioeffect/deps/avs/src/audio_effect/time_scale.cpp:204-209 | terminates and refines Refill |
| `TimeScale.TimeScaler.Extract` | audioeffect/deps/avs/src/audio_effect/time_scale.cpp:143-215 | chooses the lag, balances the level and reads N samples; no read passes the write position |
| `TimeScale.TimeScaler.RunAll` | audioeffect/deps/avs/src/audio_effect/time_scale.cpp:117-215 | any run on the ring delivers exactly what the stream specification delivers |
| `PitchRange.FindMinMax` | audioeffect/deps/avs/src/audio_effect/pitch_shift.cpp:113-131 | minimum and maximum over the converted lags, seen from 1000 and 0; (1000, 0) when unvoiced |
| `PitchShift.RatioFor` | audioeffect/deps/avs/src/audio_effect/pitch_shift.cpp:36-101 | every strength, clamped to the table, gives a ratio that turns the pitch the way it is asked |
| `PitchShift.StrengthOrders` | audioeffect/deps/avs/src/audio_effect/pitch_shift.cpp:36-101 | a stronger effect shifts further |
| `PitchShift.Proportions` | audioeffect/deps/avs/src/audio_effect/pitch_shift.cpp:113-156 | lags, blocks and rates are the exact proportions of the ratio, rounded down |
| `PitchShift.LagWithin` | audioeffect/deps/avs/src/audio_effect/pitch_shift.cpp:113-131 | voiced lags of 32 to 288 convert to between 1 and 27 ms for every shipped ratio |
| `PitchShift.SetupSound` | audioeffect/deps/avs/src/audio_effect/pitch_shift.cpp:36-101 | from 1 kHz on both sides up to 164 kHz the rates and block lengths of every shipped ratio meet what the time-scale buffer needs |
| `PitchShift.NextStep` | audioeffect/deps/avs/src/audio_effect/pitch_shift.cpp:143-156 | each frame meets what the time-scale buffer needs; it searches exactly from the smallest to the largest converted lag |
| `PitchShift.Process` | audioeffect/deps/avs/src/audio_effect/pitch_shift.cpp:133-159 | for both directions and every strength the frame loop is a run of the time-scale specification with one step per frame, each searching the lags of its frame; it yields as many samples as it consumes |
| `PaceShift.ShiftBounds` | audioeffect/deps/avs/src/audio_effect/pace_shift.cpp:36-78 | for every strength the factor lies in 0.2..1.8, a slowed frame is no shorter than its input and then the reported length factor is at least 1024 |
| `PaceShift.ShiftTables` | audioeffect/deps/avs/src/audio_effect/pace_shift.cpp:36-78 | each step of strength changes the length by a fifth, clamped to four steps; faster and slower are mirror images |
| `PaceShift.LengthsExact` | audioeffect/deps/avs/src/audio_effect/pace_shift.cpp:80-135 | output length, length factor and lags are the exact proportions rounded down |
| `PaceShift.NextStep` | audioeffect/deps/avs/src/audio_effect/pace_shift.cpp:125-135 | each frame meets what the time-scale buffer needs; it searches exactly from the smallest to the largest converted lag |
| `PaceShift.Process` | audioeffect/deps/avs/src/audio_effect/pace_shift.cpp:115-141 | the frame loop is a run of the time-scale specification, each step searching the lags of its frame; the output length is L10_out times the frame count |
| `PitchCycler.SweepStays` | audioeffect/deps/avs/src/audio_effect/pitch_cycler.cpp:135-141 | over any number of frames comp stays in [0.7−δ, 1.5+δ] and the sweep direction is right at the ends |
| `PitchCycler.LandingTravel` | audioeffect/deps/avs/src/audio_effect/pitch_cycler.cpp:128-133 | total cursor travel is the number of samples times the step, and the cursor overshoots the frame by less than one step |
| `PitchCycler.PositionsAt` | audioeffect/deps/avs/src/audio_effect/pitch_cycler.cpp:128-133 | the cursor reads at equal distances |
| `PitchCycler.CountBounds` | audioeffect/deps/avs/src/audio_effect/pitch_cycler.cpp:127-133 | a frame yields at least 4·fs+2 and at most 4·L10 samples, so the scratch buffer never overflows |
| `PitchCycler.LagExact` | audioeffect/deps/avs/src/audio_effect/pitch_cycler.cpp:79-102 | a lag is converted to twice the rate and divided by the speed of the sweep, rounding down twice |
| `PitchCycler.LagWithin` | audioeffect/deps/avs/src/audio_effect/pitch_cycler.cpp:79-102 | voiced lags of 32 to 288, rescaled by any comp of the sweep, stay within the range the time-scale buffer needs |
| `PitchCycler.Cycler.Pick` | audioeffect/deps/avs/src/audio_effect/pitch_cycler.cpp:129-131 | every read is inside the freshly resampled frame and is the sample under the absolute cursor |
| `PitchCycler.Cycler.Scan` | audioeffect/deps/avs/src/audio_effect/pitch_cycler.cpp:127-133 | the cursor loop yields the samples of the whole upsampled stream under the cursor positions |
| `PitchCycler.Cycler.NextFrame` | audioeffect/deps/avs/src/audio_effect/pitch_cycler.cpp:122-153 | one frame yields the samples of the upsampled stream under the cursor positions of that frame, leaves the cursor where the travel over all frames puts it and keeps it within one step of the next frame |
| `PitchCycler.FeedFrame` | audioeffect/deps/avs/src/audio_effect/pitch_cycler.cpp:122-153 | one frame extends the run of the time-scale specification by one step whose input is what the cursor read and whose search uses the speed the sweep has reached |
| `PitchCycler.Process` | audioeffect/deps/avs/src/audio_effect/pitch_cycler.cpp:104-157 | the frame loop is a run of the time-scale specification; what frame i inserts is the whole upsampled stream sampled at the cursor positions of frame i of the sweep, and it searches the lags at the speed reached, over the whole run |
| `AllPass.DelayIsExact` | audioeffect/deps/avs/src/audio_effect/reverb.cpp:86-97 | the masked ring delays by exactly d if and only if 1 ≤ d ≤ 8192 |
| `AllPass.DifferenceEquation` | audioeffect/deps/avs/src/audio_effect/reverb.cpp:86-97 | every output sample is −c·x[n] + x[n−d] + c·y[n−d], with silence before the start |
| `AllPass.StepLossless` | audioeffect/deps/avs/src/audio_effect/reverb.cpp:86-97 | one sample: output energy plus stored energy grows by the input energy |
| `AllPass.Lossless` | audioeffect/deps/avs/src/audio_effect/reverb.cpp:86-97 | after any run the sum of y² plus (1−c²) times the sum of the last d values of w² equals the sum of x² |
| `AllPass.Passive` | audioeffect/deps/avs/src/audio_effect/reverb.cpp:86-97 | with c between −1 and 1 a stage never increases energy |
| `AllPass.CascadePassive` | audioeffect/deps/avs/src/audio_effect/reverb.cpp:201-203 | nor does any cascade of such stages |
| `AllPass.ShippedStages` | audioeffect/deps/avs/src/audio_effect/reverb.cpp:99-166 | every shipped stage has c strictly between −1 and 1 and a delay that the ring realises exactly, for 1 to 84 kHz |
| `AllPass.Ring.constructor` | audioeffect/deps/avs/src/audio_effect/reverb.cpp:56-62 | a fresh stage has seen no input and holds silence |
| `AllPass.Ring.Step` | audioeffect/deps/avs/src/audio_effect/reverb.cpp:86-97 | the ring-buffer step refines w[n]=x[n]+c·w[n−d], y[n]=−c·w[n]+w[n−d] over the unbounded input |
| `AllPass.Reverb.Step` | audioeffect/deps/avs/src/audio_effect/reverb.cpp:201-203 | three ring stages in turn compute the cascade of the three filters |
| `AllPass.Reverb.Process` | audioeffect/deps/avs/src/audio_effect/reverb.cpp:183-211 | the all-pass part of the loop computes the cascade of its input and never increases energy |
| `Reverse.ReversedTwice` | audioeffect/deps/avs/src/audio_effect/wav_interface.cpp:262-274 | reversing twice gives the stream back |
| `Reverse.BackwardBlocks` | audioeffect/deps/avs/src/audio_effect/wav_interface.cpp:262-274 | seeking back, reading and reversing block by block writes the whole stretch reversed |
| `Reverse.NumberOfFrames` | audioeffect/deps/avs/src/audio_effect/pcm_interface.cpp:40-66 | counting whole frames by reading gives the sample count divided by the frame length |
| `Reverse.ReversePcm` | audioeffect/deps/avs/src/audio_effect/pcm_interface.cpp:68-115 | for every length the output is reverse(s) ++ s for the first N·L samples s |
| `Reverse.ReverseWav` | audioeffect/deps/avs/src/audio_effect/wav_interface.cpp:247-288 | the output is reverse(s) ++ zeros ++ s ++ zeros for the last N·L samples s, exactly twice the input count |
| `WavEffect.NeverTooLong` | audioeffect/deps/avs/src/audio_effect/wav_interface.cpp:403-455 | the loop stops before more samples are written than the header announces |
| `WavEffect.ExactLength` | audioeffect/deps/avs/src/audio_effect/wav_interface.cpp:219-229 | for every input count and length factor (at least 1024 when the first frame fills a chunk) the chunks written fit the announced length |
| `WavEffect.PaceShiftFits` | audioeffect/deps/avs/src/audio_effect/wav_interface.cpp:403-466 | pace shifting at every strength meets that condition |
| `WavEffect.OneFrameFits` | audioeffect/deps/avs/src/audio_effect/wav_interface.cpp:403-466 | for one frame that fills a chunk it fits if and only if the factor is at least 1024 |
| `WavEffect.CircBuf.Write` | audioeffect/deps/avs/src/audio_effect/wav_interface.cpp:430-433 | appends the block to the stream behind the ring |
| `WavEffect.CircBuf.Read` | audioeffect/deps/avs/src/audio_effect/wav_interface.cpp:437-440 | reads the next samples of the stream in order |
| `WavEffect.DrainChunks` | audioeffect/deps/avs/src/audio_effect/wav_interface.cpp:435-450 | all complete chunks are handed on in order; less than one stays behind |
| `WavEffect.Convert` | audioeffect/deps/avs/src/audio_effect/wav_interface.cpp:396-466 | the chunks concatenate to a prefix of the concatenated effect outputs, and samples written plus zero fill equal num_samples_out |
| `MediaManagerSpec.StartCallKeeps` | audioeffect/deps/avs/src/mediamgr/mediamgr.c:855-878 | entering a call posts the SYS_ENTERED_CALL its new state waits for; all invariants are kept |
| `MediaManagerSpec.LeaveCallKeeps` | audioeffect/deps/avs/src/mediamgr/mediamgr.c:881-897 | leaving a call posts the SYS_LEFT_CALL its new state waits for |
| `MediaManagerSpec.OnSysEnteredKeeps` | audioeffect/deps/avs/src/mediamgr/mediamgr.c:1307-1374 | handling SYS_ENTERED_CALL keeps the invariants although it consumed the message |
| `MediaManagerSpec.OnSysLeftKeeps` | audioeffect/deps/avs/src/mediamgr/mediamgr.c:1376-1392 | so does handling SYS_LEFT_CALL |
| `MediaManagerSpec.OnAudioAllocKeeps` | audioeffect/deps/avs/src/mediamgr/mediamgr.c:1395-1430 | after AUDIO_ALLOC a pending flag means the device is held |
| `MediaManagerSpec.OnCallStateKeeps` | audioeffect/deps/avs/src/mediamgr/mediamgr.c:1504-1668 | every call-state change keeps the invariants; hold_state never becomes HOLD |
| `MediaManagerSpec.HandleKeeps` | audioeffect/deps/avs/src/mediamgr/mediamgr.c:1688-1841 | every message keeps the invariants |
| `MediaManagerSpec.StepKeeps` | audioeffect/deps/avs/src/mediamgr/mediamgr.c:1688-1841 | so does every step of another thread, the Bluetooth timer or the hardware |
| `MediaManagerSpec.EveryRun` | audioeffect/deps/avs/src/mediamgr/mediamgr.c:1860-1905 | in every state of every run ENTERING_CALL means a SYS_ENTERED_CALL is queued and EXITING_CALL a SYS_LEFT_CALL, sys_state is known, alloc_pending means an AUDIO_ALLOC is queued or the device is held, every INCALL or INVIDEOCALL notification was given with the device held, and hold_state is not HOLD; an empty queue leaves no transitional state |
| `MediaManagerLaws.HandleLaw` | audioeffect/deps/avs/src/mediamgr/mediamgr.c:1307-1841 | for every state, message and platform answer: the call, the held call, the system state, the device, the flags and the speaker preference become what the tables of the module say, the clients are told exactly what they say, and exactly the one message they say is posted besides DEVICE_CHANGED |
| `MediaManagerLaws.CallStateLaw` | audioeffect/deps/avs/src/mediamgr/mediamgr.c:1504-1668 | the same for every pair of old and new call state |
| `MediaManagerLaws.SysEnteredLaw` | audioeffect/deps/avs/src/mediamgr/mediamgr.c:1307-1374 | the same for SYS_ENTERED_CALL |
| `MediaManagerLaws.EndsCall` | audioeffect/deps/avs/src/mediamgr/mediamgr.c:1522-1545 | ending a call gives the device back, clears alloc_pending, audio_started and the speaker preference, tells nobody, takes the system out of the call and posts SYS_LEFT_CALL exactly if it was in one |
| `MediaManagerLaws.DeviceStep` | audioeffect/deps/avs/src/mediamgr/mediamgr.c:1395-1448 | over a step of any thread the device is taken only by a successful AUDIO_ALLOC and given back only by AUDIO_RELEASE or the end of the call |
| `MediaManagerLaws.FreeUntilAlloc` | audioeffect/deps/avs/src/mediamgr/mediamgr.c:1395-1448 | in every run the device, once free, stays free until an AUDIO_ALLOC is delivered |
| `MediaManagerLaws.WantedPriority` | audioeffect/deps/avs/src/mediamgr/mediamgr.c:668-680 | the speaker if preferred, else the headset, else Bluetooth, else the earpiece |
| `MediaManagerLaws.AccessoryLaw` | audioeffect/deps/avs/src/mediamgr/mediamgr.c:731-825 | which route plugging or unplugging a headset or Bluetooth device asks for, in every state, and how the platform goes about reaching it |
| `MediaManagerLaws.ChangedLaw` | audioeffect/deps/avs/src/mediamgr/mediamgr.c:787-824 | the same for a DEVICE_CHANGED |
| `MediaManagerLaws.SpeakerSwitch` | audioeffect/deps/avs/src/mediamgr/mediamgr.c:709-728 | the same for the speaker switch |
| `MediaManagerLaws.EnteringRoutes` | audioeffect/deps/avs/src/mediamgr/mm_platform_android.c:757-762 | entering a call does to the route what a DEVICE_CHANGED does |
| `MediaManagerLaws.LeavingRoutes` | audioeffect/deps/avs/src/mediamgr/mediamgr.c:1376-1392 | leaving it for good does so without the speaker preference |
| `MediaManagerLaws.VideoRoutes` | audioeffect/deps/avs/src/mediamgr/mediamgr.c:1616-1625 | turning a call into a video call does what the speaker switch does unless an accessory has the sound |
| `MediaManagerLaws.RingingRoutes` | audioeffect/deps/avs/src/mediamgr/mediamgr.c:1598-1614 | ringing moves the sound from the earpiece to the speaker and leaves other routes |
| `MediaManagerSpec.AnnouncedIff` | audioeffect/deps/avs/src/mediamgr/mediamgr.c:494-512 | starting the audio of a call leaves an AUDIO_ALLOC to announce it if and only if alloc_pending is clear or such a message is queued already |
| `MediaManagerSpec.ReentryEffect` | audioeffect/deps/avs/src/mediamgr/mediamgr.c:1307-1430 | for every talking call with nothing queued, whatever the route and the answers of the platform, leaving and entering the system call brings it back with an AUDIO_ALLOC to announce the audio if and only if alloc_pending was clear |
| `MediaManagerSpec.SilentReentry` | audioeffect/deps/avs/src/mediamgr/mediamgr.c:1395-1430 | a run from the start reaches a call in which such a cycle leaves nothing queued and announces nothing |
| `MediaManagerSpec.ResumingStep` | audioeffect/deps/avs/src/mediamgr/mediamgr.c:1307-1392 | each step keeps a held call held, a resuming call on its way back, or a stuck one stuck |
| `MediaManagerSpec.HoldThenResume` | audioeffect/deps/avs/src/mediamgr/mediamgr.c:1638-1660 | from INCALL or INVIDEOCALL, HOLD, any pause, RESUME and then draining any mix of follow-up messages restores the call state if and only if sys_state is known when RESUME is handled; a known one stays known while the call is held |
| `MediaManagerSpec.ChangeFlags` | audioeffect/deps/avs/src/mediamgr/mediamgr.c:787-824 | what one DEVICE_CHANGED does to the route: it posts only when unsettled, and then settles unless the speaker leaves the earpiece on |
| `MediaManagerSpec.Settle` | audioeffect/deps/avs/src/mediamgr/mediamgr.c:787-824 | with a speaker that can be switched on, handling DEVICE_CHANGED messages ends after at most one more message than were queued, whatever the router answers each time |
| `MediaManagerSpec.SettleSatisfies` | audioeffect/deps/avs/src/mediamgr/mm_platform_android.c:569-642 | if the earpiece can be switched on too, the route ends neither SPEAKER unwanted nor EARPIECE with the speaker wanted |
| `MediaManagerSpec.SettlesIff` | audioeffect/deps/avs/src/mediamgr/mediamgr.c:787-824 | for a router that always answers alike, exactly when the queue of DEVICE_CHANGED messages ever empties |
| `MediaManagerSpec.GoesRoundFromStart` | audioeffect/deps/avs/src/mediamgr/mediamgr.c:787-824 | the first speaker override reaches the excluded case when switching the speaker on leaves the earpiece on: the queue never empties |
| `MediaManager.Manager.constructor` | audioeffect/deps/avs/src/mediamgr/mediamgr.c:1860-1905 | the manager starts in the initial state of the state machine |
| `MediaManager.Manager.Perform` | audioeffect/deps/avs/src/mediamgr/mediamgr.c:1688-1841 | handling any message, with all the handlers and platform calls under it, and every step of another thread, the timer or the hardware does to the fields what the state machine says |
| `MediaManager.Manager.Serve` | audioeffect/deps/avs/src/mediamgr/mediamgr.c:1860-1905 | for every schedule of deliveries interleaved with posts of other threads, the Bluetooth timer and hardware changes the object ends where the state machine does and keeps every invariant; an empty queue leaves no transitional state |
| `Sounds.WalkIsMode` | audioeffect/deps/avs/src/mediamgr/mediamgr.c:333-351 | the walk that stops early finds EXCLUSIVE, MIXING or NONE as the playing sounds define it |
| `Sounds.WalkAnyOrder` | audioeffect/deps/avs/src/mediamgr/mediamgr.c:333-351 | every order of the dictionary gives the same mode |
| `Sounds.CheckPlayMode` | audioeffect/deps/avs/src/mediamgr/mediamgr.c:333-351 | the loop refines the walk |
| `Sounds.PlaysIff` | audioeffect/deps/avs/src/mediamgr/mediamgr.c:354-439 | a sound starts exactly when it is not too intense, may be heard now, and has a priority or finds nothing playing or only sounds that mix with it |
| `Sounds.PlayKeepsIff` | audioeffect/deps/avs/src/mediamgr/mediamgr.c:354-398 | from any board that keeps "one sound, or only mixing ones", playing a sound keeps it if and only if no player starts or everything that plays or shares the player mixes with it |
| `Sounds.StepKeepsIff` | audioeffect/deps/avs/src/mediamgr/mediamgr.c:333-439 | every operation keeps a safe board safe, except that a registration does so if and only if the sound is welcome: it mixes with every sound it shares a player with or that one of the two could start against by priority, and with everything that plays if its player does |
| `Sounds.EveryRun` | audioeffect/deps/avs/src/mediamgr/mediamgr.c:333-439 | in every run of register, unregister, play, stop and spontaneous end, with any priorities and shared or running players, the board is safe in all states if and only if every sound registered was welcome; then either all playing sounds mix or a single one plays |
| `Sounds.SafeIff` | audioeffect/deps/avs/src/mediamgr/mediamgr.c:333-439 | a board is safe if and only if no run that registers nothing more breaks the rule |
| `Sounds.SharingBreaks` | audioeffect/deps/avs/src/mediamgr/mm_platform_android.c:450-476 | one exclusive sound under two names: playing the one breaks the rule |
| `Sounds.PriorityBreaks` | audioeffect/deps/avs/src/mediamgr/mediamgr.c:378-380 | with a priority sound two exclusive sounds play at once |
| `Sounds.RegisterKeepsIff` | audioeffect/deps/avs/src/mediamgr/mm_platform_android.c:450-476 | registering a sound keeps the rule if and only if its player is idle or it and everything that plays mix |
| `Sounds.Jukebox.PlaySound` | audioeffect/deps/avs/src/mediamgr/mediamgr.c:416-439 | refines the play decision and keeps a safe board safe |
| `Sounds.Jukebox.RegisterMedia` | audioeffect/deps/avs/src/mediamgr/mm_platform_android.c:450-476 | adds the sound unless the name is taken, for every name and player; a safe board stays safe if and only if the sound is welcome |
| `Sounds.Jukebox.UnregisterMedia` | audioeffect/deps/avs/src/mediamgr/mm_platform_android.c:478-499 | removes the sound of that name, if any |
| `Sounds.Jukebox.StopAllMedia` | audioeffect/deps/avs/src/mediamgr/mediamgr.c:308-330 | after the walk no registered sound plays |
| `PacketQueue.OwingStep` | audioeffect/deps/avs/src/queue/locked_queue.c:74-115 | how one thread step changes the number of threads between append and post or between wait and unlink |
| `PacketQueue.AppendKeeps` | audioeffect/deps/avs/src/queue/locked_queue.c:74-87 | appending under the lock keeps the count, order and lock laws |
| `PacketQueue.UnlinkKeeps` | audioeffect/deps/avs/src/queue/locked_queue.c:90-115 | unlinking the head under the lock keeps them, and on a blocking queue always finds an item |
| `PacketQueue.InvStep` | audioeffect/deps/avs/src/queue/locked_queue.c:74-115 | every step of every thread keeps them |
| `PacketQueue.MemDerefItem` | audioeffect/deps/avs/src/queue/packet_queue.c:66-93 | dropping the item leaves the popped buffer exactly one reference, owned by the popper |
| `PacketQueue.MemStep` | audioeffect/deps/avs/src/queue/packet_queue.c:41-93 | every step of every thread keeps the reference counts right: no item or buffer is freed while in use or owned twice |
| `PacketQueue.OnceStep` | audioeffect/deps/avs/src/queue/packet_queue.c:41-93 | every step of every thread keeps it so that no item is appended twice and no buffer handed out twice |
| `PacketQueue.EveryRun` | audioeffect/deps/avs/src/queue/packet_queue.c:41-93 | for any number of threads and every interleaving: list length = semaphore value + threads that owe, no ENODATA from a blocking pop, the unlinked sequence is a prefix of the appended one without duplicates, no buffer is handed out twice, and every buffer handed out holds the bytes pushed, has one reference, is no longer listed and is held by no thread inside the queue |
| `PacketQueue.NoDeadlock` | audioeffect/deps/avs/src/queue/locked_queue.c:74-115 | while any thread is inside push or pop, some thread inside can take its next step |
| `RtpValidation.ValidateItems` | mediasoup-client/deps/libmediasoupclient/src/ortc.cpp:58-61 | the validating loop accepts an array exactly when every item is accepted and replaces each item by its validated form |
| `RtpValidation.MediaShape` | mediasoup-client/deps/libmediasoupclient/src/ortc.cpp:89-110 | a media type is accepted exactly when it is audio or video, a slash and a non-empty subtype without line breaks |
| `RtpValidation.BodyNormal` | mediasoup-client/deps/libmediasoupclient/src/ortc.cpp:123-168 | channels, parameters and feedback come out normal; a normal codec is left as it is; no other member changes |
| `RtpValidation.CodecNormal` | mediasoup-client/deps/libmediasoupclient/src/ortc.cpp:85-169 | accepted codec capabilities are normal and keep every member but kind, channels, parameters and feedback; normal ones are accepted unchanged |
| `RtpValidation.CodecDefaults` | mediasoup-client/deps/libmediasoupclient/src/ortc.cpp:123-163 | the defaults of a codec |
| `RtpValidation.Defaults` | mediasoup-client/deps/libmediasoupclient/src/ortc.cpp:176-242 | the defaults of feedback, header extensions, encodings and RTCP parameters |
| `RtpValidation.ExtensionNormal` | mediasoup-client/deps/libmediasoupclient/src/ortc.cpp:200-242 | the same for header extensions |
| `RtpValidation.CapabilitiesNormal` | mediasoup-client/deps/libmediasoupclient/src/ortc.cpp:37-78 | validation of capabilities is a normal form: a second pass accepts and changes nothing |
| `RtpValidation.CodecParametersNormal` | mediasoup-client/deps/libmediasoupclient/src/ortc.cpp:328-412 | the same for codec parameters |
| `RtpValidation.ExtensionParametersNormal` | mediasoup-client/deps/libmediasoupclient/src/ortc.cpp:419-461 | the same for header extension parameters |
| `RtpValidation.ParametersNormal` | mediasoup-client/deps/libmediasoupclient/src/ortc.cpp:249-321 | validation of RTP parameters is a normal form: a second pass accepts and changes nothing |
| `RtpAcceptance.FeedbackAcceptedIff` | mediasoup-client/deps/libmediasoupclient/src/ortc.cpp:176-193 | feedback is accepted if and only if it has a type |
| `RtpAcceptance.CodecAcceptedIff` | mediasoup-client/deps/libmediasoupclient/src/ortc.cpp:85-169 | a codec capability is accepted if and only if its media type has the shape, its clock rate is an integer, and payload type, parameters and feedback are usable if stated |
| `RtpAcceptance.CodecParametersAcceptedIff` | mediasoup-client/deps/libmediasoupclient/src/ortc.cpp:328-412 | the same for codec parameters, whose payload type is mandatory |
| `RtpAcceptance.ExtensionAcceptedIff` | mediasoup-client/deps/libmediasoupclient/src/ortc.cpp:200-242 | the same for header extensions |
| `RtpAcceptance.ExtensionParamsAcceptedIff` | mediasoup-client/deps/libmediasoupclient/src/ortc.cpp:419-461 | the same for header extension parameters |
| `RtpAcceptance.EncodingAcceptedIff` | mediasoup-client/deps/libmediasoupclient/src/ortc.cpp:468-548 | the same for encodings and RTCP parameters |
| `RtpAcceptance.CapabilitiesAcceptedIff` | mediasoup-client/deps/libmediasoupclient/src/ortc.cpp:37-78 | capabilities are accepted if and only if they are an object whose codecs and header extensions, if stated, are arrays of acceptable ones |
| `RtpAcceptance.ParametersAcceptedIff` | mediasoup-client/deps/libmediasoupclient/src/ortc.cpp:249-321 | the same for parameters, whose codecs are mandatory |
| `RtpAcceptance.ArrayBecomes` | mediasoup-client/deps/libmediasoupclient/src/ortc.cpp:58-77 | an accepted array becomes its items validated one by one, a missing one an empty array |
| `RtpAcceptance.SilenceAccepted` | mediasoup-client/deps/libmediasoupclient/src/ortc.cpp:37-242 | leaving out, at any depth, members that may be missing never makes accepted capabilities unacceptable |
| `RtpAcceptance.SilenceAcceptedInParameters` | mediasoup-client/deps/libmediasoupclient/src/ortc.cpp:249-548 | nor accepted parameters |
| `RtpNegotiation.MatchRewrites` | mediasoup-client/deps/libmediasoupclient/src/ortc.cpp:1567-1653 | a match changes at most the profile-level-id of an H.264 codec |
| `RtpNegotiation.MatchIff` | mediasoup-client/deps/libmediasoupclient/src/ortc.cpp:1567-1653 | two codecs match if and only if type, clock rate and channels agree and so do the VP9 profile texts, default 0, or for H.264 the packetization modes and profiles with a usable answer; exactly when a match throws |
| `RtpNegotiation.MatchAnswers` | mediasoup-client/deps/libmediasoupclient/src/ortc.cpp:1616-1636 | an H.264 match leaves the profile-level-id the library answers with, or none; all else stays |
| `RtpNegotiation.DecimalSame` | mediasoup-client/deps/libmediasoupclient/src/ortc.cpp:1727-1757 | two integers read alike as profile texts exactly when they are the same 32-bit number |
| `RtpNegotiation.FindMatch` | mediasoup-client/deps/libmediasoupclient/src/ortc.cpp:997-1003 | finds the first local codec that matches |
| `RtpNegotiation.ReduceFeedback` | mediasoup-client/deps/libmediasoupclient/src/ortc.cpp:1665-1685 | the loop yields the reduced feedback |
| `RtpNegotiation.Reduce` | mediasoup-client/deps/libmediasoupclient/src/ortc.cpp:1665-1685 | only remote entries that some local entry names |
| `RtpNegotiation.ReduceFinds` | mediasoup-client/deps/libmediasoupclient/src/ortc.cpp:1665-1685 | and none that both sides name is lost |
| `RtpNegotiation.ReduceExact` | mediasoup-client/deps/libmediasoupclient/src/ortc.cpp:1665-1685 | the reduced feedback is, in the local order, the first remote entry of the same type and parameter for each local entry that has one |
| `RtpNegotiation.MatchMedia` | mediasoup-client/deps/libmediasoupclient/src/ortc.cpp:990-1027 | the loop with the mutating matcher yields the specified codecs and local state, or the error |
| `RtpNegotiation.InRemoteOrder` | mediasoup-client/deps/libmediasoupclient/src/ortc.cpp:990-1027 | the extended codecs are an order-preserving subsequence of the remote non-RTX codecs, each joined with a local codec of the same type, clock rate and channels |
| `RtpNegotiation.TakenNow` | mediasoup-client/deps/libmediasoupclient/src/ortc.cpp:990-1027 | a remote media codec is extended if and only if one of the local codecs, as earlier matches have left them, is compatible with it |
| `RtpNegotiation.TakenIff` | mediasoup-client/deps/libmediasoupclient/src/ortc.cpp:990-1027 | H.264 apart, that is if and only if some local codec as it was offered is compatible with it |
| `RtpNegotiation.JoinsFirst` | mediasoup-client/deps/libmediasoupclient/src/ortc.cpp:997-1024 | it is joined with the first compatible local codec |
| `RtpNegotiation.MatchSymmetric` | mediasoup-client/deps/libmediasoupclient/src/ortc.cpp:1567-1653 | matching does not depend on which side a codec is on, if the H.264 library compares evenly |
| `RtpNegotiation.MatchSelf` | mediasoup-client/deps/libmediasoupclient/src/ortc.cpp:1567-1653 | a codec matches itself if and only if its profile members can be read; otherwise the match throws |
| `RtpNegotiation.SelfMatch` | mediasoup-client/deps/libmediasoupclient/src/ortc.cpp:990-1027 | a side without H.264 that negotiates with itself succeeds if and only if every codec can be read, and then gets exactly its media codecs back and is left as it was |
| `RtpNegotiation.RtxPaired` | mediasoup-client/deps/libmediasoupclient/src/ortc.cpp:1032-1059 | if every RTX codec has a payload type: both RTX payload types or neither, present exactly when both sides offer an RTX codec for the codec |
| `RtpNegotiation.RtxPairedIff` | mediasoup-client/deps/libmediasoupclient/src/ortc.cpp:1032-1059 | for all offers, both or neither holds if and only if the two RTX codecs found are not half typed |
| `RtpNegotiation.HalfTypedOffer` | mediasoup-client/deps/libmediasoupclient/src/ortc.cpp:1032-1059 | one RTX codec of the two found without a payload type is such a case |
| `RtpNegotiation.MatchRtx` | mediasoup-client/deps/libmediasoupclient/src/ortc.cpp:1032-1059 | the loop refines the pairing |
| `RtpNegotiation.MatchHeaderExtensions` | mediasoup-client/deps/libmediasoupclient/src/ortc.cpp:1064-1102 | the loop refines the matching of header extensions |
| `RtpNegotiation.ExtensionsJoined` | mediasoup-client/deps/libmediasoupclient/src/ortc.cpp:1064-1102 | every extended header extension joins a local and a remote one of the same kind and uri, with the send id of the local, the receive id of the remote and the direction turned round |
| `RtpNegotiation.ExtensionsComplete` | mediasoup-client/deps/libmediasoupclient/src/ortc.cpp:1064-1102 | every remote one that has a local partner is there, joined with the first partner |
| `RtpNegotiation.DirectedIff` | mediasoup-client/deps/libmediasoupclient/src/ortc.cpp:1081-1099 | every extended header extension has a direction if and only if every remote one with a local partner states one of the four |
| `RtpNegotiation.Negotiated` | mediasoup-client/deps/libmediasoupclient/src/ortc.cpp:968-1105 | every extended codec is a later remote media codec joined with a local one and, if RTX codecs have payload types, with both RTX payload types or neither, each that of an RTX codec offered for it |
| `RtpNegotiation.GetExtended` | mediasoup-client/deps/libmediasoupclient/src/ortc.cpp:968-1105 | validation, matching, RTX and header extensions in turn refine the specification |
| `RtpParameters.HalfTypedJson` | mediasoup-client/deps/libmediasoupclient/src/ortc.cpp:968-1105 | accepted values whose remote RTX codec has no payload type: the local RTX payload type stands alone in the result |
| `RtpParameters.GetRecvCapabilities` | mediasoup-client/deps/libmediasoupclient/src/ortc.cpp:1111-1193 | the loops refine the receive capabilities, and fail exactly when an extended extension has no direction |
| `RtpParameters.RecvMedia` | mediasoup-client/deps/libmediasoupclient/src/ortc.cpp:1123-1140 | without RTX codecs the receive list is the extended codecs in order, each with the remote payload type, the local parameters and the negotiated feedback, member by member |
| `RtpParameters.MediaReads` | mediasoup-client/deps/libmediasoupclient/src/ortc.cpp:1125-1140 | read back as a capability, each has the type, rate, channels, parameters and feedback negotiated |
| `RtpParameters.RecvRtx` | mediasoup-client/deps/libmediasoupclient/src/ortc.cpp:1142-1165 | every RTX codec in the receive list follows the media codec its apt names, at its clock rate, and was offered by the remote side |
| `RtpParameters.RecvExtensionOrigin` | mediasoup-client/deps/libmediasoupclient/src/ortc.cpp:1170-1190 | an extension to be received has the id the remote side gave it, and the remote side may send it |
| `RtpParameters.RecvAccepted` | mediasoup-client/deps/libmediasoupclient/src/ortc.cpp:1111-1193 | receive capabilities can be built and pass validation if and only if every extended codec has a remote payload type and every extended extension a direction |
| `RtpParameters.RecvFromJsonAccepted` | mediasoup-client/deps/libmediasoupclient/src/ortc.cpp:968-1193 | from any two accepted JSON values that can be negotiated: if and only if every matched remote codec states a payload type and every matched remote extension one of the four directions |
| `RtpParameters.UnknownDirection` | mediasoup-client/deps/libmediasoupclient/src/ortc.cpp:1081-1190 | accepted values with an unknown direction: negotiation succeeds and the receive capabilities cannot be built |
| `RtpParameters.MissingPayloadType` | mediasoup-client/deps/libmediasoupclient/src/ortc.cpp:968-1193 | accepted values whose match has no remote payload type: the receive capabilities do not pass validation |
| `RtpSending.BuildCodecs` | mediasoup-client/deps/libmediasoupclient/src/ortc.cpp:1215-1262 | the loop that stops at the first codec of the kind |
| `RtpSending.BuildExtensions` | mediasoup-client/deps/libmediasoupclient/src/ortc.cpp:1264-1286 | the loop over the header extensions of the kind that may be sent, or its failure |
| `RtpSending.SendExtensionOrigin` | mediasoup-client/deps/libmediasoupclient/src/ortc.cpp:1264-1286 | an extension to be sent has the id and encryption this side gave it, and the remote side may receive it |
| `RtpSending.GetSending` | mediasoup-client/deps/libmediasoupclient/src/ortc.cpp:1200-1289 | refines the local sending parameters, or their failure |
| `RtpSending.GetSendingRemote` | mediasoup-client/deps/libmediasoupclient/src/ortc.cpp:1294-1456 | refines the remote sending parameters, or their failure |
| `RtpSending.BuiltIff` | mediasoup-client/deps/libmediasoupclient/src/ortc.cpp:968-1456 | after any negotiation both can be built if and only if every remote extension of the kind that has a local partner states one of the four directions |
| `RtpSending.UnknownDirectionSends` | mediasoup-client/deps/libmediasoupclient/src/ortc.cpp:1264-1286 | accepted values with an unknown direction: neither sending parameters can be built |
| `RtpSending.ReduceCodecs` | mediasoup-client/deps/libmediasoupclient/src/ortc.cpp:1382-1456 | the loop over the codecs reduces the feedback of each |
| `RtpSending.EraseFeedback` | mediasoup-client/deps/libmediasoupclient/src/ortc.cpp:1397-1406 | erasing while iterating equals a filter |
| `RtpSending.KeepExact` | mediasoup-client/deps/libmediasoupclient/src/ortc.cpp:1397-1406 | the filter keeps exactly the entries of other types |
| `RtpSending.SidesAgree` | mediasoup-client/deps/libmediasoupclient/src/ortc.cpp:1200-1456 | local and remote parameters fail together; otherwise they have the same header extensions and codecs, differing only in codec parameters and feedback; RTX codecs are identical |
| `RtpSending.SendsFirst` | mediasoup-client/deps/libmediasoupclient/src/ortc.cpp:1200-1456 | what is sent is the first extended codec of the kind under the local payload type, member by member: with the local parameters in the local list and with the remote ones in the remote list |
| `RtpSending.SendsOffered` | mediasoup-client/deps/libmediasoupclient/src/ortc.cpp:968-1456 | back to the two offers: payload type and, an H.264 profile apart, parameters of the local codec on this side, parameters of the remote codec on the other |
| `RtpSending.FeedbackExact` | mediasoup-client/deps/libmediasoupclient/src/ortc.cpp:1382-1456 | the other side may use exactly the feedback of this side, except transport-cc without its header extension and goog-remb without the absolute send time or beside transport-cc |
| `RtpSending.NeverBoth` | mediasoup-client/deps/libmediasoupclient/src/ortc.cpp:1382-1456 | the remote side never lists both transport-cc and goog-remb, and lists one only if its header extension was negotiated |
| `RtpSending.SendsIff` | mediasoup-client/deps/libmediasoupclient/src/ortc.cpp:1514-1524 | both codec lists are non-empty if and only if canSend holds |
| `RtpSending.EveryRtx` | mediasoup-client/deps/libmediasoupclient/src/ortc.cpp:1123-1456 | in the receive capabilities and in the local and remote sending parameters, after feedback was dropped, every RTX codec follows the media codec its apt names and has the payload type and apt of an RTX codec offered |
| `RtpSending.GenerateProbator` | mediasoup-client/deps/libmediasoupclient/src/ortc.cpp:1461-1509 | the loop refines the probator parameters |
| `RtpSending.ProbatorSays` | mediasoup-client/deps/libmediasoupclient/src/ortc.cpp:1461-1509 | the probator parameters have the first validated video codec, exactly the two congestion control extensions, and their own mid, SSRC and CNAME |
| `RtpSending.ProbatorAcceptedIff` | mediasoup-client/deps/libmediasoupclient/src/ortc.cpp:1461-1509 | probator parameters pass validation if and only if the video parameters have a codec |
| `RtpSending.NoCodecToProbe` | mediasoup-client/deps/libmediasoupclient/src/ortc.cpp:1461-1509 | accepted video parameters without codecs: their probator parameters do not pass validation |

## Left out

- Float rounding: crossfades, thresholds, sweeps and filters are over the reals; `int16_t` samples are integers, and a mixed sample truncates toward zero as the cast does.
- The correlation arithmetic of the period search and a division by zero in it: a lag has a score or none (not a number), and the search is proved for every such assignment.
- Resamplers, the audio processing module, the pitch and voice analysis: their outputs are inputs of the model, with voiced lags between 32 and 288.
- The comb filters, compressor and scaling of the reverb around its all-pass stages; the vocoder, harmonizer, auto-tune, normalizer and chorus effects.
- PitchShift.Process: input or output rates below 1 kHz, which round to zero kHz, and rates from 164 kHz on, where 45 ms, the longest periods and a block no longer fit in 16384 samples together.
- PitchCycler.Process: rates below 2 kHz, where a pitch period can be shorter than the splice window, and from 49 kHz on, because the array in pitch_cycler.h is sized for 48 kHz; the final downsampling of each frame.
- TimeScaleSpec.RemoveOne: occupancies from best_d to best_d + 2·fs − 1, where the code would index its window below zero (time_scale.cpp:31, 54); the level control never removes at such a level.
- TimeScale.TimeScaler.RemoveOne: the same occupancies.
- PaceShift.Process: sampling rates below 1 kHz, which round to zero kHz, and from 200 kHz on, where 45 ms, the longest periods and a block no longer fit in 16384 samples together.
- The ten-millisecond check of the effect functions, which only logs; a partial last frame is ignored there and here.
- Reverse.ReverseWav: files shorter than their header says, and more than one channel.
- WavEffect.Convert: the scratch buffer an effect writes to is as large as the effect needs; header chunks, progress reports and file errors.
- MediaManagerSpec.EveryRun: failing queue pushes and JNI attaches; a handler sees one route throughout, changes by the hardware come between messages.
- MediaManagerSpec.Settle: other messages between the DEVICE_CHANGED messages, and the Bluetooth timer.
- MediaManagerSpec.ReentryEffect: messages queued when the cycle starts, and other threads during it.
- Muting, recording, incoming-call callbacks and the intensity settings of the media manager, which touch none of the state modelled.
- The dictionary's hash table: a map whose walk may take any order.
- PacketQueue.EveryRun: failing waits and posts, failing allocations and null arguments; flushing a queue that is destroyed.
- Exception texts, and the null members that indexing a JSON object by a missing name adds to the caller's capabilities.
- RtpNegotiation.GetExtended: an RTX codec without `apt`, which the code reads without checking; it counts as no match.
- RtpNegotiation.TakenIff: H.264 codecs, which earlier matches rewrite; TakenNow covers them.
- RtpNegotiation.MatchSymmetric: for H.264 codecs the profile library is taken to compare evenly; it is not part of this model.
- RtpNegotiation.MatchSelf: the same of the library.
- RtpNegotiation.SelfMatch: H.264 codecs, whose comparison and rewriting are left to the library.
- SCTP, DTLS, ICE and producer options validators; the handler, transport, producer, consumer and peer connection classes; x264, build scripts and the second copy of the audio library.
