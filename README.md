# Vault reveal — a Dafny model of its timing and state core

The application is a single-page "vault" experience. A door slams, its handle
turns and it grinds open. A classified folder appears, opens, and bursts into
confetti to reveal a gift. The reader can clink a glass of cheers as often as
they like, and the glass gets "drunker" from the fourth cheers on. "Case
closed" stamps the folder and arms a five-second self-destruct that ends in an
explosion. A voucher layer rains gold confetti. A small audio hook plays the
named cues, vibrates the phone and fades the background music in and out.
The router serves the app under the build's base URL.

This project models that core:

- `basename.dfy` (module `AppBasename`): the router basename derived from the
  build's base URL.
- `voucher.dfy` (module `Voucher`): the layer's class string, the continue
  button, and the burst and rain confetti intervals with their bounds.
- `audio.dfy` (module `Audio`): the audio hook as a class. It covers one-time
  initialisation, the cue table (vibration pattern and sound per name), the
  smoothstep volume fade driven by animation frames, and playing, pausing and
  toggling the music with the cancellable pause timer.
- `timeline.dfy` (module `Timeline`): the pure schedule and arithmetic of the
  reveal component. This includes the seven timed steps of the door sequence
  and the phases they set, the cheers messages and drunk level, the
  self-destruct's remaining time, its per-second beep, the clock's seconds and
  the fuse length.
- `sanctum.dfy` (module `Sanctum`): the reveal component as a class whose React
  state is updated by event handlers, timeouts, intervals and animation frames.
  Each of those is a method. A timer firing is a method whose precondition says
  the timer is pending. Time is the `now` parameter of the event. Everything
  audible or visible the component asks for goes into a ghost log of
  timestamped cues.

## Model

| member | source | states |
|---|---|---|
| AppBasename.Basename | src/App.tsx:12-14 | the basename is a prefix of the base URL; it is shorter exactly when the URL ends with "/", and then by one character |
| AppBasename.BasenameRestoresSlash | src/App.tsx:12-14 | for a URL ending with "/", appending "/" to its basename gives the URL back, and the basename differs from the URL |
| AppBasename.BasenameKeepsUnslashed | src/App.tsx:12-14 | a URL without a trailing "/" is its own basename |
| AppBasename.BasenameStripsOnlyOne | src/App.tsx:12-14 | only one trailing "/" is removed: the basename of p + "/" is p, whatever p ends with |
| AppBasename.BasenameOfSlashes | src/App.tsx:12-14 | "/" gives the empty basename and "//" gives "/" |
| Voucher.LayerClass | src/components/vault/VoucherLayer.tsx:16-22 | the class string starts with "layer"; " active" follows it directly when active; " exit-up" or " exit-down" ends it for those exit states |
| Voucher.LayerClassActive | src/components/vault/VoucherLayer.tsx:18 | the class string contains " active" if and only if the layer is active |
| Voucher.LayerClassExitUp | src/components/vault/VoucherLayer.tsx:19 | it contains " exit-up" if and only if the exit state is 'up' |
| Voucher.LayerClassExitDown | src/components/vault/VoucherLayer.tsx:20 | it contains " exit-down" if and only if the exit state is 'down' |
| Voucher.LayerClassExitsExclusive | src/components/vault/VoucherLayer.tsx:19-20 | the two exit classes never appear together |
| Voucher.LayerClassOrder | src/components/vault/VoucherLayer.tsx:18-20 | every occurrence of " active" comes before every occurrence of the exit class |
| Voucher.ColorIndex | src/components/vault/VoucherLayer.tsx:32-40 | the colour picked by `Math.floor(Math.random() * colors.length)` is always one of the five gold colours |
| Voucher.ConfettiSize | src/components/vault/VoucherLayer.tsx:39 | a confetti piece is at least 6 and less than 14 pixels |
| Voucher.VoucherLayer.constructor | src/components/vault/VoucherLayer.tsx:30-90 | mounting with the `isActive` prop starts both confetti intervals, with the burst counter at 0, exactly when active; nothing has been created or called yet |
| Voucher.VoucherLayer.HandleContinue | src/components/vault/VoucherLayer.tsx:24-27 | the host gets the 'metallic-click' cue and then one continue call, in that order |
| Voucher.VoucherLayer.SetActive | src/components/vault/VoucherLayer.tsx:30-97 | when the prop changes, the cleanup clears both intervals; they restart, with the burst counter at 0, only when the layer becomes active; an unchanged prop leaves them alone |
| Voucher.VoucherLayer.BurstTick | src/components/vault/VoucherLayer.tsx:80-85 | one burst tick makes five pieces and counts one tick; the interval stays registered exactly while the count is at most 20 |
| Voucher.VoucherLayer.RainTick | src/components/vault/VoucherLayer.tsx:88-90 | one rain tick makes a piece exactly when its draw exceeds 0.3 |
| Voucher.VoucherLayer.RunInitialBurst | src/components/vault/VoucherLayer.tsx:79-85 | the burst clears itself after exactly 21 ticks and 105 pieces, and the rain keeps running |
| Audio.CueVibration | src/hooks/useAudio.ts:91-187 | the dispatch table has an entry exactly for the six known cues; only 'drop' has no vibration; no pattern has more than three pulses |
| Audio.CueOutputs | src/hooks/useAudio.ts:80-190 | an unknown cue name produces nothing; a known one ends with its sound and produces at most one vibration before it |
| Audio.CueVibrationTable | src/hooks/useAudio.ts:80-190 | the names with a branch are exactly the known cues; only 'drop' has no vibration; 'unlock' vibrates [30,50,30] and 'clink' [20,40,20] before sounding |
| Audio.Smoothstep | src/hooks/useAudio.ts:204 | the easing fixes 0, the midpoint 0.5 and 1 |
| Audio.SmoothstepBounds | src/hooks/useAudio.ts:203-204 | the easing maps [0,1] into [0,1], with 0 at 0 and 1 at 1 |
| Audio.SmoothstepMonotone | src/hooks/useAudio.ts:203-204 | the easing never decreases on [0,1] |
| Audio.Clamp01 | src/hooks/useAudio.ts:205 | a written volume lies in [0,1], and a value already in [0,1] is unchanged |
| Audio.Progress | src/hooks/useAudio.ts:202 | fade progress never exceeds 1; it is 1 exactly when the fade's duration has elapsed; it is not negative once started |
| Audio.FadeLevel | src/hooks/useAudio.ts:202-205 | the volume written by a fade frame is always a legal volume |
| Audio.FadeLevelComplete | src/hooks/useAudio.ts:202-205 | at full progress the volume is the (clamped) target |
| Audio.FadeLevelBetween | src/hooks/useAudio.ts:202-205 | during a fade between legal volumes the volume stays between the start and the target |
| Audio.AudioEngine.constructor | src/hooks/useAudio.ts:14-21 | before `init` there is no context and no music element, no fade frame, no pause timer, no pending play, and the music is not playing |
| Audio.AudioEngine.Init | src/hooks/useAudio.ts:23-65 | the first call creates the context when the platform offers one and a looping music element at volume 0; every later call changes nothing |
| Audio.AudioEngine.Play | src/hooks/useAudio.ts:80-190 | without an audio context nothing is output; otherwise exactly the cue's outputs are appended |
| Audio.AudioEngine.FadeVolume | src/hooks/useAudio.ts:192-215 | without the element nothing happens; otherwise any running fade is replaced by one from the current volume to the target, starting now |
| Audio.AudioEngine.FadeFrame | src/hooks/useAudio.ts:201-212 | a frame writes the eased, clamped volume for the current progress; it requests another frame exactly until the duration has elapsed, and then the volume is the clamped target |
| Audio.AudioEngine.PlayMusic | src/hooks/useAudio.ts:219-238 | with the element, a pending pause timer is cancelled and one more play request is outstanding; without it nothing changes |
| Audio.AudioEngine.ResolvePlay | src/hooks/useAudio.ts:229-237 | a successful play unpauses the element, fades to 0.6 over 650 ms and marks the music playing; a refused play changes nothing else |
| Audio.AudioEngine.PauseMusic | src/hooks/useAudio.ts:240-262 | with the element: a fade to 0 over 420 ms, the pause timer due in 450 ms replacing any earlier one, and the music marked not playing at once; without it nothing changes |
| Audio.AudioEngine.PauseTimeout | src/hooks/useAudio.ts:248-258 | the pause timer pauses the element only if the volume has fallen to 0.05 or below, and then clears itself |
| Audio.AudioEngine.ToggleMusic | src/hooks/useAudio.ts:264-270 | a playing track is paused as by PauseMusic; otherwise play is requested as by PlayMusic |
| Audio.AudioEngine.Unmount | src/hooks/useAudio.ts:68-72 | unmounting cancels the fade's animation frame |
| Audio.PlayPausePlay | src/hooks/useAudio.ts:219-262 | play, pause, play again: the second play cancels the pause timer, so the music ends up playing, unpaused, fading to 0.6, with no timer left |
| Timeline.MainScheduleIncreasing | src/components/vault/InnerSanctumLayer.tsx:567-596 | the seven door-sequence timeouts fire in strictly increasing order |
| Timeline.MainScheduleOffsets | src/components/vault/InnerSanctumLayer.tsx:567-596 | slam at 200 ms, handle at 600, grind at 1000, folder at 2800, opening at 4400, confetti at 5000, reveal at 6200 |
| Timeline.PhasesSetPrefix | src/components/vault/InnerSanctumLayer.tsx:578-593 | after any number of the timeouts, the phases set so far are a prefix of folder-closed, folder-opening, revealed |
| Timeline.MainSequencePhases | src/components/vault/InnerSanctumLayer.tsx:578-593 | the whole sequence sets each of the three phases once, in order, and ends revealed |
| Timeline.StepOutcome | src/components/vault/InnerSanctumLayer.tsx:567-596 | each timeout adds its own phase, if any, and the handle turns at the second timeout and the door opens at the third |
| Timeline.PhaseAfterMonotone | src/components/vault/InnerSanctumLayer.tsx:567-596 | the sequence never moves the phase back; it is revealed exactly when all timeouts have fired; it never closes the case |
| Timeline.CheersMessage | src/components/vault/InnerSanctumLayer.tsx:668-676 | every cheers has a non-empty toast; "hic hic... 🥴" is shown from the seventh cheers on and never for the first six |
| Timeline.CheersMessagesDistinct | src/components/vault/InnerSanctumLayer.tsx:667-676 | the toasts of the first seven cheers are all different |
| Timeline.CheersMessageSaturates | src/components/vault/InnerSanctumLayer.tsx:667-676 | from the seventh cheers on, the toast is always "hic hic... 🥴" |
| Timeline.DrunkLevel | src/components/vault/InnerSanctumLayer.tsx:717-726 | the drunk level is at most 4, and from the fourth cheers on it is min(count - 4, 4) |
| Timeline.DrunkLevelShape | src/components/vault/InnerSanctumLayer.tsx:717-726 | the level never decreases with the count; it is 0 exactly up to the fourth cheers and 4 from the eighth on |
| Timeline.BifurcationMagnitude | src/components/vault/InnerSanctumLayer.tsx:727-729 | the glass image splits by at most 12 pixels, and not at all exactly at level 0 |
| Timeline.RemainingAsWritten | src/components/vault/InnerSanctumLayer.tsx:452-453 | as written, the remaining time is never negative, is 0 exactly from 5000 ms on, and is at most 5000 ms exactly when the elapsed time is not negative; for a negative elapsed time it is 5000 minus the elapsed time |
| Timeline.RemainingAsWrittenOverflows | src/components/vault/InnerSanctumLayer.tsx:452-453 | as written, an elapsed time of -1000 ms gives 6000 ms remaining, shown as 6 seconds |
| Timeline.Remaining | src/components/vault/InnerSanctumLayer.tsx:452-453 | the remaining time lies in [0, 5000]; it agrees with the source for every elapsed time that is not negative; it is 0 exactly from 5000 ms on |
| Timeline.RemainingAsWrittenDiverges | src/components/vault/InnerSanctumLayer.tsx:452-453 | the formula as written agrees with the clamped remaining time exactly when the elapsed time is not negative |
| Timeline.RemainingMonotone | src/components/vault/InnerSanctumLayer.tsx:452-453 | the remaining time never increases, and within the countdown it falls one for one with elapsed time |
| Timeline.CeilSeconds | src/components/vault/InnerSanctumLayer.tsx:456-457 | `Math.ceil(ms / 1000)` is the least whole number of seconds covering ms |
| Timeline.TickFires | src/components/vault/InnerSanctumLayer.tsx:456-459 | a beep needs time left, and the displayed second drops by exactly one across the frame |
| Timeline.TickFiresIff | src/components/vault/InnerSanctumLayer.tsx:456-459 | a beep sounds exactly when time remains and a whole second has just been crossed |
| Timeline.TickSecond | src/components/vault/InnerSanctumLayer.tsx:456-459 | no beep at 0 remaining, and every beep is for one of the seconds 1 to 5 |
| Timeline.CountdownSeconds | src/components/vault/InnerSanctumLayer.tsx:493 | the countdown state lies in [0, 5] seconds and is 0 exactly when no time remains |
| Timeline.FuseDashOffset | src/components/vault/InnerSanctumLayer.tsx:10-22 | the fuse's dash offset is 29 per remaining second, within [0, 145] |
| Sanctum.StepCues | src/components/vault/InnerSanctumLayer.tsx:567-596 | every cue of a sequence timeout carries its firing time; the confetti timeout asks for 150 pieces |
| Sanctum.StepCuesTrace | src/components/vault/InnerSanctumLayer.tsx:567-596 | a timeout's cues add exactly the phase it sets to the log's phase trace, and no explosion |
| Sanctum.StepKeepsSequence | src/components/vault/InnerSanctumLayer.tsx:559-599 | firing the next sequence timeout keeps the sequence invariant, and the phase only moves forward |
| Sanctum.TerminatedIsFinal | src/components/vault/InnerSanctumLayer.tsx:545-548 | once the mission is terminated, no frame, spark or termination is pending, the count is 0 and there was exactly one explosion |
| Sanctum.InnerSanctum.constructor | src/components/vault/InnerSanctumLayer.tsx:126-140 | the component mounts in the door phase with nothing logged, the cheers lock free with count 0 and nothing pending, the case open and the self-destruct disarmed; the sequence is scheduled at mount time exactly when active |
| Sanctum.InnerSanctum.SetActive | src/components/vault/InnerSanctumLayer.tsx:559-599 | the door state changes only when the prop turns true during the door phase with no sequence scheduled yet, and then only to schedule the sequence now; the phase never moves back |
| Sanctum.InnerSanctum.FireMainStep | src/components/vault/InnerSanctumLayer.tsx:567-596 | the next sequence timeout sets its phase and door state and logs its cues at its scheduled time; the component's invariant holds |
| Sanctum.InnerSanctum.RunMainSequence | src/components/vault/InnerSanctumLayer.tsx:567-596 | firing the whole sequence leaves the folder revealed, the handle at 720 degrees and the door open, with the three phases set once each, in order |
| Sanctum.InnerSanctum.HandleCheers | src/components/vault/InnerSanctumLayer.tsx:625-753 | a click during the animation is ignored; otherwise it takes the lock, counts one more cheers, schedules the glass at the click time, and changes the drunk level only from the fourth cheers on |
| Sanctum.FirstCheersRegisters | src/components/vault/InnerSanctumLayer.tsx:625-643 | the first click after mounting is accepted: count 1, the lock taken and the glass due at the click time |
| Sanctum.InnerSanctum.FireGlass | src/components/vault/InnerSanctumLayer.tsx:653-655 | 2000 ms after the click the glass chimes at the drunk level of that click |
| Sanctum.InnerSanctum.FireToast | src/components/vault/InnerSanctumLayer.tsx:667-689 | 100 ms later the toast shows the message for the current count |
| Sanctum.InnerSanctum.FireUnlock | src/components/vault/InnerSanctumLayer.tsx:745-751 | 4800 ms after the click the lock is released and nothing else is pending |
| Sanctum.InnerSanctum.HandleCloseCase | src/components/vault/InnerSanctumLayer.tsx:359-365 | closing the revealed case slams, sets the case-closed phase and schedules the stamp, at the click time |
| Sanctum.InnerSanctum.FireStamp | src/components/vault/InnerSanctumLayer.tsx:367-404 | 600 ms after closing the stamp lands; the self-destruct is not armed yet |
| Sanctum.InnerSanctum.FireArm | src/components/vault/InnerSanctumLayer.tsx:412-427 | 2500 ms after closing the self-destruct starts with 5000 ms left, the spark interval running and a frame requested |
| Sanctum.InnerSanctum.SparkTick | src/components/vault/InnerSanctumLayer.tsx:426-449 | each spark tick logs one crackle and changes no state |
| Sanctum.InnerSanctum.Frame | src/components/vault/InnerSanctumLayer.tsx:451-554 | a frame sets the remaining time from the start time; it beeps exactly on a second boundary; it requests another frame exactly while time remains; at zero it logs one explosion and schedules the termination 100 ms later |
| Sanctum.InnerSanctum.FireTerminate | src/components/vault/InnerSanctumLayer.tsx:545-548 | the termination marks the mission terminated after exactly one explosion, with the spark and frame stopped |
| Sanctum.InnerSanctum.Unmount | src/components/vault/InnerSanctumLayer.tsx:555 | unmounting clears the spark interval and nothing else; a requested countdown frame stays requested |
| Sanctum.CountdownOutlivesUnmount | src/components/vault/InnerSanctumLayer.tsx:545-555 | after unmounting mid-countdown, the first frame past five seconds still flashes, logs the one explosion and schedules the termination |

## Left out

- Sound synthesis (oscillators, noise buffers, gains, filters) and the clink
  sample with its fallback: a cue is modelled as its name and vibration pattern.
- The hook's own `vibrate` export is modelled only as the vibration output of a cue.
- The audio context's resume on a user gesture, the global unlock listeners and
  the media-session metadata: browser plumbing with no state the core reads.
- DOM, CSS, geometry, video playback, screen shake, the toast's removal, the
  spark's position, and the bifurcation's random direction and blur: presentation only.
- Confetti pieces are counted, not created. `createConfetti`'s missing-container
  guard is not modelled.
- Real time: timestamps are parameters of the event methods, and timers,
  intervals and animation frames fire only when the caller invokes them.
  Interleavings are the caller's choice.
- Sanctum.InnerSanctum.SetActive: the sequence effect has no cleanup and re-runs
  whenever one of its dependencies changes during the door phase. Each re-run
  would schedule another chain of timeouts; the model schedules the sequence
  once. As in the source, deactivating leaves a scheduled sequence running.
- Audio.AudioEngine.FadeVolume, Audio.Progress: require a positive duration.
  The source is never called with 0, and a 0 duration would divide by zero.
- Sanctum.InnerSanctum.Frame: computes the remaining time with the corrected
  `Remaining`, clamped to at most 5000 ms. The source's formula exceeds 5000 ms
  when the wall clock is set back after arming (see "## Findings"), and the
  model follows the intended bound.
- Sanctum.InnerSanctum.Unmount: React ignores state updates on an unmounted
  component, but timeouts and frames still pending keep running. The model
  applies their state updates as before; the cues they log (sounds, the
  explosion) are what the source still produces. The model has no mounted flag,
  and user events after unmounting are not excluded.
- Sanctum.InnerSanctum.HandleCheers: the drunk level's `1.5 ×` scale and the
  bifurcation's offset are stored as numbers. Only their magnitude is
  specified, by DrunkLevel and BifurcationMagnitude.
- The React state of the reveal component is grouped into four records (door,
  cheers, closing, self-destruct) rather than one field per `useState`.
- The Android fallback effect and the "Repeat" button, which reloads the page,
  are not modelled.

## Findings

| source | as written | input that shows it | evidently intended | confidence | as-written member | corrected member |
|---|---|---|---|---|---|---|
| src/components/vault/InnerSanctumLayer.tsx:452-453 | `remaining = Math.max(0, 5000 - (Date.now() - startTime))` has no upper bound | a wall clock set back by one second after arming: elapsed -1000 ms gives 6000 ms, and the clock shows 6 | remaining time within [0, 5000] | not executed | Timeline.RemainingAsWritten, Timeline.RemainingAsWrittenOverflows | Timeline.Remaining |
