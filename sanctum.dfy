/**
 * The reveal component as a state machine: the timed main sequence from the
 * vault door to the revealed folder, the locked cheers animation with its drunk
 * progression, and closing the case, which arms a five-second self-destruct that
 * ends in exactly one explosion. Timers, animation frames and intervals are
 * events the browser delivers; their firing times are parameters.
 */
module Sanctum {
  import opened Timeline

  /** What the component makes heard or seen, recorded in order. */
  datatype Cue =
    | Sound(name: string)          // the host's playSound
    | FolderOpen                   // the cardboard sound of the folder
    | Applause
    | ConfettiShower(pieces: nat)
    | Glass(level: nat)            // the glass chime, detuned by the drunk level
    | Vibration(pattern: seq<nat>)
    | Toast(message: string)
    | PhaseChange(phase: Phase)
    | Stamp
    | Crackle                      // one spark of the burning fuse
    | Beep                         // the countdown's once-a-second beep
    | Explosion

  datatype Entry = Entry(at: int, cue: Cue)

  /** The pending timeouts of one cheers click: glass at +2000, toast at +2100, unlock at +4800. */
  datatype CheersStage = Idle | GlassDue | ToastDue | UnlockDue

  /** The pending timeouts of closing the case: stamp at +600, arming at +2500. */
  datatype CloseStage = NotClosed | StampDue | ArmDue | Armed

  /** `explosionPhase`: 'none' | 'flash' | 'done'. */
  datatype ExplosionPhase = NoExplosion | Flash | Done

  function ExplosionRank(e: ExplosionPhase): nat
  {
    match e
    case NoExplosion => 0
    case Flash => 1
    case Done => 2
  }

  const GlassAtMs: int := 2000
  const ToastAtMs: int := 2000 + 100
  const UnlockAtMs: int := 4800
  const StampAtMs: int := 600
  const ArmAtMs: int := 2500
  const TerminateAfterMs: int := 100
  const CheersVibration: seq<nat> := [30, 50, 30]
  const ConfettiPieces: nat := 150

  /** The phases the log records as set, in order. */
  function PhaseTrace(log: seq<Entry>): seq<Phase>
  {
    if log == [] then []
    else PhaseTrace(log[..|log| - 1]) + match log[|log| - 1].cue
                                       case PhaseChange(p) => [p]
                                       case _ => []
  }

  /** How many explosions the log records. */
  function Explosions(log: seq<Entry>): nat
  {
    if log == [] then 0
    else Explosions(log[..|log| - 1]) + if log[|log| - 1].cue == Explosion then 1 else 0
  }

  /** Appending one entry extends the phase trace by its phase, if any, and counts its explosion. */
  lemma LogAppend(log: seq<Entry>, e: Entry)
    ensures PhaseTrace(log + [e]) == PhaseTrace(log) + (if e.cue.PhaseChange? then [e.cue.phase] else [])
    ensures Explosions(log + [e]) == Explosions(log) + (if e.cue == Explosion then 1 else 0)
  {
    assert (log + [e])[..|log|] == log;
  }

  /** The entries a callback of the main sequence records when it fires at time `at`. */
  function StepCues(step: MainStep, at: int): (cues: seq<Entry>)
    ensures forall e | e in cues :: e.at == at
    ensures step == Confetti ==> Entry(at, ConfettiShower(ConfettiPieces)) in cues
  {
    match step
    case SlamDoor => [Entry(at, Sound("slam"))]
    case TurnHandle => [Entry(at, Sound("unlock"))]
    case Grind => [Entry(at, Sound("grind"))]
    case ShowFolder => [Entry(at, PhaseChange(FolderClosed))]
    case OpenFolder => [Entry(at, FolderOpen), Entry(at, PhaseChange(FolderOpening))]
    case Confetti => [Entry(at, Applause), Entry(at, ConfettiShower(ConfettiPieces))]
    case Reveal => [Entry(at, PhaseChange(Revealed))]
  }

  /** A callback's entries add exactly the phase it sets to the trace, and no explosion. */
  lemma StepCuesTrace(log: seq<Entry>, step: MainStep, at: int)
    ensures PhaseTrace(log + StepCues(step, at))
         == PhaseTrace(log) + match StepPhase(step) case Some(p) => [p] case None => []
    ensures Explosions(log + StepCues(step, at)) == Explosions(log)
  {
    var cues := StepCues(step, at);
    if |cues| == 1 {
      LogAppend(log, cues[0]);
    } else {
      LogAppend(log, cues[0]);
      LogAppend(log + [cues[0]], cues[1]);
      assert log + cues == log + [cues[0]] + [cues[1]];
    }
  }

  /** The door-sequence state: handle, door, and the chain of timeouts the effect scheduled. */
  datatype DoorState = DoorState(
    handleRotation: int,
    doorOpening: bool,
    scheduled: bool,   // the sequence effect has scheduled its chain
    scheduledAt: int,  // when it did
    fired: nat)        // how many callbacks of the chain have fired

  /** The cheers state: the count, the animation lock, the click's pending timeouts and the drunk state. */
  datatype CheersState = CheersState(
    count: nat,
    isAnimating: bool,
    pending: CheersStage,
    clickedAt: int,
    drunkLevelRef: nat,
    drunkLevel: real,      // the rendered intensity, 1.5 per level
    bifurcation: nat)      // the magnitude of the double-vision offset

  /** Closing the case: its pending timeouts and when it was closed. */
  datatype CloseState = CloseState(pending: CloseStage, closedAt: int)

  /**
   * The self-destruct: `selfDestructActive`, the countdown effect's start time and
   * its spark interval and animation frame, `countdown` (in milliseconds),
   * `explosionPhase`, the termination timeout and `missionTerminated`.
   */
  datatype SelfDestruct = SelfDestruct(
    active: bool,
    startTime: int,
    countdownMs: int,
    sparkLive: bool,
    frameScheduled: bool,
    explosion: ExplosionPhase,
    terminatePending: bool,
    terminateAt: int,
    missionTerminated: bool)

  /** The phase follows the door sequence until the case is closed; the history holds exactly those phases. */
  predicate SequenceOk(phase: Phase, door: DoorState, close: CloseState, phaseHistory: seq<Phase>)
  {
    && door.fired <= |MainSchedule|
    && (!door.scheduled ==> door.fired == 0)
    && (close.pending == NotClosed ==> phase == PhaseAfter(door.fired))
    && (close.pending != NotClosed ==> phase == CaseClosed && door.fired == |MainSchedule|)
    && door.handleRotation == (if door.fired >= 2 then 720 else 0)
    && door.doorOpening == (door.fired >= 3)
    && phaseHistory == PhasesSet(door.fired) + (if close.pending != NotClosed then [CaseClosed] else [])
  }

  /** The phase once a callback of the main sequence has run: the one it sets, if any. */
  function PhaseAfterStep(phase: Phase, step: MainStep): Phase
  {
    match StepPhase(step)
    case Some(p) => p
    case None => phase
  }

  /** The door once a callback has run: one more fired, the handle turned by the second, the door opened by the third. */
  function DoorAfterStep(door: DoorState, step: MainStep): DoorState
  {
    var d := door.(fired := door.fired + 1);
    match step
    case TurnHandle => d.(handleRotation := 720)
    case Grind => d.(doorOpening := true)
    case _ => d
  }

  /** Firing the next callback keeps the sequence invariant, and the phase only moves forward. */
  lemma StepKeepsSequence(phase: Phase, door: DoorState, close: CloseState, phaseHistory: seq<Phase>)
    requires SequenceOk(phase, door, close, phaseHistory) && door.scheduled && door.fired < |MainSchedule|
    ensures var step := MainSchedule[door.fired].step;
      && SequenceOk(PhaseAfterStep(phase, step), DoorAfterStep(door, step), close,
                    phaseHistory + match StepPhase(step) case Some(p) => [p] case None => [])
      && PhaseRank(phase) <= PhaseRank(PhaseAfterStep(phase, step))
  {
    // the case cannot be closed while the sequence still runs
    assert close.pending == NotClosed;
    StepOutcome(door.fired);
    PhaseAfterMonotone(door.fired, door.fired + 1);
  }

  /** The lock is held exactly while a click's timeouts are pending; the drunk state follows the count. */
  predicate CheersOk(c: CheersState)
  {
    && (c.isAnimating <==> c.pending != Idle)
    && c.drunkLevelRef == (if c.count >= DrunkFromCount then DrunkLevel(c.count) else 0)
    && c.bifurcation == BifurcationMagnitude(c.drunkLevelRef)
    && c.drunkLevel == 1.5 * c.drunkLevelRef as real
  }

  /** Counting, flashing and terminated are the only states of an armed self-destruct, with one explosion. */
  predicate SelfDestructOk(close: CloseState, sd: SelfDestruct, explosionCount: nat)
  {
    && (sd.active <==> close.pending == Armed)
    && 0 <= sd.countdownMs <= SelfDestructMs
    && (sd.sparkLive ==> sd.frameScheduled)
    && (!sd.active ==>
          !sd.frameScheduled && sd.explosion == NoExplosion && !sd.missionTerminated && sd.countdownMs == SelfDestructMs)
    && (sd.active && sd.explosion == NoExplosion ==> sd.frameScheduled)
    && (sd.frameScheduled ==> sd.explosion == NoExplosion)
    && (sd.terminatePending <==> sd.explosion == Flash)
    && (sd.missionTerminated <==> sd.explosion == Done)
    && (sd.explosion != NoExplosion ==> sd.countdownMs == 0)
    && explosionCount == (if sd.explosion == NoExplosion then 0 else 1)
  }

  /**
   * The reveal component. Its React state is grouped by concern: the door
   * sequence, the cheers, closing the case and the self-destruct.
   */
  class InnerSanctum {
    const canVibrate: bool   // `navigator.vibrate` exists
    var isActive: bool
    var phase: Phase
    var door: DoorState
    var cheers: CheersState
    var close: CloseState
    var selfDestruct: SelfDestruct
    ghost var log: seq<Entry>
    ghost var phaseHistory: seq<Phase>   // the phases the log records as set, in order
    ghost var explosionCount: nat        // the explosions the log records
    ghost var unlockedAt: int            // when the last click's lock was released

    ghost predicate Valid()
      reads this
    {
      && SequenceOk(phase, door, close, phaseHistory)
      && CheersOk(cheers)
      && SelfDestructOk(close, selfDestruct, explosionCount)
    }

    /** The two summaries agree with the log they summarise. */
    ghost predicate Summarised()
      reads this
    {
      PhaseTrace(log) == phaseHistory && Explosions(log) == explosionCount
    }

    /** Nothing moves back: phase, sequence, count, arming, explosion and the log only advance. */
    twostate predicate Forward()
      reads this
    {
      && old(door.fired) <= door.fired
      && PhaseRank(old(phase)) <= PhaseRank(phase)
      && old(cheers.count) <= cheers.count
      && old(log) <= log
      && old(phaseHistory) <= phaseHistory
      && old(explosionCount) <= explosionCount
      && (old(selfDestruct.active) ==> selfDestruct.active)
      && (old(selfDestruct.missionTerminated) ==> selfDestruct.missionTerminated)
      && ExplosionRank(old(selfDestruct.explosion)) <= ExplosionRank(selfDestruct.explosion)
    }

    /** Records one entry, keeping the phase history and the explosion count in step with the log. */
    method Emit(at: int, cue: Cue)
      modifies this`log, this`phaseHistory, this`explosionCount
      ensures log == old(log) + [Entry(at, cue)]
      ensures phaseHistory == old(phaseHistory) + (if cue.PhaseChange? then [cue.phase] else [])
      ensures explosionCount == old(explosionCount) + (if cue == Explosion then 1 else 0)
      ensures old(Summarised()) ==> Summarised()
    {
      LogAppend(log, Entry(at, cue));
      log := log + [Entry(at, cue)];
      if cue.PhaseChange? {
        phaseHistory := phaseHistory + [cue.phase];
      }
      if cue == Explosion {
        explosionCount := explosionCount + 1;
      }
    }

    /** Mounting at time `now`: the door is shut, and the sequence effect runs once. */
    constructor (active: bool, canVibrate: bool, now: int)
      ensures Valid() && Summarised() && this.canVibrate == canVibrate && isActive == active
      ensures phase == Door && log == [] && cheers.count == 0 && !selfDestruct.active
      ensures door.scheduled == active && door.fired == 0 && (active ==> door.scheduledAt == now)
      ensures cheers == CheersState(0, false, Idle, 0, 0, 0.0, 0) && close == CloseState(NotClosed, 0)
    {
      this.canVibrate := canVibrate;
      isActive := active;
      phase := Door;
      door := DoorState(0, false, active, now, 0);
      cheers := CheersState(0, false, Idle, 0, 0, 0.0, 0);
      close := CloseState(NotClosed, 0);
      selfDestruct := SelfDestruct(false, 0, SelfDestructMs, false, false, NoExplosion, false, 0, false);
      log, phaseHistory, explosionCount := [], [], 0;
      unlockedAt := 0;
    }

    /**
     * A new value of the `isActive` prop at time `now`. The sequence effect re-runs
     * when it changes and schedules the chain only when active with the door shut.
     * Already scheduled callbacks are never cancelled.
     */
    method SetActive(active: bool, now: int)
      requires Valid()
      modifies this`isActive, this`door
      ensures Valid() && Forward() && isActive == active
      ensures door == if active && !old(isActive) && phase == Door && !old(door.scheduled)
                      then old(door).(scheduled := true, scheduledAt := now)
                      else old(door)
    {
      if active != isActive {
        isActive := active;
        if active && phase == Door && !door.scheduled {
          door := door.(scheduled := true, scheduledAt := now);
        }
      }
    }

    /** Records the entries of one callback of the main sequence. */
    method EmitStep(step: MainStep, at: int)
      modifies this`log, this`phaseHistory, this`explosionCount
      ensures log == old(log) + StepCues(step, at)
      ensures phaseHistory == old(phaseHistory) + match StepPhase(step) case Some(p) => [p] case None => []
      ensures explosionCount == old(explosionCount)
      ensures old(Summarised()) ==> Summarised()
    {
      match step {
        case SlamDoor => Emit(at, Sound("slam"));
        case TurnHandle => Emit(at, Sound("unlock"));
        case Grind => Emit(at, Sound("grind"));
        case ShowFolder => Emit(at, PhaseChange(FolderClosed));
        case OpenFolder =>
          Emit(at, FolderOpen);
          Emit(at, PhaseChange(FolderOpening));
        case Confetti =>
          Emit(at, Applause);
          Emit(at, ConfettiShower(ConfettiPieces));
        case Reveal => Emit(at, PhaseChange(Revealed));
      }
    }

    /** The next callback of the main sequence fires, at its scheduled time. */
    method FireMainStep()
      requires Valid() && door.scheduled && door.fired < |MainSchedule|
      modifies this`phase, this`door, this`log, this`phaseHistory, this`explosionCount
      ensures Valid() && Forward()
      ensures old(Summarised()) ==> Summarised()
      ensures var next := MainSchedule[old(door.fired)];
        && phase == PhaseAfterStep(old(phase), next.step)
        && door == DoorAfterStep(old(door), next.step)
        && log == old(log) + StepCues(next.step, door.scheduledAt + next.offset)
    {
      var s := MainSchedule[door.fired];
      var at := door.scheduledAt + s.offset;
      StepKeepsSequence(phase, door, close, phaseHistory);
      phase := PhaseAfterStep(phase, s.step);
      door := DoorAfterStep(door, s.step);
      EmitStep(s.step, at);
    }

    /**
     * The browser firing every remaining callback of the sequence in order: the
     * folder ends up revealed, each of its phases set once, in order.
     */
    method RunMainSequence()
      requires Valid() && door.scheduled && door.fired == 0
      modifies this`phase, this`door, this`log, this`phaseHistory, this`explosionCount
      ensures Valid() && Forward()
      ensures old(Summarised()) ==> Summarised()
      ensures phase == Revealed && door.handleRotation == 720 && door.doorOpening
      ensures phaseHistory == [FolderClosed, FolderOpening, Revealed]
    {
      while door.fired < |MainSchedule|
        invariant Valid() && Forward()
        invariant old(Summarised()) ==> Summarised()
        invariant door.scheduled
        decreases |MainSchedule| - door.fired
      {
        FireMainStep();
      }
      MainSequencePhases();
    }

    /**
     * A click or touch on the glass at time `now`. Ignored while a previous click's
     * animation holds the lock; otherwise it takes the lock, counts the cheers,
     * schedules the glass, toast and unlock, and from the fourth cheers on sets
     * the drunk level.
     */
    method HandleCheers(now: int)
      requires Valid()
      modifies this`cheers
      ensures Valid() && Forward()
      ensures old(cheers.isAnimating) ==> cheers == old(cheers)
      ensures !old(cheers.isAnimating) ==> cheers.isAnimating && cheers.pending == GlassDue && cheers.clickedAt == now
      ensures !old(cheers.isAnimating) ==> cheers.count == old(cheers.count) + 1
      ensures !old(cheers.isAnimating) && cheers.count < DrunkFromCount ==> cheers.drunkLevelRef == old(cheers.drunkLevelRef)
    {
      if cheers.isAnimating {
        return;
      }
      var newCount := cheers.count + 1;
      cheers := cheers.(isAnimating := true, count := newCount, pending := GlassDue, clickedAt := now);
      if newCount >= DrunkFromCount {
        var level := DrunkLevel(newCount);
        cheers := cheers.(drunkLevel := 1.5 * level as real, drunkLevelRef := level,
                          bifurcation := BifurcationMagnitude(level));
      }
    }

    /** The click's 2000 ms timeout: the glass chime at the current drunk level, and the vibration. */
    method FireGlass()
      requires Valid() && cheers.pending == GlassDue
      modifies this`cheers, this`log, this`phaseHistory, this`explosionCount
      ensures Valid() && Forward()
      ensures old(Summarised()) ==> Summarised()
      ensures cheers == old(cheers).(pending := ToastDue)
      ensures log == old(log) + [Entry(cheers.clickedAt + GlassAtMs, Glass(cheers.drunkLevelRef))]
                 + (if canVibrate then [Entry(cheers.clickedAt + GlassAtMs, Vibration(CheersVibration))] else [])
    {
      Emit(cheers.clickedAt + GlassAtMs, Glass(cheers.drunkLevelRef));
      if canVibrate {
        Emit(cheers.clickedAt + GlassAtMs, Vibration(CheersVibration));
      }
      cheers := cheers.(pending := ToastDue);
    }

    /** The toast, 100 ms after the glass: the message of this cheers count. */
    method FireToast()
      requires Valid() && cheers.pending == ToastDue
      modifies this`cheers, this`log, this`phaseHistory, this`explosionCount
      ensures Valid() && Forward()
      ensures old(Summarised()) ==> Summarised()
      ensures cheers == old(cheers).(pending := UnlockDue)
      ensures log == old(log) + [Entry(cheers.clickedAt + ToastAtMs, Toast(CheersMessage(cheers.count)))]
    {
      Emit(cheers.clickedAt + ToastAtMs, Toast(CheersMessage(cheers.count)));
      cheers := cheers.(pending := UnlockDue);
    }

    /** The click's 4800 ms timeout: the lock is released and the next click is accepted again. */
    method FireUnlock()
      requires Valid() && cheers.pending == UnlockDue
      modifies this`cheers, this`unlockedAt
      ensures Valid() && Forward()
      ensures cheers == old(cheers).(pending := Idle, isAnimating := false)
      ensures unlockedAt == cheers.clickedAt + UnlockAtMs
    {
      unlockedAt := cheers.clickedAt + UnlockAtMs;
      cheers := cheers.(isAnimating := false, pending := Idle);
    }

    /**
     * "Close the case", offered only once the folder is revealed: the slam, the
     * closed phase, and the stamp and arming timeouts.
     */
    method HandleCloseCase(now: int)
      requires Valid() && phase == Revealed
      modifies this`phase, this`close, this`log, this`phaseHistory, this`explosionCount
      ensures Valid() && Forward()
      ensures old(Summarised()) ==> Summarised()
      ensures phase == CaseClosed && close == CloseState(StampDue, now)
      ensures log == old(log) + [Entry(now, Sound("slam")), Entry(now, PhaseChange(CaseClosed))]
      ensures phaseHistory == old(phaseHistory) + [CaseClosed]
    {
      PhaseAfterMonotone(door.fired, door.fired);
      Emit(now, Sound("slam"));
      phase := CaseClosed;
      Emit(now, PhaseChange(CaseClosed));
      close := CloseState(StampDue, now);
    }

    /** The 600 ms timeout of closing the case: the stamp. */
    method FireStamp()
      requires Valid() && close.pending == StampDue
      modifies this`close, this`log, this`phaseHistory, this`explosionCount
      ensures Valid() && Forward()
      ensures old(Summarised()) ==> Summarised()
      ensures close == old(close).(pending := ArmDue) && !selfDestruct.active
      ensures log == old(log) + [Entry(close.closedAt + StampAtMs, Stamp)]
    {
      Emit(close.closedAt + StampAtMs, Stamp);
      close := close.(pending := ArmDue);
    }

    /**
     * The 2500 ms timeout of closing the case: the self-destruct is armed, and the
     * countdown effect starts its spark interval and first animation frame,
     * taking that moment as its start.
     */
    method FireArm()
      requires Valid() && close.pending == ArmDue
      modifies this`close, this`selfDestruct
      ensures Valid() && Forward()
      ensures close == old(close).(pending := Armed)
      ensures selfDestruct.active && selfDestruct.sparkLive && selfDestruct.frameScheduled
      ensures selfDestruct.startTime == close.closedAt + ArmAtMs && selfDestruct.countdownMs == SelfDestructMs
    {
      close := close.(pending := Armed);
      selfDestruct := selfDestruct.(active := true);
      // the countdown effect: its guard lets it through once armed and not terminated
      if !selfDestruct.missionTerminated {
        selfDestruct := selfDestruct.(startTime := close.closedAt + ArmAtMs, sparkLive := true, frameScheduled := true);
      }
    }

    /** One firing of the 60 ms spark interval, at time `now`: one crackle. */
    method SparkTick(now: int)
      requires Valid() && selfDestruct.sparkLive
      modifies this`log, this`phaseHistory, this`explosionCount
      ensures Valid() && Forward()
      ensures old(Summarised()) ==> Summarised()
      ensures log == old(log) + [Entry(now, Crackle)]
    {
      Emit(now, Crackle);
    }

    /**
     * One animation frame of `checkTime` at time `now`: the beep when a whole
     * second has just been crossed, the displayed countdown, and either the next
     * frame or, when the time is up, the end of the sparks, the flash, the one
     * explosion and the 100 ms termination timeout.
     */
    method Frame(now: int)
      requires Valid() && selfDestruct.frameScheduled
      modifies this`selfDestruct, this`log, this`phaseHistory, this`explosionCount
      ensures Valid() && Forward()
      ensures old(Summarised()) ==> Summarised()
      ensures selfDestruct.startTime == old(selfDestruct.startTime)
      ensures selfDestruct.countdownMs == Remaining(now - selfDestruct.startTime)
      ensures selfDestruct.frameScheduled <==> selfDestruct.countdownMs > 0
      ensures selfDestruct.countdownMs == 0 ==>
        selfDestruct.explosion == Flash && selfDestruct.terminatePending && selfDestruct.terminateAt == now + TerminateAfterMs
      ensures log == old(log) + (if TickFires(selfDestruct.countdownMs) then [Entry(now, Beep)] else [])
                              + (if selfDestruct.countdownMs == 0 then [Entry(now, Explosion)] else [])
      ensures explosionCount <= 1
    {
      var remaining := Remaining(now - selfDestruct.startTime);
      if TickFires(remaining) {
        Emit(now, Beep);
      }
      selfDestruct := selfDestruct.(countdownMs := remaining);
      if remaining <= 0 {
        selfDestruct := selfDestruct.(sparkLive := false, explosion := Flash);
        Emit(now, Explosion);
        selfDestruct := selfDestruct.(terminatePending := true, terminateAt := now + TerminateAfterMs, frameScheduled := false);
      }
    }

    /**
     * The 100 ms timeout after the explosion: the mission is terminated. The
     * countdown effect re-runs; its cleanup clears the spark interval and its
     * guard keeps the countdown from starting again.
     */
    method FireTerminate()
      requires Valid() && selfDestruct.terminatePending
      modifies this`selfDestruct
      ensures Valid() && Forward()
      ensures selfDestruct.missionTerminated && selfDestruct.explosion == Done && !selfDestruct.terminatePending
      ensures !selfDestruct.sparkLive && !selfDestruct.frameScheduled && explosionCount == 1
    {
      selfDestruct := selfDestruct.(missionTerminated := true, explosion := Done, terminatePending := false);
      selfDestruct := selfDestruct.(sparkLive := false);
    }

    /**
     * Unmounting. The countdown effect's cleanup clears the spark interval only:
     * a requested `checkTime` frame is not cancelled and goes on to the end.
     */
    method Unmount()
      requires Valid()
      modifies this`selfDestruct
      ensures Valid() && Forward()
      ensures selfDestruct == old(selfDestruct).(sparkLive := false)
    {
      selfDestruct := selfDestruct.(sparkLive := false);
    }
  }

  /**
   * Unmounting during the countdown does not stop it: the next frame after the
   * five seconds still flashes, logs the explosion and schedules the termination.
   */
  method CountdownOutlivesUnmount(s: InnerSanctum, now: int)
    requires s.Valid() && s.selfDestruct.frameScheduled
    requires now - s.selfDestruct.startTime >= SelfDestructMs
    modifies s
    ensures s.Valid() && !s.selfDestruct.sparkLive
    ensures s.selfDestruct.explosion == Flash && s.selfDestruct.terminatePending
    ensures s.log == old(s.log) + [Entry(now, Explosion)]
  {
    s.Unmount();
    s.Frame(now);
  }

  /** A freshly mounted component accepts its first cheers: the lock is taken and the glass is due. */
  method FirstCheersRegisters(now: int) returns (s: InnerSanctum)
    ensures s.Valid() && s.cheers.count == 1 && s.cheers.isAnimating
    ensures s.cheers.pending == GlassDue && s.cheers.clickedAt == now
  {
    s := new InnerSanctum(true, false, 0);
    s.HandleCheers(now);
  }

  /**
   * Once terminated, the self-destruct is over for good: no frame or spark is
   * pending, the countdown shows zero and the log holds exactly one explosion.
   */
  lemma TerminatedIsFinal(close: CloseState, sd: SelfDestruct, explosionCount: nat)
    requires SelfDestructOk(close, sd, explosionCount) && sd.missionTerminated
    ensures !sd.frameScheduled && !sd.sparkLive && !sd.terminatePending
    ensures sd.explosion == Done && sd.countdownMs == 0 && explosionCount == 1
  {
  }
}
