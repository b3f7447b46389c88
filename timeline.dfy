/**
 * The pure side of the reveal component: its phases and the flattened schedule of
 * the main sequence, the cheers message table and drunk level, and the arithmetic
 * of the self-destruct countdown (remaining time, the once-a-second beep, the
 * displayed seconds and the fuse).
 */
module Timeline {

  import opened Wrappers

  /** The reveal component's `phase`. */
  datatype Phase = Door | FolderClosed | FolderOpening | Revealed | CaseClosed

  /** Phases only move forward: this is their order. */
  function PhaseRank(p: Phase): nat
  {
    match p
    case Door => 0
    case FolderClosed => 1
    case FolderOpening => 2
    case Revealed => 3
    case CaseClosed => 4
  }

  /** The callbacks of the main-sequence effect's nested timeouts. */
  datatype MainStep =
    | SlamDoor     // playSound('slam')
    | TurnHandle   // handle rotation 720, playSound('unlock')
    | Grind        // playSound('grind'), door opening
    | ShowFolder   // phase folder-closed
    | OpenFolder   // folder-open cue, phase folder-opening
    | Confetti     // spawnConfetti(150), with applause
    | Reveal       // phase revealed

  /** A callback and its delay from the moment the effect ran. */
  datatype Scheduled = Scheduled(offset: int, step: MainStep)

  /**
   * The nested timeouts flattened: each offset is the sum of the delays on the
   * path from the effect to that callback. The confetti (600 ms) and the reveal
   * (1800 ms) are both scheduled by the folder-opening callback.
   */
  const MainSchedule: seq<Scheduled> := [
    Scheduled(200, SlamDoor),
    Scheduled(200 + 400, TurnHandle),
    Scheduled(200 + 400 + 400, Grind),
    Scheduled(200 + 400 + 400 + 1800, ShowFolder),
    Scheduled(200 + 400 + 400 + 1800 + 1600, OpenFolder),
    Scheduled(200 + 400 + 400 + 1800 + 1600 + 600, Confetti),
    Scheduled(200 + 400 + 400 + 1800 + 1600 + 1800, Reveal)
  ]

  /** The phase a callback sets, if it sets one. */
  function StepPhase(step: MainStep): Option<Phase>
  {
    match step
    case ShowFolder => Some(FolderClosed)
    case OpenFolder => Some(FolderOpening)
    case Reveal => Some(Revealed)
    case _ => None
  }

  /** The phases set by the first `n` callbacks, in the order they set them. */
  function PhasesSet(n: nat): seq<Phase>
    requires n <= |MainSchedule|
  {
    if n == 0 then []
    else PhasesSet(n - 1) + match StepPhase(MainSchedule[n - 1].step)
                            case Some(p) => [p]
                            case None => []
  }

  /** The phase once the first `n` callbacks have run. */
  function PhaseAfter(n: nat): Phase
    requires n <= |MainSchedule|
  {
    if PhasesSet(n) == [] then Door else PhasesSet(n)[|PhasesSet(n)| - 1]
  }

  /** The offsets strictly increase, so the flattened order is the firing order. */
  lemma MainScheduleIncreasing(i: int, j: int)
    requires 0 <= i < j < |MainSchedule|
    ensures MainSchedule[i].offset < MainSchedule[j].offset
  {
  }

  /**
   * The sequence's timing: slam, unlock and grind cues at 200, 600 and 1000 ms,
   * folder-closed at 2800, folder-opening at 4400, confetti at 5000 and
   * revealed at 6200 ms.
   */
  lemma MainScheduleOffsets()
    ensures MainSchedule[0] == Scheduled(200, SlamDoor)
    ensures MainSchedule[1] == Scheduled(600, TurnHandle)
    ensures MainSchedule[2] == Scheduled(1000, Grind)
    ensures MainSchedule[3] == Scheduled(2800, ShowFolder)
    ensures MainSchedule[4] == Scheduled(4400, OpenFolder)
    ensures MainSchedule[5] == Scheduled(5000, Confetti)
    ensures MainSchedule[6] == Scheduled(6200, Reveal)
  {
  }

  /**
   * Each prefix of the sequence sets a prefix of folder-closed, folder-opening,
   * revealed: every phase at most once, none skipped, none out of order.
   */
  lemma {:induction false} PhasesSetPrefix(n: nat)
    requires n <= |MainSchedule|
    ensures PhasesSet(n) <= [FolderClosed, FolderOpening, Revealed]
    ensures |PhasesSet(n)| == (if n <= 3 then 0 else if n <= 4 then 1 else if n <= 6 then 2 else 3)
  {
    if n > 0 {
      PhasesSetPrefix(n - 1);
    }
  }

  /** The whole sequence sets exactly folder-closed, folder-opening, revealed, in that order. */
  lemma MainSequencePhases()
    ensures PhasesSet(|MainSchedule|) == [FolderClosed, FolderOpening, Revealed]
    ensures PhaseAfter(|MainSchedule|) == Revealed
  {
    PhasesSetPrefix(|MainSchedule|);
  }

  /**
   * What the `n`-th callback changes: it adds its own phase, if any, to those set
   * so far; the handle turns only at the second and the door opens only at the third.
   */
  lemma StepOutcome(n: nat)
    requires n < |MainSchedule|
    ensures PhasesSet(n + 1)
         == PhasesSet(n) + match StepPhase(MainSchedule[n].step) case Some(p) => [p] case None => []
    ensures PhaseAfter(n + 1) == match StepPhase(MainSchedule[n].step) case Some(p) => p case None => PhaseAfter(n)
    ensures MainSchedule[n].step == TurnHandle <==> n == 1
    ensures MainSchedule[n].step == Grind <==> n == 2
  {
  }

  /** The phase never moves back while the sequence runs, and is revealed only at its end. */
  lemma {:induction false} PhaseAfterMonotone(m: nat, n: nat)
    requires m <= n <= |MainSchedule|
    ensures PhaseRank(PhaseAfter(m)) <= PhaseRank(PhaseAfter(n))
    ensures PhaseAfter(n) == Revealed <==> n == |MainSchedule|
    ensures PhaseAfter(n) != CaseClosed
  {
    PhasesSetPrefix(m);
    PhasesSetPrefix(n);
    var full := [FolderClosed, FolderOpening, Revealed];
    assert PhasesSet(m) == full[..|PhasesSet(m)|];
    assert PhasesSet(n) == full[..|PhasesSet(n)|];
  }

  // ---------------------------------------------------------------- cheers

  /** The toast of the `count`-th cheers: six fixed messages, then the same one for ever. */
  function CheersMessage(count: nat): (message: string)
    ensures count >= 7 ==> message == "hic hic... 🥴"
    ensures 1 <= count <= 6 ==> message != "hic hic... 🥴"
    ensures |message| > 0
  {
    if count == 1 then "¡CHIN CHIN! 🥂"
    else if count == 2 then "¡SALUD! 🥂"
    else if count == 3 then "otro? salud 🥂"
    else if count == 4 then "otro? golosa 🤤🍹"
    else if count == 5 then "UPS! salud 🥴🥂"
    else if count == 6 then "en la pera 🍐🥴🍹"
    else "hic hic... 🥴"
  }

  /** Counts 1 to 6 each have their own message, distinct from each other and from the last one. */
  lemma CheersMessagesDistinct(i: nat, j: nat)
    requires 1 <= i < j <= 7
    ensures CheersMessage(i) != CheersMessage(j)
  {
  }

  /** From the seventh cheers on the message no longer changes. */
  lemma CheersMessageSaturates(count: nat)
    requires count >= 7
    ensures CheersMessage(count) == CheersMessage(7) == "hic hic... 🥴"
  {
  }

  /** The cheers count at which the drunk progression starts, and its cap. */
  const DrunkFromCount: nat := 4
  const MaxDrunkLevel: nat := 4

  /** `Math.min(Math.max(0, count - 4), 4)`. */
  function DrunkLevel(count: int): (level: nat)
    ensures level <= MaxDrunkLevel
    ensures count >= DrunkFromCount ==> level == if count - DrunkFromCount <= MaxDrunkLevel then count - DrunkFromCount else MaxDrunkLevel
  {
    var raw := if count - DrunkFromCount > 0 then count - DrunkFromCount else 0;
    if raw < MaxDrunkLevel then raw else MaxDrunkLevel
  }

  /** The level grows with the count: 0 at the fourth cheers, 4 from the eighth on. */
  lemma DrunkLevelShape(m: int, n: int)
    requires m <= n
    ensures DrunkLevel(m) <= DrunkLevel(n)
    ensures DrunkLevel(DrunkFromCount) == 0
    ensures n >= DrunkFromCount + MaxDrunkLevel ==> DrunkLevel(n) == MaxDrunkLevel
    ensures DrunkLevel(n) == 0 <==> n <= DrunkFromCount
  {
  }

  /** The double-vision offset's magnitude, `level * 3` pixels, at most 12. */
  function BifurcationMagnitude(level: nat): (mag: nat)
    requires level <= MaxDrunkLevel
    ensures mag <= 3 * MaxDrunkLevel
    ensures mag == 0 <==> level == 0
  {
    level * 3
  }

  // ------------------------------------------------------------- countdown

  /** The self-destruct's duration in milliseconds. */
  const SelfDestructMs: int := 5000

  /**
   * `Math.max(0, 5000 - elapsed)` exactly as written. `elapsed` is a difference of
   * two `Date.now()` readings, a wall clock that can be set back, so it can be negative.
   */
  function RemainingAsWritten(elapsed: int): (remaining: int)
    ensures remaining >= 0
    ensures remaining == 0 <==> elapsed >= SelfDestructMs
    ensures remaining <= SelfDestructMs <==> elapsed >= 0
    ensures elapsed < 0 ==> remaining == SelfDestructMs - elapsed
  {
    if SelfDestructMs - elapsed > 0 then SelfDestructMs - elapsed else 0
  }

  /** After the clock is set back by a second, the countdown shows six seconds to go. */
  lemma RemainingAsWrittenOverflows()
    ensures RemainingAsWritten(-1000) == 6000 > SelfDestructMs
    ensures CeilSeconds(RemainingAsWritten(-1000)) == 6
  {
  }

  /** The remaining time clamped at both ends: the same as written for every elapsed >= 0. */
  function Remaining(elapsed: int): (remaining: int)
    ensures 0 <= remaining <= SelfDestructMs
    ensures elapsed >= 0 ==> remaining == RemainingAsWritten(elapsed)
    ensures remaining == 0 <==> elapsed >= SelfDestructMs
  {
    if elapsed < 0 then SelfDestructMs else RemainingAsWritten(elapsed)
  }

  /** For every clock set back after arming, the formula as written and the clamp disagree. */
  lemma RemainingAsWrittenDiverges(elapsed: int)
    ensures RemainingAsWritten(elapsed) == Remaining(elapsed) <==> elapsed >= 0
  {
  }

  /** The remaining time never grows as elapsed time grows. */
  lemma RemainingMonotone(e1: int, e2: int)
    requires e1 <= e2
    ensures Remaining(e2) <= Remaining(e1)
    ensures 0 <= e1 && e2 <= SelfDestructMs ==> Remaining(e1) - Remaining(e2) == e2 - e1
  {
  }

  /** `Math.ceil(ms / 1000)` for a non-negative whole number of milliseconds. */
  function CeilSeconds(ms: nat): (s: nat)
    ensures 1000 * s - 1000 < ms <= 1000 * s || (ms == 0 && s == 0)
  {
    (ms + 999) / 1000
  }

  /** `currSec < prevSec && currSec > 0`: the beep of one frame of the countdown. */
  function TickFires(remaining: nat): (fires: bool)
    ensures fires ==> remaining > 0 && CeilSeconds(remaining) >= 1
    ensures fires ==> CeilSeconds(remaining + 16) == CeilSeconds(remaining) + 1
  {
    var prevSec := CeilSeconds(remaining + 16);
    var currSec := CeilSeconds(remaining);
    currSec < prevSec && currSec > 0
  }

  /** A whole second lies in [remaining, remaining + 16). */
  predicate SecondBoundaryNear(remaining: nat)
  {
    exists k: nat | k <= remaining / 1000 + 1 :: remaining <= 1000 * k < remaining + 16
  }

  /**
   * The beep fires exactly when some time is left and a whole second lies in
   * [remaining, remaining + 16), i.e. the frame has just crossed a second.
   */
  lemma TickFiresIff(remaining: nat)
    ensures TickFires(remaining) <==> remaining > 0 && SecondBoundaryNear(remaining)
  {
    var s := CeilSeconds(remaining);
    var s' := CeilSeconds(remaining + 16);
    if TickFires(remaining) {
      // the smallest whole second at or above `remaining` lies below remaining + 16
      assert 1000 * s < remaining + 16;
      assert remaining <= 1000 * s;
      assert s <= remaining / 1000 + 1;
    }
    if remaining > 0 && SecondBoundaryNear(remaining) {
      var k: nat :| k <= remaining / 1000 + 1 && remaining <= 1000 * k < remaining + 16;
      assert s == k;
      assert s' > k;
    }
  }

  /** The beep never fires once the time is up, and marks one of the five seconds. */
  lemma TickSecond(remaining: nat)
    requires remaining <= SelfDestructMs
    ensures remaining == 0 ==> !TickFires(remaining)
    ensures TickFires(remaining) ==> 1 <= CeilSeconds(remaining) <= 5
  {
  }

  /** `setCountdown(remaining / 1000)`: the displayed seconds, between 0 and 5. */
  function CountdownSeconds(remaining: int): (seconds: real)
    requires 0 <= remaining <= SelfDestructMs
    ensures 0.0 <= seconds <= 5.0
    ensures seconds == 0.0 <==> remaining == 0
  {
    remaining as real / 1000.0
  }

  /** The length of the drawn fuse path. */
  const FuseLength: real := 145.0

  /**
   * `FUSE_TOTAL_LENGTH - FUSE_TOTAL_LENGTH * (1 - countdown / 5)`: the stroke offset
   * of the burning fuse, proportional to the seconds left and within the path.
   */
  function FuseDashOffset(countdown: real): (offset: real)
    requires 0.0 <= countdown <= 5.0
    ensures offset == 29.0 * countdown
    ensures 0.0 <= offset <= FuseLength
  {
    var progress := 1.0 - countdown / 5.0;
    FuseLength - FuseLength * progress
  }
}
