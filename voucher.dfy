/**
 * The voucher layer: the CSS class string of the layer, the "continue" button,
 * and the gold confetti that falls while the layer is active (an initial burst
 * interval that clears itself after 21 ticks, and a continuous rain interval).
 */
module Voucher {

  /** The `exitState` prop: 'none' | 'up' | 'down'. */
  datatype ExitState = NoExit | Up | Down

  /** `t` occurs in `s` starting at index `i`. */
  predicate OccursAt(s: string, t: string, i: int)
  {
    0 <= i && i + |t| <= |s| && s[i..i + |t|] == t
  }

  /** JavaScript's `s.includes(t)`. */
  predicate Contains(s: string, t: string)
  {
    exists i | 0 <= i <= |s| - |t| :: OccursAt(s, t, i)
  }

  const ActiveClass: string := " active"
  const ExitUpClass: string := " exit-up"
  const ExitDownClass: string := " exit-down"

  /** `getLayerClass`: start from "layer" and append one class per condition, in order. */
  function LayerClass(isActive: bool, exitState: ExitState): (r: string)
    ensures |r| >= 5 && r[..5] == "layer"
    ensures isActive ==> OccursAt(r, ActiveClass, 5)
    ensures exitState == Up ==> OccursAt(r, ExitUpClass, |r| - |ExitUpClass|)
    ensures exitState == Down ==> OccursAt(r, ExitDownClass, |r| - |ExitDownClass|)
  {
    var className := "layer";
    var className := if isActive then className + ActiveClass else className;
    var className := if exitState == Up then className + ExitUpClass else className;
    var className := if exitState == Down then className + ExitDownClass else className;
    className
  }

  /** If `t` occurs in `s` then every character of `t` is a character of `s`. */
  lemma CharOfOccurrence(s: string, t: string, i: int, k: int)
    requires OccursAt(s, t, i) && 0 <= k < |t|
    ensures s[i + k] == t[k] && t[k] in s
  {
    assert s[i..i + |t|][k] == t[k];
  }

  /** A string that lacks some character of `t` cannot contain `t`. */
  lemma MissingCharExcludes(s: string, t: string, k: int)
    requires 0 <= k < |t| && t[k] !in s
    ensures !Contains(s, t)
  {
    if Contains(s, t) {
      var i :| OccursAt(s, t, i);
      CharOfOccurrence(s, t, i, k);
    }
  }

  /** The class string as three parts: "layer", the active part and the exit part. */
  lemma LayerClassParts(isActive: bool, exitState: ExitState)
    ensures LayerClass(isActive, exitState)
      == "layer" + (if isActive then ActiveClass else "")
         + (match exitState case NoExit => "" case Up => ExitUpClass case Down => ExitDownClass)
  {
  }

  /** The result contains " active" if and only if the layer is active. */
  lemma LayerClassActive(isActive: bool, exitState: ExitState)
    ensures Contains(LayerClass(isActive, exitState), ActiveClass) <==> isActive
  {
    var r := LayerClass(isActive, exitState);
    if isActive {
      assert OccursAt(r, ActiveClass, 5);
    } else {
      // 'c' is in " active" but in none of "layer", " exit-up", " exit-down"
      LayerClassParts(isActive, exitState);
      assert ActiveClass[2] == 'c';
      MissingCharExcludes(r, ActiveClass, 2);
    }
  }

  /** The result contains " exit-up" if and only if the exit state is 'up'. */
  lemma LayerClassExitUp(isActive: bool, exitState: ExitState)
    ensures Contains(LayerClass(isActive, exitState), ExitUpClass) <==> exitState == Up
  {
    var r := LayerClass(isActive, exitState);
    if exitState == Up {
      assert OccursAt(r, ExitUpClass, |r| - |ExitUpClass|);
    } else {
      // 'u' is in " exit-up" but in none of the other parts
      LayerClassParts(isActive, exitState);
      assert ExitUpClass[6] == 'u';
      MissingCharExcludes(r, ExitUpClass, 6);
    }
  }

  /** The result contains " exit-down" if and only if the exit state is 'down'. */
  lemma LayerClassExitDown(isActive: bool, exitState: ExitState)
    ensures Contains(LayerClass(isActive, exitState), ExitDownClass) <==> exitState == Down
  {
    var r := LayerClass(isActive, exitState);
    if exitState == Down {
      assert OccursAt(r, ExitDownClass, |r| - |ExitDownClass|);
    } else {
      // 'w' is in " exit-down" but in none of the other parts
      LayerClassParts(isActive, exitState);
      assert ExitDownClass[8] == 'w';
      MissingCharExcludes(r, ExitDownClass, 8);
    }
  }

  /** The two exit classes never appear together. */
  lemma LayerClassExitsExclusive(isActive: bool, exitState: ExitState)
    ensures !(Contains(LayerClass(isActive, exitState), ExitUpClass)
              && Contains(LayerClass(isActive, exitState), ExitDownClass))
  {
    LayerClassExitUp(isActive, exitState);
    LayerClassExitDown(isActive, exitState);
  }

  /** The exit class of a non-'none' state. */
  function ExitClass(exitState: ExitState): (c: string)
    requires exitState != NoExit
    ensures c == ExitUpClass || c == ExitDownClass
  {
    if exitState == Up then ExitUpClass else ExitDownClass
  }

  /** An occurrence of `t` in `head + tail` whose `k`-th character is not in `tail` has that character in `head`. */
  lemma OccurrenceReachesHead(head: string, tail: string, t: string, i: int, k: int)
    requires OccursAt(head + tail, t, i) && 0 <= k < |t| && t[k] !in tail
    ensures i + k < |head|
  {
    CharOfOccurrence(head + tail, t, i, k);
  }

  /** An occurrence of `t` in `head + tail` whose `k`-th character is not in `head` has that character in `tail`. */
  lemma OccurrenceReachesTail(head: string, tail: string, t: string, i: int, k: int)
    requires OccursAt(head + tail, t, i) && 0 <= k < |t| && t[k] !in head
    ensures i + k >= |head|
  {
    CharOfOccurrence(head + tail, t, i, k);
  }

  /** Every occurrence of " active" starts before every occurrence of the exit class. */
  lemma LayerClassOrder(isActive: bool, exitState: ExitState, i: int, j: int)
    requires exitState != NoExit
    requires OccursAt(LayerClass(isActive, exitState), ActiveClass, i)
    requires OccursAt(LayerClass(isActive, exitState), ExitClass(exitState), j)
    ensures i < j
  {
    var exit := ExitClass(exitState);
    var head := "layer" + (if isActive then ActiveClass else "");
    LayerClassParts(isActive, exitState);
    assert LayerClass(isActive, exitState) == head + exit;
    // the 'c' of " active" lies in the head, the 'x' of the exit class in the exit part
    assert ActiveClass[2] == 'c' && exit[2] == 'x';
    assert 'c' !in exit && 'x' !in head;
    OccurrenceReachesHead(head, exit, ActiveClass, i, 2);
    OccurrenceReachesTail(head, exit, exit, j, 2);
  }

  /** The five gold confetti colours. */
  const GoldColors: seq<string> := ["#FFD700", "#F0E68C", "#DAA520", "#B8860B", "#FFFacd"]

  /** `Math.floor(r * colors.length)` for a draw r of `Math.random()`: always a valid index. */
  function ColorIndex(r: real): (i: int)
    requires 0.0 <= r < 1.0
    ensures 0 <= i < |GoldColors|
  {
    (r * |GoldColors| as real).Floor
  }

  /** `r * 8 + 6`, the confetti size in pixels: at least 6 and below 14. */
  function ConfettiSize(r: real): (size: real)
    requires 0.0 <= r < 1.0
    ensures 6.0 <= size < 14.0
  {
    r * 8.0 + 6.0
  }

  /** What the layer asks of its host, in order. */
  datatype HostCall = PlaySound(name: string) | Continue

  /** Pieces per burst tick, and the `count > 20` bound after which the burst clears itself. */
  const BurstPiecesPerTick: nat := 5
  const BurstLastCount: nat := 20

  /**
   * The layer's mutable side: the `isActive` prop, the two interval handles of the
   * confetti effect and the burst's tick counter. Confetti pieces are counted, not drawn.
   */
  class VoucherLayer {
    var isActive: bool
    var burstLive: bool      // the `initialBurst` interval is registered
    var rainLive: bool       // the `rain` interval is registered
    var burstCount: nat      // the effect's local `count`
    var pieces: nat          // confetti created so far
    ghost var burstPieces: nat   // confetti created by the current burst
    ghost var calls: seq<HostCall>

    ghost predicate Valid()
      reads this
    {
      && burstCount <= BurstLastCount + 1
      && (burstLive ==> burstCount <= BurstLastCount)
      && burstPieces == BurstPiecesPerTick * burstCount
      && (burstLive || rainLive ==> isActive)
    }

    /** Mounting with the `isActive` prop: the effect starts both intervals when active. */
    constructor (active: bool)
      ensures Valid() && isActive == active && burstLive == active && rainLive == active
      ensures burstCount == 0 && pieces == 0 && calls == []
    {
      isActive, burstLive, rainLive := active, active, active;
      burstCount, pieces, burstPieces := 0, 0, 0;
      calls := [];
    }

    /** `handleContinue`: the click cue first, then the host's `onContinue`, once each. */
    method HandleContinue()
      requires Valid()
      modifies this`calls
      ensures Valid()
      ensures calls == old(calls) + [PlaySound("metallic-click"), Continue]
    {
      calls := calls + [PlaySound("metallic-click")];
      calls := calls + [Continue];
    }

    /**
     * A new value of the `isActive` prop. When it changes, the effect's cleanup
     * clears both intervals, and the effect starts them again only when active.
     */
    method SetActive(active: bool)
      requires Valid()
      modifies this
      ensures Valid() && isActive == active && pieces == old(pieces) && calls == old(calls)
      ensures active == old(isActive) ==> unchanged(this)
      ensures active != old(isActive) && active ==> burstLive && rainLive && burstCount == 0
      ensures !active ==> !burstLive && !rainLive
    {
      if active != isActive {
        burstLive, rainLive := false, false;
        isActive := active;
        if active {
          burstCount, burstPieces := 0, 0;
          burstLive, rainLive := true, true;
        }
      }
    }

    /** One firing of the 50 ms burst interval: five pieces, then the self-clearing check. */
    method BurstTick()
      requires Valid() && burstLive
      modifies this
      ensures Valid() && isActive == old(isActive) && rainLive == old(rainLive) && calls == old(calls)
      ensures pieces == old(pieces) + BurstPiecesPerTick
      ensures burstCount == old(burstCount) + 1
      ensures burstLive <==> burstCount <= BurstLastCount
    {
      var i := 0;
      while i < BurstPiecesPerTick
        invariant 0 <= i <= BurstPiecesPerTick
        invariant pieces == old(pieces) + i && burstPieces == old(burstPieces) + i
        modifies this`pieces, this`burstPieces
      {
        pieces, burstPieces := pieces + 1, burstPieces + 1;
        i := i + 1;
      }
      burstCount := burstCount + 1;
      if burstCount > BurstLastCount {
        burstLive := false;
      }
    }

    /** One firing of the 100 ms rain interval, with its draw r: a piece when r > 0.3. */
    method RainTick(r: real)
      requires Valid() && rainLive
      modifies this`pieces
      ensures Valid()
      ensures pieces == old(pieces) + (if r > 0.3 then 1 else 0)
    {
      if r > 0.3 {
        pieces := pieces + 1;
      }
    }

    /**
     * The browser firing the burst interval until it clears itself: exactly 21 ticks
     * of five pieces, 105 in all, with the rain interval left running.
     */
    method RunInitialBurst()
      requires Valid() && burstLive && burstCount == 0
      modifies this
      ensures Valid() && !burstLive && rainLive == old(rainLive) && isActive == old(isActive)
      ensures burstCount == BurstLastCount + 1
      ensures pieces == old(pieces) + BurstPiecesPerTick * (BurstLastCount + 1)
    {
      while burstLive
        invariant Valid() && rainLive == old(rainLive) && isActive == old(isActive)
        invariant burstLive || burstCount == BurstLastCount + 1
        invariant pieces == old(pieces) + BurstPiecesPerTick * burstCount
        decreases BurstLastCount + 1 - burstCount
      {
        BurstTick();
      }
    }
  }
}
