/** The intro overlay: a typewriter interval that reveals a fixed line of
    code one character per tick, then a ball, an impact, the logo, and
    finally the completion callback, each released by a timeout. Every timer
    firing is one discrete step; wall-clock time is not modelled, only the
    order in which the timers fire. */
module IntroSequence {

  /** The line the typewriter reveals. */
  const FullText: string := "console.log(\"Champion\");"

  /** Period of the typing interval and delays of the timeouts, in ms. */
  const TypingIntervalMs: nat := 80
  const BallDelayMs: nat := 400
  const ImpactDelayMs: nat := 600
  const LogoDelayMs: nat := 1000
  const CompleteDelayMs: nat := 3000

  /** The timeouts the intro sets. */
  datatype Timer = ShowBall | Impact | RevealLogo | Complete

  function Delay(t: Timer): nat
  {
    match t
    case ShowBall => BallDelayMs
    case Impact => ImpactDelayMs
    case RevealLogo => LogoDelayMs
    case Complete => CompleteDelayMs
  }

  /** The three timeouts set together once the ball is visible, in the order
      they are set. */
  const StageTimers: seq<Timer> := [Impact, RevealLogo, Complete]

  /** Timeouts set at the same moment fire in the order of their delays; a
      queue listed in that order fires front to back. */
  ghost predicate InDelayOrder(ts: seq<Timer>)
  {
    forall i, j :: 0 <= i < j < |ts| ==> Delay(ts[i]) < Delay(ts[j])
  }

  /** The stage timeouts are set in the order of their delays (600 < 1000 <
      3000 ms), so they fire in the order they are set: impact, logo,
      completion. */
  lemma StageTimersInDelayOrder()
    ensures InDelayOrder(StageTimers)
    ensures Delay(Impact) < Delay(RevealLogo) < Delay(Complete)
  {
  }

  /** The typewriter's state: the displayed `text`, the interval's counter
      `currentIndex`, and whether the interval is still set. */
  datatype Typing = Typing(text: string, currentIndex: nat, running: bool)

  const TypingStart: Typing := Typing("", 0, true)

  /** How many characters are displayed once the counter reached
      `currentIndex`: the tick that sees counter value `c` displays `c`
      characters and then increments the counter. */
  function Shown(currentIndex: nat): nat
  {
    if currentIndex == 0 then 0 else currentIndex - 1
  }

  /** The displayed text is the prefix of the full line that the counter
      accounts for, and the counter never passes one beyond the line. */
  ghost predicate TypingInv(t: Typing)
  {
    t.currentIndex <= |FullText| + 1 && t.text == FullText[..Shown(t.currentIndex)]
  }

  /** One firing of the typing interval. While the counter is at most the
      line's length, the first `currentIndex` characters are displayed and the
      counter increments; after that the interval is cleared. */
  function TypingTick(t: Typing): Typing
    requires t.running
  {
    if t.currentIndex <= |FullText| then Typing(FullText[..t.currentIndex], t.currentIndex + 1, true)
    else Typing(t.text, t.currentIndex, false)
  }

  /** A tick keeps the text a prefix of the full line, never shrinks it and
      grows it by at most one character; it stops the interval exactly when
      the counter has passed the line's length. */
  lemma TickGrowsPrefix(t: Typing)
    requires TypingInv(t) && t.running
    ensures TypingInv(TypingTick(t))
    ensures t.text <= TypingTick(t).text <= FullText
    ensures |TypingTick(t).text| <= |t.text| + 1
    ensures TypingTick(t).running <==> t.currentIndex <= |FullText|
  {
  }

  /** The typewriter after `k` firings of the interval (none fire after it is
      cleared). */
  function TypingAfter(k: nat): Typing
  {
    if k == 0 then TypingStart
    else
      var t := TypingAfter(k - 1);
      if t.running then TypingTick(t) else t
  }

  /** The whole typing run: the first `|FullText| + 1` ticks display prefixes
      of lengths 0, 1, ..., `|FullText|`, and the tick after that clears the
      interval with the full line displayed. */
  lemma {:induction false} TypingAfterShape(k: nat)
    ensures TypingAfter(k) ==
      if k <= |FullText| + 1 then Typing(FullText[..Shown(k)], k, true)
      else Typing(FullText, |FullText| + 1, false)
  {
    if k > 0 {
      TypingAfterShape(k - 1);
    }
  }

  /** The interval updates the text on exactly `|FullText| + 1` ticks, the last
      of which shows the whole line (and only that one does); the next tick
      clears it. */
  lemma TypingSchedule()
    ensures forall k: nat :: k <= |FullText| + 1 ==> TypingAfter(k).running
    ensures forall k: nat :: k < |FullText| + 1 ==> TypingAfter(k).text != FullText
    ensures TypingAfter(|FullText| + 1).text == FullText
    ensures !TypingAfter(|FullText| + 2).running
    ensures TypingAfter(|FullText| + 2).text == FullText
  {
    forall k: nat | k <= |FullText| + 1
      ensures TypingAfter(k).running
      ensures k < |FullText| + 1 ==> TypingAfter(k).text != FullText
    {
      TypingAfterShape(k);
    }
    TypingAfterShape(|FullText| + 1);
    TypingAfterShape(|FullText| + 2);
  }

  /** The mounted intro component. `pending` lists the timeouts set and not
      yet fired, in firing order; `completeCalls` counts calls of the host's
      `onComplete`. After unmounting, state updates are dropped, but timeouts
      that were already set still fire, and `onComplete` still runs. */
  class Intro {
    var text: string
    var currentIndex: nat
    var intervalActive: bool
    var mounted: bool
    var ballVisible: bool
    var impact: bool
    var showLogo: bool
    var pending: seq<Timer>
    var completeCalls: nat

    function TypingState(): Typing
      reads this
    {
      Typing(text, currentIndex, intervalActive)
    }

    ghost predicate Valid()
      reads this
    {
      TypingInv(TypingState()) &&
      // the interval only runs while nothing else is scheduled
      (intervalActive ==> mounted && pending == [] && !ballVisible) &&
      // before the ball shows, at most the ball timeout is pending, and it is
      // set only by the tick that stops the interval
      (!ballVisible ==>
        !impact && !showLogo && completeCalls == 0 &&
        (pending == [] || (pending == [ShowBall] && !intervalActive && currentIndex == |FullText| + 1))) &&
      // the ball shows only after the full line was displayed, and from then
      // on what is pending is what is left of the stage timeouts
      (ballVisible ==>
        !intervalActive && currentIndex == |FullText| + 1 &&
        (pending == StageTimers || pending == [RevealLogo, Complete] || pending == [Complete] || pending == []) &&
        (completeCalls > 0 <==> pending == [])) &&
      // the stages happen in order
      (impact ==> |pending| <= 2) &&
      (showLogo ==> impact && |pending| <= 1) &&
      (mounted && ballVisible ==> (impact <==> |pending| <= 2) && (showLogo <==> |pending| <= 1))
    }

    /** The pending timeouts fire in the order they are listed: their delays
        increase along the queue. */
    lemma PendingInDelayOrder()
      requires Valid()
      ensures InDelayOrder(pending)
      ensures ballVisible ==> pending == StageTimers[3 - |pending|..]
    {
      if pending == StageTimers {
        StageTimersInDelayOrder();
      } else if pending == [RevealLogo, Complete] {
        assert pending == StageTimers[1..];
      } else if pending == [Complete] {
        assert pending == StageTimers[2..];
      }
    }

    constructor ()
      ensures Valid() && mounted && intervalActive
      ensures TypingState() == TypingStart
      ensures !ballVisible && !impact && !showLogo && pending == [] && completeCalls == 0
    {
      text, currentIndex, intervalActive, mounted := "", 0, true, true;
      ballVisible, impact, showLogo := false, false, false;
      pending, completeCalls := [], 0;
    }

    /** The typing interval fires. */
    method Tick()
      requires Valid() && intervalActive
      modifies this
      ensures Valid()
      ensures TypingState() == TypingTick(old(TypingState()))
      ensures old(text) <= text <= FullText && |text| <= |old(text)| + 1
      ensures pending == if intervalActive then [] else [ShowBall]
      ensures mounted && !ballVisible && !impact && !showLogo && completeCalls == 0
    {
      if currentIndex <= |FullText| {
        text := FullText[..currentIndex];
        currentIndex := currentIndex + 1;
      } else {
        intervalActive := false;
        pending := pending + [ShowBall];
      }
    }

    /** The earliest pending timeout fires. */
    method Fire()
      requires Valid() && pending != []
      modifies this
      ensures Valid()
      ensures pending == old(pending[1..]) + if old(pending[0]) == ShowBall && mounted then StageTimers else []
      ensures ballVisible == (old(ballVisible) || (old(pending[0]) == ShowBall && mounted))
      ensures impact == (old(impact) || (old(pending[0]) == Impact && mounted))
      ensures showLogo == (old(showLogo) || (old(pending[0]) == RevealLogo && mounted))
      ensures completeCalls == old(completeCalls) + if old(pending[0]) == Complete then 1 else 0
      ensures TypingState() == old(TypingState()) && mounted == old(mounted)
    {
      var t := pending[0];
      pending := pending[1..];
      match t
      case ShowBall =>
        if mounted {
          ballVisible := true;
          // the effect that watches `ballVisible` sets the stage timeouts
          pending := pending + StageTimers;
        }
      case Impact =>
        if mounted {
          impact := true;
        }
      case RevealLogo =>
        if mounted {
          showLogo := true;
        }
      case Complete =>
        completeCalls := completeCalls + 1;
    }

    /** The host removes the intro: the typing interval is cleared, the
        timeouts are not. */
    method Unmount()
      requires Valid()
      modifies this
      ensures Valid() && !mounted && !intervalActive
      ensures text == old(text) && currentIndex == old(currentIndex) && pending == old(pending)
      ensures ballVisible == old(ballVisible) && impact == old(impact) && showLogo == old(showLogo)
      ensures completeCalls == old(completeCalls)
    {
      mounted, intervalActive := false, false;
    }
  }

  /** An uninterrupted run: the interval fires until it clears itself, then
      every timeout fires; the full line was shown, every stage was reached
      and `onComplete` was called. */
  method RunUninterrupted() returns (intro: Intro)
    ensures fresh(intro) && intro.Valid()
    ensures intro.text == FullText && intro.ballVisible && intro.impact && intro.showLogo
    ensures intro.pending == [] && intro.completeCalls > 0
  {
    intro := new Intro();
    while intro.intervalActive
      invariant intro.Valid() && intro.mounted
      invariant !intro.intervalActive ==> intro.pending == [ShowBall]
      decreases |FullText| + 1 - intro.currentIndex, intro.intervalActive
    {
      intro.Tick();
    }
    intro.Fire();
    intro.Fire();
    intro.Fire();
    intro.Fire();
  }
}
