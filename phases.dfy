/**
 * The DISTRACTED sequence of RideBuddyEyes::update: a phase machine that
 * looks to one side, holds, comes back, holds, and looks to the other side.
 */
module Phases {
  import opened EyeTypes

  /** A request to the animator: move the left and the right eye to these targets. */
  datatype Request = NoRequest | Animate(left: EyeState, right: EyeState)

  // The targets of the sequence: one eye enlarged and shifted, the other shrunk and shifted.
  const LookLeftLeftEye: EyeState := EyeState(-15.0, 0.0, EyeWidth as real * 1.5, EyeHeight as real * 1.5)
  const LookLeftRightEye: EyeState := EyeState(-10.0, 0.0, EyeWidth as real * 0.5, EyeHeight as real * 0.5)
  const LookRightLeftEye: EyeState := EyeState(10.0, 0.0, EyeWidth as real * 0.5, EyeHeight as real * 0.5)
  const LookRightRightEye: EyeState := EyeState(15.0, 0.0, EyeWidth as real * 1.5, EyeHeight as real * 1.5)

  /** Both eyes turned left: shifted left, the left eye enlarged and the right eye shrunk. */
  predicate LooksLeft(left: EyeState, right: EyeState)
  {
    && left.xOffset < 0.0 && right.xOffset < 0.0
    && left.width > EyeWidth as real && left.height > EyeHeight as real
    && right.width < EyeWidth as real && right.height < EyeHeight as real
  }

  /** Both eyes turned right: shifted right, the right eye enlarged and the left eye shrunk. */
  predicate LooksRight(left: EyeState, right: EyeState)
  {
    && left.xOffset > 0.0 && right.xOffset > 0.0
    && right.width > EyeWidth as real && right.height > EyeHeight as real
    && left.width < EyeWidth as real && left.height < EyeHeight as real
  }

  /** An eye seen in a mirror: the horizontal offset changes sign. */
  function Mirror(e: EyeState): EyeState
  {
    e.(xOffset := -e.xOffset)
  }

  /** The order the code hands over in: the phase each phase hands over to. */
  function Successor(p: DistractedPhase): DistractedPhase
  {
    match p
    case Init => LeftAnim
    case NeutralWaitBeforeFirstAnim => LeftAnim
    case LeftAnim => LeftHold
    case LeftHold => ReturnFromLeft
    case ReturnFromLeft => NeutralHold
    case NeutralHold => RightAnim
    case RightAnim => RightHold
    case RightHold => ReturnFromRight
    case ReturnFromRight => NeutralHold
  }

  /** What a phase waits for before it hands over. */
  datatype Wait = Immediately | Settled | Held(duration: nat)

  function WaitOf(p: DistractedPhase): Wait
  {
    match p
    case Init => Immediately
    case LeftHold | RightHold => Held(DistractedSideHoldDuration)
    case NeutralHold => Held(DistractedNeutralHoldDuration)
    case _ => Settled
  }

  /** Whether phase `p` may hand over, given whether the animator has settled and how long the phase has lasted. */
  predicate Ready(p: DistractedPhase, settled: bool, held: nat)
  {
    match WaitOf(p)
    case Immediately => true
    case Settled => settled
    case Held(d) => held >= d
  }

  /**
   * One processed tick of the sequence while DISTRACTED (the switch over
   * _distractedPhase): the next phase and the animation it starts.
   * `settled` is _animDuration == 0, `held` the time since the phase began.
   */
  function Step(p: DistractedPhase, settled: bool, held: nat): (r: (DistractedPhase, Request))
    ensures r.0 == p || r.0 == Successor(p)
    ensures r.0 == Successor(p) <==> Ready(p, settled, held)
    ensures p != NeutralWaitBeforeFirstAnim ==> r.0 != NeutralWaitBeforeFirstAnim
    ensures r.1 != NoRequest <==> r.0 != p && r.0 in {LeftAnim, ReturnFromLeft, RightAnim, ReturnFromRight}
    ensures r.1.Animate? ==> Sane(r.1.left) && Sane(r.1.right)
    ensures r.1.Animate? && r.0 == LeftAnim ==> r.1 == Animate(LookLeftLeftEye, LookLeftRightEye)
    ensures r.1.Animate? && r.0 == RightAnim ==> r.1 == Animate(LookRightLeftEye, LookRightRightEye)
    ensures r.1.Animate? && r.0 in {ReturnFromLeft, ReturnFromRight} ==> r.1 == Animate(CentredEye, CentredEye)
  {
    match p
    case Init =>
      (LeftAnim, Animate(LookLeftLeftEye, LookLeftRightEye))
    case NeutralWaitBeforeFirstAnim =>
      if settled then (LeftAnim, Animate(LookLeftLeftEye, LookLeftRightEye)) else (p, NoRequest)
    case LeftAnim =>
      if settled then (LeftHold, NoRequest) else (p, NoRequest)
    case LeftHold =>
      if held >= DistractedSideHoldDuration then (ReturnFromLeft, Animate(CentredEye, CentredEye)) else (p, NoRequest)
    case ReturnFromLeft =>
      if settled then (NeutralHold, NoRequest) else (p, NoRequest)
    case NeutralHold =>
      if held >= DistractedNeutralHoldDuration then (RightAnim, Animate(LookRightLeftEye, LookRightRightEye)) else (p, NoRequest)
    case RightAnim =>
      if settled then (RightHold, NoRequest) else (p, NoRequest)
    case RightHold =>
      if held >= DistractedSideHoldDuration then (ReturnFromRight, Animate(CentredEye, CentredEye)) else (p, NoRequest)
    case ReturnFromRight =>
      if settled then (NeutralHold, NoRequest) else (p, NoRequest)
  }

  /**
   * What the requests of Step mean: the hand-over to LEFT_ANIM turns both eyes
   * left, the one to RIGHT_ANIM turns them right, as the mirror image of the
   * left look with the eyes swapped, and the returns centre both eyes.
   */
  lemma StepLooks(p: DistractedPhase, settled: bool, held: nat)
    ensures var r := Step(p, settled, held);
            && (r.1.Animate? && r.0 == LeftAnim ==> LooksLeft(r.1.left, r.1.right))
            && (r.1.Animate? && r.0 == RightAnim ==> LooksRight(r.1.left, r.1.right))
            && (r.1.Animate? && r.0 == RightAnim ==>
                  r.1.left == Mirror(LookLeftRightEye) && r.1.right == Mirror(LookLeftLeftEye))
            && (r.1.Animate? && r.0 in {ReturnFromLeft, ReturnFromRight} ==>
                  r.1.left == CentredEye && r.1.right == CentredEye)
  {
  }

  /** The phase reached after `n` hand-overs from `p`. */
  function Iterate(p: DistractedPhase, n: nat): DistractedPhase
    decreases n
  {
    if n == 0 then p else Iterate(Successor(p), n - 1)
  }

  /** One more hand-over after `n` of them. */
  lemma {:induction false} IterateSucc(p: DistractedPhase, n: nat)
    ensures Iterate(p, n + 1) == Successor(Iterate(p, n))
    decreases n
  {
    if n > 0 {
      IterateSucc(Successor(p), n - 1);
    }
  }

  /** The sequence from INIT visits the phases in the order the code hands over in. */
  lemma HandOverOrder()
    ensures Iterate(Init, 1) == LeftAnim
    ensures Iterate(Init, 2) == LeftHold
    ensures Iterate(Init, 3) == ReturnFromLeft
    ensures Iterate(Init, 4) == NeutralHold
    ensures Iterate(Init, 5) == RightAnim
    ensures Iterate(Init, 6) == RightHold
    ensures Iterate(Init, 7) == ReturnFromRight
    ensures Iterate(Init, 8) == NeutralHold
  {
    IterateSucc(Init, 0);
    IterateSucc(Init, 1);
    IterateSucc(Init, 2);
    IterateSucc(Init, 3);
    IterateSucc(Init, 4);
    IterateSucc(Init, 5);
    IterateSucc(Init, 6);
    IterateSucc(Init, 7);
  }

  /** The four phases the sequence keeps cycling through once it has looked left. */
  predicate OnRightLoop(p: DistractedPhase)
  {
    p in {NeutralHold, RightAnim, RightHold, ReturnFromRight}
  }

  /** The right-hand loop is closed and has period four. */
  lemma {:induction false} RightLoopCycles(p: DistractedPhase, n: nat)
    requires OnRightLoop(p)
    ensures OnRightLoop(Iterate(p, n))
    ensures Iterate(p, n + 4) == Iterate(p, n)
    decreases n
  {
    if n == 0 {
      IterateSucc(p, 0);
      IterateSucc(p, 1);
      IterateSucc(p, 2);
      IterateSucc(p, 3);
    } else {
      RightLoopCycles(Successor(p), n - 1);
    }
  }

  /**
   * Once the sequence has made its first four hand-overs it never looks left
   * again: every later phase is on the right-hand loop.
   */
  lemma {:induction false} LeftSideOnlyOnce(n: nat)
    requires n >= 4
    ensures OnRightLoop(Iterate(Init, n))
  {
    assert Iterate(Init, n) == Iterate(NeutralHold, n - 4) by {
      assert Iterate(Init, n) == Iterate(LeftAnim, n - 1);
      assert Iterate(LeftAnim, n - 1) == Iterate(LeftHold, n - 2);
      assert Iterate(LeftHold, n - 2) == Iterate(ReturnFromLeft, n - 3);
    }
    RightLoopCycles(NeutralHold, n - 4);
  }

  /** The phase after a sequence of processed ticks, each given (settled, held). */
  function Run(p: DistractedPhase, ticks: seq<(bool, nat)>): DistractedPhase
    decreases |ticks|
  {
    if ticks == [] then p else Run(Step(p, ticks[0].0, ticks[0].1).0, ticks[1..])
  }

  /** The number of ticks of `ticks` on which the sequence handed over. */
  function HandOvers(p: DistractedPhase, ticks: seq<(bool, nat)>): nat
    decreases |ticks|
  {
    if ticks == [] then 0
    else
      var q := Step(p, ticks[0].0, ticks[0].1).0;
      (if q == p then 0 else 1) + HandOvers(q, ticks[1..])
  }

  /**
   * However the ticks fall, the sequence only ever moves along the hand-over
   * order, one phase per tick at most: after the ticks it is exactly as many
   * hand-overs along the order as there were ticks that handed over.
   */
  lemma {:induction false} RunFollowsOrder(p: DistractedPhase, ticks: seq<(bool, nat)>)
    ensures HandOvers(p, ticks) <= |ticks|
    ensures Run(p, ticks) == Iterate(p, HandOvers(p, ticks))
    decreases |ticks|
  {
    if ticks != [] {
      var q := Step(p, ticks[0].0, ticks[0].1).0;
      RunFollowsOrder(q, ticks[1..]);
      if q != p {
        assert q == Successor(p);
      }
    }
  }

  /** A sequence that starts anywhere but in NEUTRAL_WAIT_BEFORE_FIRST_ANIM never reaches it. */
  lemma {:induction false} NeverWaits(p: DistractedPhase, ticks: seq<(bool, nat)>)
    requires p != NeutralWaitBeforeFirstAnim
    ensures Run(p, ticks) != NeutralWaitBeforeFirstAnim
    decreases |ticks|
  {
    if ticks != [] {
      NeverWaits(Step(p, ticks[0].0, ticks[0].1).0, ticks[1..]);
    }
  }
}
