/**
 * The RideBuddyEyes class: a polled, single-threaded state machine for a
 * pair of robot eyes. Every method takes the current millis() reading `now`,
 * and the values the source draws from random(a, b) are passed in.
 */
module Eyes {
  import opened EyeTypes
  import opened Easing
  import opened Phases
  import opened Cursors
  import opened Render

  /** The random(a, b) results one processed tick may consume. */
  datatype Draws = Draws(blinkGap: int, idleGap: int, glanceX: int, glanceY: int,
                         angryX: int, angryY: int, loveX: int, loveY: int)

  /** Each draw lies in the half-open range its random(a, b) call names. */
  predicate ValidDraws(d: Draws)
  {
    && AutoBlinkMinInterval <= d.blinkGap < AutoBlinkMaxInterval
    && IdleActionMinInterval <= d.idleGap < IdleActionMaxInterval
    && -8 <= d.glanceX < 9 && -6 <= d.glanceY < 7
    && -2 <= d.angryX < 3 && -2 <= d.angryY < 3
    && -1 <= d.loveX < 2 && -1 <= d.loveY < 2
  }

  /** The emotions whose geometry update() animates. */
  predicate Animated(e: Emotion)
  {
    e in {Neutral, Blink, Distracted, Sleep, Scared}
  }

  /** The emotions for which update() runs auto-blink, the idle glance and the vibration. */
  predicate BlinkEligible(e: Emotion)
  {
    e !in {Cry, Shy, Driving, Happy, Battery, Distracted}
  }

  /** The emotions drawEyes() draws as a full-screen bitmap. */
  predicate DrawnAsBitmap(e: Emotion)
  {
    e in {Cry, Shy, Angry, Driving, Happy, Battery, Love}
  }

  /** The emotions for which setEmotion() returns before its switch. */
  predicate ReturnsEarly(e: Emotion)
  {
    e in {Cry, Shy, Driving, Happy, Battery, Sleep, Distracted}
  }

  /** A geometry transition: the target of both eyes and the duration. */
  datatype Transition = Transition(target: EyeState, duration: uint16)

  const ScaredEye: EyeState := EyeState(0.0, 0.0, EyeWidth as real * 0.7, EyeHeight as real * 0.7)
  const SleepEye: EyeState := EyeState(0.0, 0.0, EyeWidth as real, (EyeWidth / 2) as real)

  /** The switch of setEmotion: the transition each emotion's case starts, given the left eye. */
  function SwitchTransition(e: Emotion, left: EyeState): Option<Transition>
  {
    match e
    case Happy | Love => None
    case Blink => Some(Transition(EyeState(0.0, 0.0, left.width, left.height), 0))
    case Sleep => Some(Transition(SleepEye, 200))
    case Scared => Some(Transition(ScaredEye, 150))
    case _ => Some(Transition(CentredEye, 150))
  }

  /**
   * The transition setEmotion(e) starts: none for the emotions that return
   * early (so the switch's HAPPY and SLEEP cases are never reached) and none
   * for LOVE; BLINK freezes the eyes where they are; ANGRY falls into the
   * default case and heads for the centre.
   */
  function EntryTransition(e: Emotion, left: EyeState): (r: Option<Transition>)
    ensures r.None? <==> ReturnsEarly(e) || e == Love
    ensures r.Some? ==> r.value.duration as nat <= MaxAnimDuration
    ensures r.Some? && Sane(left) ==> Sane(r.value.target)
    ensures e == Blink ==> r == Some(Transition(EyeState(0.0, 0.0, left.width, left.height), 0))
    ensures e in {Neutral, Angry} ==> r == Some(Transition(CentredEye, 150))
    ensures e == Scared ==> r.Some? && r.value.target.width < CentredEye.width && r.value.target.height < CentredEye.height
  {
    if ReturnsEarly(e) then None else SwitchTransition(e, left)
  }

  /**
   * The emotion after the auto-blink block of one processed tick, given the
   * emotion before it, the remembered emotion, whether an idle glance is on,
   * the auto-blink time and the blink's start.
   */
  function TickEmotion(e: Emotion, previous: Emotion, idle: bool, nextBlink: uint32, blinkStart: uint32, now: uint32): (r: Emotion)
    ensures !BlinkEligible(e) ==> r == e
    ensures r == Blink <==>
              (e == Blink && Since(now, blinkStart) <= BlinkDuration) ||
              (e == Blink && previous == Blink) ||
              (e != Blink && BlinkEligible(e) && !idle && now >= nextBlink)
    ensures e == Blink && Since(now, blinkStart) > BlinkDuration ==> r == previous
    ensures e != Blink && r != e ==> r == Blink
  {
    if !BlinkEligible(e) then e
    else if e != Blink && !idle && now >= nextBlink then Blink
    else if e == Blink && Since(now, blinkStart) > BlinkDuration then previous
    else e
  }

  /** Whether the animator has settled once updateAnimation runs at `now`. */
  predicate SettledAt(duration: uint16, start: uint32, now: uint32)
  {
    duration == 0 || Since(now, start) >= duration as nat
  }

  /** The full-screen command of a bitmap emotion, given its frame and the vibration. */
  function BitmapCommand(e: Emotion, frame: nat, dx: int8, dy: int8): (c: Cmd)
    requires DrawnAsBitmap(e)
    ensures c.FullFrame? <==> e !in {Angry, Love}
    ensures c.StillFrame? ==> c.dx == dx as int && c.dy == dy as int
    ensures c.FullFrame? ==> c.frame == frame
    ensures e == Cry ==> c.FullFrame? && c.animation == CryFrames
    ensures e == Shy ==> c.FullFrame? && c.animation == ShyFrames
    ensures e == Driving ==> c.FullFrame? && c.animation == DrivingFrames
    ensures e == Happy ==> c.FullFrame? && c.animation == HappyFrames
    ensures e == Battery ==> c.FullFrame? && c.animation == BatteryFrames
    ensures e == Angry ==> c.StillFrame? && c.image == AngryBits
    ensures e == Love ==> c.StillFrame? && c.image == LoveBits
  {
    match e
    case Cry => FullFrame(CryFrames, frame)
    case Shy => FullFrame(ShyFrames, frame)
    case Driving => FullFrame(DrivingFrames, frame)
    case Happy => FullFrame(HappyFrames, frame)
    case Battery => FullFrame(BatteryFrames, frame)
    case Angry => StillFrame(AngryBits, dx as int, dy as int)
    case Love => StillFrame(LoveBits, dx as int, dy as int)
  }

  /** The image drawn names the emotion: two different bitmap emotions never draw the same command. */
  lemma BitmapIdentifies(e1: Emotion, e2: Emotion, frame: nat, dx: int8, dy: int8)
    requires DrawnAsBitmap(e1) && DrawnAsBitmap(e2) && e1 != e2
    ensures BitmapCommand(e1, frame, dx, dy) != BitmapCommand(e2, frame, dx, dy)
  {
  }

  /** Every fixed target setEmotion and update() hand to the animator lies within the band. */
  lemma FixedTargetsSane()
    ensures Sane(CentredEye) && Sane(ScaredEye) && Sane(SleepEye)
    ensures Sane(LookLeftLeftEye) && Sane(LookLeftRightEye)
    ensures Sane(LookRightLeftEye) && Sane(LookRightRightEye)
  {
  }

  /** The two entries of a per-eye array. */
  ghost predicate Pair(a: array<EyeState>, left: EyeState, right: EyeState)
    reads a
  {
    a.Length == 2 && a[0] == left && a[1] == right
  }

  /** The emotion fields: the emotion shown, the one to go back to after a blink, and whether an idle glance is on. */
  datatype Mood = Mood(current: Emotion, previous: Emotion, idle: bool)

  /** The emotion fields after setEmotion(e) from `m`: the emotion left is remembered unless it is BLINK, and any idle glance is dropped. */
  function Entering(m: Mood, e: Emotion): (r: Mood)
    ensures r.current == e && !r.idle
    ensures m.previous != Blink ==> r.previous != Blink
    ensures r.previous == m.previous || r.previous == m.current
  {
    Mood(e, if m.current != Blink then m.current else m.previous, false)
  }

  /**
   * A blink round trip: blinking away from a non-BLINK emotion remembers it,
   * and going back to the remembered emotion restores it, which is then also
   * the remembered one.
   */
  lemma BlinkRoundTrip(m: Mood)
    requires m.current != Blink
    ensures Entering(m, Blink).previous == m.current
    ensures Entering(Entering(m, Blink), Entering(m, Blink).previous) == Mood(m.current, m.current, false)
  {
  }

  /** The counters setEmotion restarts: the five frame cursors, the sleeping mouth and the DISTRACTED phase, each with its timer. */
  datatype Counters = Counters(cry: Cursor, shy: Cursor, driving: Cursor, happy: Cursor, battery: Cursor,
                               mouth: SleepMouth, mouthToggled: uint32,
                               phase: DistractedPhase, phaseStart: uint32)

  /** The counters one emotion owns. */
  datatype Owned = OwnFrames(cursor: Cursor) | OwnMouth(shape: SleepMouth, toggled: uint32)
                 | OwnPhase(phase: DistractedPhase, since: uint32) | OwnNothing

  function OwnedBy(c: Counters, e: Emotion): Owned
  {
    match e
    case Cry => OwnFrames(c.cry)
    case Shy => OwnFrames(c.shy)
    case Driving => OwnFrames(c.driving)
    case Happy => OwnFrames(c.happy)
    case Battery => OwnFrames(c.battery)
    case Sleep => OwnMouth(c.mouth, c.mouthToggled)
    case Distracted => OwnPhase(c.phase, c.phaseStart)
    case _ => OwnNothing
  }

  /** Where setEmotion(e) restarts e's counters at `now`: the first frame, the unshaped mouth, INIT. */
  function Restarted(e: Emotion, now: uint32): Owned
  {
    match e
    case Cry | Shy | Driving | Happy | Battery => OwnFrames(Cursor(0, now))
    case Sleep => OwnMouth(Unshaped, now)
    case Distracted => OwnPhase(Init, now)
    case _ => OwnNothing
  }

  /** The resets of setEmotion(e): e's own counters restart and every other emotion's are kept. */
  function Reset(c: Counters, e: Emotion, now: uint32): Counters
  {
    match e
    case Cry => c.(cry := Cursor(0, now))
    case Shy => c.(shy := Cursor(0, now))
    case Driving => c.(driving := Cursor(0, now))
    case Happy => c.(happy := Cursor(0, now))
    case Battery => c.(battery := Cursor(0, now))
    case Sleep => c.(mouth := Unshaped, mouthToggled := now)
    case Distracted => c.(phase := Init, phaseStart := now)
    case _ => c
  }

  /** setEmotion(e) restarts e's own counters at `now` and keeps every other emotion's. */
  lemma ResetRestarts(c: Counters, e: Emotion, now: uint32)
    ensures OwnedBy(Reset(c, e, now), e) == Restarted(e, now)
    ensures forall e' :: e' != e ==> OwnedBy(Reset(c, e, now), e') == OwnedBy(c, e')
  {
  }

  /** The shared animator of both eyes: when the transition started, how long it runs (0 once settled), and each eye's start and target. */
  datatype Animator = Animator(startTime: uint32, duration: uint16,
                               startLeft: EyeState, startRight: EyeState,
                               targetLeft: EyeState, targetRight: EyeState)

  /** The frame counts of the five bitmap animations. */
  datatype FrameCounts = FrameCounts(cry: nat, shy: nat, driving: nat, happy: nat, battery: nat)

  /** The emotions drawEyes() plays as a sequence of frames. */
  predicate Animates(e: Emotion)
  {
    e in {Cry, Shy, Driving, Happy, Battery}
  }

  /** The number of frames emotion `e` plays (1 for an emotion that plays none). */
  function CountOf(n: FrameCounts, e: Emotion): nat
  {
    match e
    case Cry => n.cry
    case Shy => n.shy
    case Driving => n.driving
    case Happy => n.happy
    case Battery => n.battery
    case _ => 1
  }

  /** The frame of `e` the counters hold (0 for an emotion that plays none). */
  function FrameOf(c: Counters, e: Emotion): nat
  {
    match OwnedBy(c, e)
    case OwnFrames(cursor) => cursor.frame
    case _ => 0
  }

  /**
   * The frame step of drawEyes() at `now`: the drawn emotion's cursor
   * advances when its frame is due, and every other counter is kept.
   */
  function NextFrame(c: Counters, e: Emotion, now: uint32, n: FrameCounts): Counters
    requires CountOf(n, e) > 0
  {
    match e
    case Cry => c.(cry := Advance(c.cry, now, n.cry))
    case Shy => c.(shy := Advance(c.shy, now, n.shy))
    case Driving => c.(driving := Advance(c.driving, now, n.driving))
    case Happy => c.(happy := Advance(c.happy, now, n.happy))
    case Battery => c.(battery := Advance(c.battery, now, n.battery))
    case _ => c
  }

  /**
   * The frame step moves only the drawn emotion's cursor, by Advance, keeps
   * it within its table, and leaves every other counter alone.
   */
  lemma NextFrameSteps(c: Counters, e: Emotion, now: uint32, n: FrameCounts)
    requires CountOf(n, e) > 0
    ensures forall e' :: e' != e ==> OwnedBy(NextFrame(c, e, now, n), e') == OwnedBy(c, e')
    ensures Animates(e) ==> OwnedBy(NextFrame(c, e, now, n), e) == OwnFrames(Advance(OwnedBy(c, e).cursor, now, CountOf(n, e)))
    ensures !Animates(e) ==> NextFrame(c, e, now, n) == c
    ensures FrameOf(c, e) < CountOf(n, e) ==> FrameOf(NextFrame(c, e, now, n), e) < CountOf(n, e)
  {
  }

  /**
   * One drawn frame: a bitmap emotion's full-screen image, or a procedural
   * emotion's two eyes and face, between clearing and sending the buffer.
   */
  function Picture(e: Emotion, frame: nat, left: EyeState, right: EyeState, dx: int8, dy: int8, mouth: SleepMouth): seq<Cmd>
  {
    [ClearBuffer] + Content(e, frame, left, right, dx, dy, mouth) + [SendBuffer]
  }

  /** What a picture shows between clearing and sending the buffer. */
  function Content(e: Emotion, frame: nat, left: EyeState, right: EyeState, dx: int8, dy: int8, mouth: SleepMouth): seq<Cmd>
  {
    if DrawnAsBitmap(e) then
      [BitmapCommand(e, frame, dx, dy)]
    else
      EyeCommands(0, e, left) + EyeCommands(1, e, right) + Decorations(e, mouth)
  }

  /** A frame is sent exactly once, after exactly one clear at its start. */
  predicate Framed(cmds: seq<Cmd>)
  {
    && |cmds| >= 2 && cmds[0] == ClearBuffer && cmds[|cmds| - 1] == SendBuffer
    && forall i :: 0 < i < |cmds| - 1 ==> !cmds[i].ClearBuffer? && !cmds[i].SendBuffer?
  }

  /** Clearing, then commands that neither clear nor send, then sending, is a framed picture. */
  lemma FramedBody(body: seq<Cmd>)
    requires forall c :: c in body ==> !c.ClearBuffer? && !c.SendBuffer?
    ensures Framed([ClearBuffer] + body + [SendBuffer])
  {
    var r := [ClearBuffer] + body + [SendBuffer];
    forall i | 0 < i < |r| - 1
      ensures !r[i].ClearBuffer? && !r[i].SendBuffer?
    {
      assert r[i] == body[i - 1] && body[i - 1] in body;
    }
  }

  /** Every picture is framed, and a bitmap emotion's shows its own image at the given frame. */
  lemma PictureFramed(e: Emotion, frame: nat, left: EyeState, right: EyeState, dx: int8, dy: int8, mouth: SleepMouth)
    ensures Framed(Picture(e, frame, left, right, dx, dy, mouth))
    ensures DrawnAsBitmap(e) ==> Picture(e, frame, left, right, dx, dy, mouth)[1] == BitmapCommand(e, frame, dx, dy)
  {
    var body := Content(e, frame, left, right, dx, dy, mouth);
    if DrawnAsBitmap(e) {
      assert body == [BitmapCommand(e, frame, dx, dy)];
      FramedBody(body);
    } else {
      FaceFramed(e, left, right, mouth);
    }
  }

  /** A procedural emotion's picture is framed: neither eye nor the face clears or sends. */
  lemma FaceFramed(e: Emotion, left: EyeState, right: EyeState, mouth: SleepMouth)
    ensures Framed([ClearBuffer] + (EyeCommands(0, e, left) + EyeCommands(1, e, right) + Decorations(e, mouth)) + [SendBuffer])
  {
    EyeNeverFrames(0, e, left);
    EyeNeverFrames(1, e, right);
    FramedParts(EyeCommands(0, e, left), EyeCommands(1, e, right), Decorations(e, mouth));
  }

  /** Drawing one eye neither clears nor sends the buffer. */
  lemma EyeNeverFrames(i: nat, e: Emotion, s: EyeState)
    ensures forall c :: c in EyeCommands(i, e, s) ==> !c.ClearBuffer? && !c.SendBuffer?
  {
    var r := EyeCommands(i, e, s);
    assert forall c :: c in r ==> c.EyeBox? || c.EyeLine? || c.EyeDisc? || c.EyeCut?;
  }

  /** Clearing, both eyes and the face, then sending, is framed when no part clears or sends. */
  lemma FramedParts(l: seq<Cmd>, m: seq<Cmd>, d: seq<Cmd>)
    requires forall c :: c in l ==> !c.ClearBuffer? && !c.SendBuffer?
    requires forall c :: c in m ==> !c.ClearBuffer? && !c.SendBuffer?
    requires forall c :: c in d ==> !c.ClearBuffer? && !c.SendBuffer?
    ensures Framed([ClearBuffer] + (l + m + d) + [SendBuffer])
  {
    forall c | c in l + m + d
      ensures !c.ClearBuffer? && !c.SendBuffer?
    {
      assert c in l || c in m || c in d;
    }
    FramedBody(l + m + d);
  }

  /**
   * The sleeping face shows the mouth the toggle has chosen: the unshaped
   * 20 x 8 mouth or the oval 28 x 6 one, never both, with the bubbles.
   */
  lemma SleepMouthDrawn(frame: nat, left: EyeState, right: EyeState, dx: int8, dy: int8, mouth: SleepMouth)
    ensures var p := Picture(Sleep, frame, left, right, dx, dy, mouth);
            && Bubbles in p
            && (Mouth(20, 8) in p <==> mouth == Unshaped)
            && (Mouth(28, 6) in p <==> mouth == Oval)
  {
    var l, m, d := EyeCommands(0, Sleep, left), EyeCommands(1, Sleep, right), Decorations(Sleep, mouth);
    var p := Picture(Sleep, frame, left, right, dx, dy, mouth);
    assert p == [ClearBuffer] + (l + m + d) + [SendBuffer];
    forall c | c in p && c.Mouth?
      ensures c in d
    {
      assert c in l || c in m || c in d;
    }
    assert Bubbles in d;
  }

  /** With both eyes within the band, no disc of a picture has a negative radius. */
  lemma PictureDiscs(e: Emotion, frame: nat, left: EyeState, right: EyeState, dx: int8, dy: int8, mouth: SleepMouth)
    requires Sane(left) && Sane(right)
    ensures forall c :: c in Picture(e, frame, left, right, dx, dy, mouth) && c.EyeDisc? ==> c.radius >= 0
  {
    if DrawnAsBitmap(e) {
      DiscsInParts([BitmapCommand(e, frame, dx, dy)], [], []);
    } else {
      DiscsInParts(EyeCommands(0, e, left), EyeCommands(1, e, right), Decorations(e, mouth));
    }
  }

  /** A picture built from parts without a negative disc has none itself. */
  lemma DiscsInParts(l: seq<Cmd>, m: seq<Cmd>, d: seq<Cmd>)
    requires forall c :: c in l && c.EyeDisc? ==> c.radius >= 0
    requires forall c :: c in m && c.EyeDisc? ==> c.radius >= 0
    requires forall c :: c in d && c.EyeDisc? ==> c.radius >= 0
    ensures forall c :: c in [ClearBuffer] + (l + m + d) + [SendBuffer] && c.EyeDisc? ==> c.radius >= 0
  {
    forall c | c in [ClearBuffer] + (l + m + d) + [SendBuffer] && c.EyeDisc?
      ensures c.radius >= 0
    {
      assert c in l || c in m || c in d;
    }
  }

  class RideBuddyEyes {
    // The frame counts of the bitmap tables.
    const cryFrameCount: nat
    const shyFrameCount: nat
    const drivingFrameCount: nat
    const happyFrameCount: nat
    const batteryFrameCount: nat

    // The animation system's geometry, one entry per eye (0 left, 1 right).
    const currentState: array<EyeState>
    const startState: array<EyeState>
    const targetState: array<EyeState>

    var hasDisplay: bool
    ghost var begun: bool
    var currentEmotion: Emotion
    var previousEmotion: Emotion
    var lastFrameTime: uint32

    var nextBlinkTime: uint32
    var blinkStartTime: uint32
    var nextIdleActionTime: uint32
    var idleActionEndTime: uint32
    var isIdleActionActive: bool
    var vibrateXOffset: int8
    var vibrateYOffset: int8

    var cry: Cursor
    var shy: Cursor
    var driving: Cursor
    var happy: Cursor
    var battery: Cursor

    var distractedPhase: DistractedPhase
    var distractedPhaseStartTime: uint32

    var sleepMouth: SleepMouth
    var sleepMouthLastToggleTime: uint32

    var animStartTime: uint32
    var animDuration: uint16

    /** The object invariant. */
    ghost predicate Valid()
      reads this, currentState, startState, targetState
    {
      Wired() && Bounded() && Geometry()
    }

    /** Three distinct two-eye arrays and non-empty bitmap tables. */
    predicate Wired()
    {
      && currentState.Length == 2 && startState.Length == 2 && targetState.Length == 2
      && currentState != startState && currentState != targetState && startState != targetState
      && cryFrameCount > 0 && shyFrameCount > 0 && drivingFrameCount > 0
      && happyFrameCount > 0 && batteryFrameCount > 0
    }

    /**
     * The remembered emotion is never BLINK, every frame index is within its
     * table, the DISTRACTED sequence never waits before its first look, the
     * face never jitters more than two pixels, and a display is only
     * attached by begin().
     */
    ghost predicate Bounded()
      reads this`previousEmotion, this`cry, this`shy, this`driving, this`happy, this`battery
      reads this`vibrateXOffset, this`vibrateYOffset, this`hasDisplay, this`begun, this`distractedPhase
    {
      && previousEmotion != Blink
      && distractedPhase != NeutralWaitBeforeFirstAnim
      && cry.frame < cryFrameCount && shy.frame < shyFrameCount
      && driving.frame < drivingFrameCount && happy.frame < happyFrameCount
      && battery.frame < batteryFrameCount
      && -2 <= vibrateXOffset <= 2 && -2 <= vibrateYOffset <= 2
      && (hasDisplay ==> begun)
    }

    /** Once the eyes have begun, every eye the animator holds lies within the band. */
    ghost predicate Geometry()
      reads this`begun, currentState, startState, targetState
    {
      begun ==>
        && currentState.Length == 2 && startState.Length == 2 && targetState.Length == 2
        && Sane(currentState[0]) && Sane(currentState[1])
        && Sane(startState[0]) && Sane(startState[1])
        && Sane(targetState[0]) && Sane(targetState[1])
    }

    /** The animator's fields as one value. */
    ghost function Anim(): Animator
      requires Wired()
      reads this`animStartTime, this`animDuration, startState, targetState
    {
      Animator(animStartTime, animDuration, startState[0], startState[1], targetState[0], targetState[1])
    }

    /** The emotion fields as one value. */
    function Moods(): Mood
      reads this`currentEmotion, this`previousEmotion, this`isIdleActionActive
    {
      Mood(currentEmotion, previousEmotion, isIdleActionActive)
    }

    /** The counters' fields as one value. */
    function Counts(): Counters
      reads this`cry, this`shy, this`driving, this`happy, this`battery
      reads this`sleepMouth, this`sleepMouthLastToggleTime, this`distractedPhase, this`distractedPhaseStartTime
    {
      Counters(cry, shy, driving, happy, battery, sleepMouth, sleepMouthLastToggleTime,
               distractedPhase, distractedPhaseStartTime)
    }

    /** The frame counts of the bitmap tables as one value. */
    function Tables(): (n: FrameCounts)
      ensures Wired() ==> forall e :: CountOf(n, e) > 0
    {
      FrameCounts(cryFrameCount, shyFrameCount, drivingFrameCount, happyFrameCount, batteryFrameCount)
    }

    /** A transition to `left` and `right` over `duration` started at `now` from the current geometry. */
    ghost predicate Started(left: EyeState, right: EyeState, duration: uint16, now: uint32)
      reads this`animStartTime, this`animDuration, currentState, startState, targetState
    {
      Wired() && Anim() == Animator(now, duration, currentState[0], currentState[1], left, right)
    }

    /** The animator is as it was. */
    twostate predicate AnimatorKept()
      reads this`animStartTime, this`animDuration, startState, targetState
    {
      Wired() && Anim() == old(Anim())
    }

    /** The emotion's own counters restart at `now`; every other emotion's are left alone. */
    twostate predicate CountersReset(e: Emotion, now: uint32)
      reads this`cry, this`shy, this`driving, this`happy, this`battery
      reads this`sleepMouth, this`sleepMouthLastToggleTime, this`distractedPhase, this`distractedPhaseStartTime
    {
      Counts() == Reset(old(Counts()), e, now)
    }

    /** What setEmotion(e) does at `now` when it is not a no-op. */
    twostate predicate Entered(e: Emotion, now: uint32)
      reads this, currentState, startState, targetState
    {
      && Moods() == Entering(old(Moods()), e)
      && CountersReset(e, now)
      && Wired()
      && unchanged(currentState)
      && Anim() == match EntryTransition(e, old(currentState[0]))
                   case None => old(Anim())
                   case Some(t) => Animator(now, t.duration, currentState[0], currentState[1], t.target, t.target)
    }

    /** The constructor: NEUTRAL, no display, nothing animating; bitmap tables of the given sizes. */
    constructor (cryCount: nat, shyCount: nat, drivingCount: nat, happyCount: nat, batteryCount: nat)
      requires cryCount > 0 && shyCount > 0 && drivingCount > 0 && happyCount > 0 && batteryCount > 0
      ensures Valid() && !begun
      ensures !hasDisplay && currentEmotion == Neutral && previousEmotion == Neutral
      ensures animDuration == 0 && vibrateXOffset == 0 && vibrateYOffset == 0 && !isIdleActionActive
      ensures cry.frame == 0 && shy.frame == 0 && driving.frame == 0 && happy.frame == 0 && battery.frame == 0
      ensures distractedPhase == Init && distractedPhaseStartTime == 0
      ensures sleepMouth == Unshaped && sleepMouthLastToggleTime == 0
      ensures cryFrameCount == cryCount && shyFrameCount == shyCount && drivingFrameCount == drivingCount
      ensures happyFrameCount == happyCount && batteryFrameCount == batteryCount
    {
      cryFrameCount, shyFrameCount, drivingFrameCount := cryCount, shyCount, drivingCount;
      happyFrameCount, batteryFrameCount := happyCount, batteryCount;
      currentState := new EyeState[2](_ => EyeState(0.0, 0.0, 0.0, 0.0));
      startState := new EyeState[2](_ => EyeState(0.0, 0.0, 0.0, 0.0));
      targetState := new EyeState[2](_ => EyeState(0.0, 0.0, 0.0, 0.0));
      hasDisplay := false;
      begun := false;
      currentEmotion, previousEmotion := Neutral, Neutral;
      lastFrameTime, nextBlinkTime, blinkStartTime := 0, 0, 0;
      nextIdleActionTime, idleActionEndTime := 0, 0;
      animDuration, animStartTime := 0, 0;
      vibrateXOffset, vibrateYOffset := 0, 0;
      isIdleActionActive := false;
      cry, shy, driving := Cursor(0, 0), Cursor(0, 0), Cursor(0, 0);
      happy, battery := Cursor(0, 0), Cursor(0, 0);
      distractedPhase, distractedPhaseStartTime := Init, 0;
      sleepMouth, sleepMouthLastToggleTime := Unshaped, 0;
    }

    /**
     * begin(): attach the display (or none), centre both eyes, and schedule
     * the first auto-blink and idle glance.
     */
    method Begin(display: bool, now: uint32, blinkGap: int, idleGap: int)
      requires Wired() && Bounded()
      requires AutoBlinkMinInterval <= blinkGap < AutoBlinkMaxInterval
      requires IdleActionMinInterval <= idleGap < IdleActionMaxInterval
      modifies this`hasDisplay, this`begun, this`lastFrameTime, this`nextBlinkTime
      modifies this`nextIdleActionTime, this`idleActionEndTime
      modifies currentState, startState, targetState
      ensures Valid() && begun
      ensures hasDisplay == display
      ensures Pair(currentState, CentredEye, CentredEye)
      ensures Pair(startState, CentredEye, CentredEye)
      ensures Pair(targetState, CentredEye, CentredEye)
      ensures lastFrameTime == now && idleActionEndTime == 0
      ensures nextBlinkTime == Later(now, blinkGap) && nextIdleActionTime == Later(now, idleGap)
    {
      hasDisplay := display;
      CentreEyes();
      FixedTargetsSane();
      begun := true;
      Schedule(now, blinkGap, idleGap);
    }

    /** The timers of begin(): the frame clock starts now, and the first auto-blink and idle glance are scheduled. */
    method Schedule(now: uint32, blinkGap: int, idleGap: int)
      requires AutoBlinkMinInterval <= blinkGap < AutoBlinkMaxInterval
      requires IdleActionMinInterval <= idleGap < IdleActionMaxInterval
      modifies this`lastFrameTime, this`nextBlinkTime, this`nextIdleActionTime, this`idleActionEndTime
      ensures lastFrameTime == now && idleActionEndTime == 0
      ensures nextBlinkTime == Later(now, blinkGap) && nextIdleActionTime == Later(now, idleGap)
    {
      lastFrameTime := now;
      nextBlinkTime := Later(now, blinkGap);
      nextIdleActionTime := Later(now, idleGap);
      idleActionEndTime := 0;
    }

    /** The loop of begin(): both eyes centred, at rest. */
    method CentreEyes()
      requires Wired()
      modifies currentState, startState, targetState
      ensures Pair(currentState, CentredEye, CentredEye)
      ensures Pair(startState, CentredEye, CentredEye)
      ensures Pair(targetState, CentredEye, CentredEye)
    {
      for i := 0 to 2
        invariant forall j :: 0 <= j < i ==>
                    currentState[j] == CentredEye && startState[j] == CentredEye && targetState[j] == CentredEye
      {
        currentState[i] := CentredEye;
        startState[i] := currentState[i];
        targetState[i] := currentState[i];
      }
    }

    /** startAnimation(target, duration): both eyes move from where they are to `target`. */
    method StartAnimation(target: EyeState, duration: uint16, now: uint32)
      requires Valid()
      requires begun ==> Sane(target)
      modifies this`animStartTime, this`animDuration, startState, targetState
      ensures Valid()
      ensures Started(target, target, duration, now)
      ensures unchanged(currentState)
    {
      animStartTime := now;
      animDuration := duration;
      for i := 0 to 2
        modifies startState, targetState
        invariant forall j :: 0 <= j < i ==> startState[j] == currentState[j] && targetState[j] == target
      {
        startState[i] := currentState[i];
        targetState[i] := target;
      }
    }

    /** startAnimation(targetLeft, targetRight, duration): each eye moves to its own target. */
    method StartAnimationPair(left: EyeState, right: EyeState, duration: uint16, now: uint32)
      requires Valid()
      requires begun ==> Sane(left) && Sane(right)
      modifies this`animStartTime, this`animDuration, startState, targetState
      ensures Valid()
      ensures Started(left, right, duration, now)
      ensures unchanged(currentState)
    {
      animStartTime := now;
      animDuration := duration;
      startState[0] := currentState[0];
      targetState[0] := left;
      startState[1] := currentState[1];
      targetState[1] := right;
    }

    /**
     * updateAnimation(): with a transition in flight, put each eye at the
     * eased progress between its start and its target; once the duration has
     * elapsed, land on the target and mark the transition settled.
     */
    method UpdateAnimation(now: uint32)
      requires Valid()
      modifies this`animDuration, currentState
      ensures Valid()
      ensures old(animDuration) == 0 ==> animDuration == 0 && unchanged(currentState)
      ensures old(animDuration) != 0 ==>
                var p := Progress(Since(now, animStartTime), old(animDuration) as nat);
                Pair(currentState, Interpolate(startState[0], targetState[0], Ease(p)),
                                   Interpolate(startState[1], targetState[1], Ease(p)))
      ensures animDuration == 0 <==> SettledAt(old(animDuration), animStartTime, now)
      ensures animDuration != 0 ==> animDuration == old(animDuration)
      ensures old(animDuration) != 0 && animDuration == 0 ==> Pair(currentState, targetState[0], targetState[1])
    {
      if animDuration == 0 {
        return;
      }
      var progress := Since(now, animStartTime) as real / animDuration as real;
      if progress >= 1.0 {
        progress := 1.0;
        animDuration := 0;
      }
      assert progress == Progress(Since(now, animStartTime), old(animDuration) as nat);
      var eased := Ease(progress);
      for i := 0 to 2
        modifies currentState
        invariant forall j :: 0 <= j < i ==> currentState[j] == Interpolate(startState[j], targetState[j], eased)
      {
        currentState[i] := Interpolate(startState[i], targetState[i], eased);
      }
    }

    /**
     * setEmotion(e): a no-op when `e` is already current (BLINK excepted);
     * otherwise remember the emotion left (unless it is BLINK), drop the idle
     * glance, reset the new emotion's counters and start its transition.
     */
    method SetEmotion(e: Emotion, now: uint32)
      requires Valid()
      modifies this`currentEmotion, this`previousEmotion, this`isIdleActionActive
      modifies this`cry, this`shy, this`driving, this`happy, this`battery
      modifies this`sleepMouth, this`sleepMouthLastToggleTime
      modifies this`distractedPhase, this`distractedPhaseStartTime
      modifies this`animStartTime, this`animDuration, startState, targetState
      ensures Valid()
      ensures old(currentEmotion) == e && e != Blink ==>
                unchanged(this) && unchanged(startState) && unchanged(targetState)
      ensures old(currentEmotion) != e || e == Blink ==> Entered(e, now)
    {
      if currentEmotion == e && e != Blink {
        return;
      }
      ghost var mood, counts, anim := Moods(), Counts(), Anim();
      Switch(e);
      assert Counts() == counts && Anim() == anim;
      ResetCounters(e, now);
      assert Moods() == Entering(mood, e) && Anim() == anim;
      StartTransition(e, now);
      assert Moods() == Entering(mood, e) && Counts() == Reset(counts, e, now);
    }

    /** The early returns and the switch of setEmotion: start the transition EntryTransition names, if any. */
    method StartTransition(e: Emotion, now: uint32)
      requires Valid()
      modifies this`animStartTime, this`animDuration, startState, targetState
      ensures Valid()
      ensures unchanged(currentState)
      ensures Moods() == old(Moods()) && Counts() == old(Counts())
      ensures Anim() == match EntryTransition(e, currentState[0])
                        case None => old(Anim())
                        case Some(t) => Animator(now, t.duration, currentState[0], currentState[1], t.target, t.target)
    {
      match EntryTransition(e, currentState[0])
      case None =>
      case Some(t) =>
        StartAnimation(t.target, t.duration, now);
    }

    /** The emotion fields of setEmotion: remember the emotion left unless it is BLINK, take on `e`, drop the idle glance. */
    method Switch(e: Emotion)
      requires Wired() && Bounded()
      modifies this`currentEmotion, this`previousEmotion, this`isIdleActionActive
      ensures Bounded()
      ensures Moods() == Entering(old(Moods()), e)
      ensures Counts() == old(Counts()) && AnimatorKept()
    {
      if currentEmotion != Blink {
        previousEmotion := currentEmotion;
      }
      currentEmotion := e;
      isIdleActionActive := false;
    }

    /** The per-emotion resets of setEmotion: a bitmap animation restarts at its first frame, SLEEP at the unshaped mouth, DISTRACTED at INIT. */
    method ResetCounters(e: Emotion, now: uint32)
      requires Wired() && Bounded()
      modifies this`cry, this`shy, this`driving, this`happy, this`battery
      modifies this`sleepMouth, this`sleepMouthLastToggleTime
      modifies this`distractedPhase, this`distractedPhaseStartTime
      ensures Bounded()
      ensures CountersReset(e, now)
      ensures Moods() == old(Moods()) && AnimatorKept()
    {
      if Animates(e) {
        RestartFrames(e, now);
      } else if e == Sleep {
        sleepMouth := Unshaped;
        sleepMouthLastToggleTime := now;
      } else if e == Distracted {
        distractedPhase := Init;
        distractedPhaseStartTime := now;
      }
    }

    /** The resets of the five bitmap animations: the emotion's own cursor goes back to its first frame. */
    method RestartFrames(e: Emotion, now: uint32)
      requires Wired() && Bounded() && Animates(e)
      modifies this`cry, this`shy, this`driving, this`happy, this`battery
      ensures Bounded()
      ensures CountersReset(e, now)
      ensures Moods() == old(Moods()) && AnimatorKept()
    {
      match e
      case Cry =>
        cry := Cursor(0, now);
      case Shy =>
        shy := Cursor(0, now);
      case Driving =>
        driving := Cursor(0, now);
      case Happy =>
        happy := Cursor(0, now);
      case Battery =>
        battery := Cursor(0, now);
    }

    /** blink(): start a blink now, unless one is already showing. */
    method TriggerBlink(now: uint32)
      requires Valid()
      modifies this`blinkStartTime
      modifies this`currentEmotion, this`previousEmotion, this`isIdleActionActive
      modifies this`cry, this`shy, this`driving, this`happy, this`battery
      modifies this`sleepMouth, this`sleepMouthLastToggleTime
      modifies this`distractedPhase, this`distractedPhaseStartTime
      modifies this`animStartTime, this`animDuration, startState, targetState
      ensures Valid()
      ensures old(currentEmotion) == Blink ==> unchanged(this) && unchanged(startState) && unchanged(targetState)
      ensures old(currentEmotion) != Blink ==>
                blinkStartTime == now && Entered(Blink, now) && previousEmotion == old(currentEmotion)
    {
      if currentEmotion != Blink {
        blinkStartTime := now;
        SetEmotion(Blink, now);
      }
    }

    /** The auto-blink trigger of update(): blink when it is due and no idle glance is on. */
    method AutoBlink(now: uint32, blinkGap: int)
      requires Valid()
      requires AutoBlinkMinInterval <= blinkGap < AutoBlinkMaxInterval
      modifies this`blinkStartTime, this`nextBlinkTime
      modifies this`currentEmotion, this`previousEmotion, this`isIdleActionActive
      modifies this`cry, this`shy, this`driving, this`happy, this`battery
      modifies this`sleepMouth, this`sleepMouthLastToggleTime
      modifies this`distractedPhase, this`distractedPhaseStartTime
      modifies this`animStartTime, this`animDuration, startState, targetState
      ensures Valid()
      ensures old(currentEmotion) != Blink && !old(isIdleActionActive) && now >= old(nextBlinkTime) ==>
                && blinkStartTime == now
                && nextBlinkTime == Later(now, BlinkDuration + blinkGap)
                && Entered(Blink, now)
      ensures !(old(currentEmotion) != Blink && !old(isIdleActionActive) && now >= old(nextBlinkTime)) ==>
                unchanged(this) && unchanged(startState) && unchanged(targetState)
    {
      if currentEmotion != Blink && !isIdleActionActive && now >= nextBlinkTime {
        blinkStartTime := now;
        SetEmotion(Blink, now);
        nextBlinkTime := Later(now, BlinkDuration + blinkGap);
      }
    }

    /** The end of a blink in update(): once it has lasted longer than BLINK_DURATION, go back. */
    method EndBlink(now: uint32)
      requires Valid()
      modifies this`currentEmotion, this`previousEmotion, this`isIdleActionActive
      modifies this`cry, this`shy, this`driving, this`happy, this`battery
      modifies this`sleepMouth, this`sleepMouthLastToggleTime
      modifies this`distractedPhase, this`distractedPhaseStartTime
      modifies this`animStartTime, this`animDuration, startState, targetState
      ensures Valid()
      ensures blinkStartTime == old(blinkStartTime) && nextBlinkTime == old(nextBlinkTime)
      ensures old(currentEmotion) == Blink && Since(now, blinkStartTime) > BlinkDuration ==>
                Entered(old(previousEmotion), now) && previousEmotion == old(previousEmotion)
      ensures !(old(currentEmotion) == Blink && Since(now, blinkStartTime) > BlinkDuration) ==>
                unchanged(this) && unchanged(startState) && unchanged(targetState)
    {
      if currentEmotion == Blink && Since(now, blinkStartTime) > BlinkDuration {
        SetEmotion(previousEmotion, now);
      }
    }

    /**
     * The idle glance of a NEUTRAL face, the two blocks of update() one after
     * the other: when the idle time comes the eyes glance to (glanceX,
     * glanceY) and the glance is due to end after its transition and hold;
     * once it is due to end they look back to the centre and the next glance
     * is scheduled. Both can happen on one tick when the end time wraps past
     * the top of the clock.
     */
    twostate predicate IdleStep(now: uint32, glanceX: int, glanceY: int, idleGap: nat)
      reads this, currentState, startState, targetState
    {
      var glance := EyeState(glanceX as real, glanceY as real, EyeWidth as real, EyeHeight as real);
      var started := !old(isIdleActionActive) && now >= old(nextIdleActionTime);
      var endTime := if started then Later(now, IdleActionTransitionDuration + IdleActionHoldDuration) else old(idleActionEndTime);
      var ended := (old(isIdleActionActive) || started) && now >= endTime;
      && isIdleActionActive == ((old(isIdleActionActive) || started) && !ended)
      && idleActionEndTime == endTime
      && nextIdleActionTime == (if ended then Later(now, idleGap) else old(nextIdleActionTime))
      && (ended ==> Started(CentredEye, CentredEye, IdleActionTransitionDuration as uint16, now))
      && (started && !ended ==> Started(glance, glance, IdleActionTransitionDuration as uint16, now))
      && (!started && !ended ==> AnimatorKept())
    }

    /** The NEUTRAL idle-glance block of update(). */
    method IdleGlance(now: uint32, glanceX: int, glanceY: int, idleGap: int)
      requires Valid()
      requires -8 <= glanceX < 9 && -6 <= glanceY < 7
      requires IdleActionMinInterval <= idleGap < IdleActionMaxInterval
      modifies this`isIdleActionActive, this`idleActionEndTime, this`nextIdleActionTime
      modifies this`animStartTime, this`animDuration, startState, targetState
      ensures Valid()
      ensures unchanged(currentState)
      ensures IdleStep(now, glanceX, glanceY, idleGap)
    {
      if !isIdleActionActive && now >= nextIdleActionTime {
        isIdleActionActive := true;
        var glance := EyeState(glanceX as real, glanceY as real, EyeWidth as real, EyeHeight as real);
        StartAnimation(glance, IdleActionTransitionDuration as uint16, now);
        idleActionEndTime := Later(now, IdleActionTransitionDuration + IdleActionHoldDuration);
      }
      if isIdleActionActive && now >= idleActionEndTime {
        isIdleActionActive := false;
        FixedTargetsSane();
        StartAnimation(CentredEye, IdleActionTransitionDuration as uint16, now);
        nextIdleActionTime := Later(now, idleGap);
      }
    }

    /**
     * The idle glance and the vibration of update(): a NEUTRAL face keeps
     * still and may glance, ANGRY and LOVE jitter, every other face keeps still.
     */
    method Ambient(now: uint32, d: Draws)
      requires Valid() && ValidDraws(d)
      modifies this`vibrateXOffset, this`vibrateYOffset
      modifies this`isIdleActionActive, this`idleActionEndTime, this`nextIdleActionTime
      modifies this`animStartTime, this`animDuration, startState, targetState
      ensures Valid()
      ensures unchanged(currentState)
      ensures currentEmotion == Angry ==> vibrateXOffset as int == d.angryX && vibrateYOffset as int == d.angryY
      ensures currentEmotion == Love ==> vibrateXOffset as int == d.loveX && vibrateYOffset as int == d.loveY
      ensures currentEmotion !in {Angry, Love} ==> vibrateXOffset == 0 && vibrateYOffset == 0
      ensures currentEmotion == Neutral ==> IdleStep(now, d.glanceX, d.glanceY, d.idleGap)
      ensures currentEmotion != Neutral ==>
                && isIdleActionActive == old(isIdleActionActive)
                && idleActionEndTime == old(idleActionEndTime)
                && nextIdleActionTime == old(nextIdleActionTime)
                && AnimatorKept()
    {
      if currentEmotion == Neutral {
        vibrateXOffset, vibrateYOffset := 0, 0;
        IdleGlance(now, d.glanceX, d.glanceY, d.idleGap);
      } else if currentEmotion == Angry {
        vibrateXOffset, vibrateYOffset := d.angryX as int8, d.angryY as int8;
      } else if currentEmotion == Love {
        vibrateXOffset, vibrateYOffset := d.loveX as int8, d.loveY as int8;
      } else {
        vibrateXOffset, vibrateYOffset := 0, 0;
      }
    }

    /**
     * The block of update() run for the emotions BlinkEligible names: the
     * auto-blink, the end of a blink, then the idle glance and the vibration
     * of whatever emotion those leave.
     */
    method BlinkBlock(now: uint32, d: Draws)
      requires Valid() && ValidDraws(d)
      requires BlinkEligible(currentEmotion)
      modifies this`blinkStartTime, this`nextBlinkTime, this`vibrateXOffset, this`vibrateYOffset
      modifies this`currentEmotion, this`previousEmotion, this`isIdleActionActive
      modifies this`idleActionEndTime, this`nextIdleActionTime
      modifies this`cry, this`shy, this`driving, this`happy, this`battery
      modifies this`sleepMouth, this`sleepMouthLastToggleTime
      modifies this`distractedPhase, this`distractedPhaseStartTime
      modifies this`animStartTime, this`animDuration, startState, targetState
      ensures Valid()
      ensures unchanged(currentState)
      ensures currentEmotion == TickEmotion(old(currentEmotion), old(previousEmotion), old(isIdleActionActive),
                                            old(nextBlinkTime), old(blinkStartTime), now)
      ensures currentEmotion == old(currentEmotion) ==> Counts() == old(Counts())
      ensures currentEmotion == old(currentEmotion) && currentEmotion != Neutral ==> AnimatorKept()
      ensures currentEmotion == Angry ==> vibrateXOffset as int == d.angryX && vibrateYOffset as int == d.angryY
      ensures currentEmotion == Love ==> vibrateXOffset as int == d.loveX && vibrateYOffset as int == d.loveY
      ensures currentEmotion !in {Angry, Love} ==> vibrateXOffset == 0 && vibrateYOffset == 0
    {
      ghost var e, counts, anim := currentEmotion, Counts(), Anim();
      BlinkTimers(now, d.blinkGap);
      Ambient(now, d);
      assert currentEmotion == e ==> Counts() == counts;
    }

    /** The auto-blink and the end of a blink, one after the other. */
    method BlinkTimers(now: uint32, blinkGap: int)
      requires Valid()
      requires AutoBlinkMinInterval <= blinkGap < AutoBlinkMaxInterval
      requires BlinkEligible(currentEmotion)
      modifies this`blinkStartTime, this`nextBlinkTime
      modifies this`currentEmotion, this`previousEmotion, this`isIdleActionActive
      modifies this`cry, this`shy, this`driving, this`happy, this`battery
      modifies this`sleepMouth, this`sleepMouthLastToggleTime
      modifies this`distractedPhase, this`distractedPhaseStartTime
      modifies this`animStartTime, this`animDuration, startState, targetState
      ensures Valid()
      ensures unchanged(currentState)
      ensures currentEmotion == TickEmotion(old(currentEmotion), old(previousEmotion), old(isIdleActionActive),
                                            old(nextBlinkTime), old(blinkStartTime), now)
      ensures currentEmotion == old(currentEmotion) ==> Counts() == old(Counts()) && AnimatorKept()
      ensures old(currentEmotion) != Blink && !old(isIdleActionActive) && now >= old(nextBlinkTime) ==>
                && blinkStartTime == now
                && nextBlinkTime == Later(now, BlinkDuration + blinkGap)
                && Entered(Blink, now)
      ensures old(currentEmotion) == Blink && Since(now, old(blinkStartTime)) > BlinkDuration ==>
                && blinkStartTime == old(blinkStartTime)
                && nextBlinkTime == old(nextBlinkTime)
                && Entered(old(previousEmotion), now)
                && previousEmotion == old(previousEmotion)
      ensures old(currentEmotion) != Blink && (old(isIdleActionActive) || now < old(nextBlinkTime)) ==>
                unchanged(this) && unchanged(startState) && unchanged(targetState)
      ensures old(currentEmotion) == Blink && Since(now, old(blinkStartTime)) <= BlinkDuration ==>
                unchanged(this) && unchanged(startState) && unchanged(targetState)
    {
      ghost var mood, counts, anim := Moods(), Counts(), Anim();
      AutoBlink(now, blinkGap);
      assert currentEmotion != mood.current ==> currentEmotion == Blink && blinkStartTime == now;
      assert currentEmotion == mood.current ==> Moods() == mood && Counts() == counts && Anim() == anim;
      EndBlink(now);
      assert currentEmotion == mood.current ==> Counts() == counts && Anim() == anim;
    }

    /** The bitmap branch of drawEyes(): step the shown animation, then pick its image. */
    method DrawBitmap(now: uint32) returns (image: Cmd)
      requires Wired() && Bounded() && DrawnAsBitmap(currentEmotion)
      modifies this`cry, this`shy, this`driving, this`happy, this`battery
      ensures Bounded()
      ensures Counts() == NextFrame(old(Counts()), currentEmotion, now, Tables())
      ensures image == BitmapCommand(currentEmotion, FrameOf(Counts(), currentEmotion), vibrateXOffset, vibrateYOffset)
    {
      AdvanceFrame(now);
      image := BitmapCommand(currentEmotion, FrameOf(Counts(), currentEmotion), vibrateXOffset, vibrateYOffset);
    }

    /** The procedural branch of drawEyes(): each eye in turn, then the face. */
    method DrawFace() returns (body: seq<Cmd>)
      requires Wired() && !DrawnAsBitmap(currentEmotion)
      ensures body == Content(currentEmotion, 0, currentState[0], currentState[1], 0, 0, sleepMouth)
    {
      body := [];
      for i := 0 to 2
        invariant i == 0 ==> body == []
        invariant i == 1 ==> body == EyeCommands(0, currentEmotion, currentState[0])
        invariant i == 2 ==> body == EyeCommands(0, currentEmotion, currentState[0])
                                     + EyeCommands(1, currentEmotion, currentState[1])
      {
        body := body + EyeCommands(i, currentEmotion, currentState[i]);
      }
      body := body + Decorations(currentEmotion, sleepMouth);
    }

    /**
     * update() at `now`: nothing at all until a frame interval has passed
     * since the last processed frame; otherwise the frame time moves to
     * `now`, one Tick runs, and drawEyes() draws at `drawTime` (its own
     * millis() reading).
     */
    method Update(now: uint32, drawTime: uint32, d: Draws) returns (cmds: seq<Cmd>)
      requires Valid() && ValidDraws(d)
      modifies this`lastFrameTime
      modifies this`blinkStartTime, this`nextBlinkTime, this`vibrateXOffset, this`vibrateYOffset
      modifies this`currentEmotion, this`previousEmotion, this`isIdleActionActive
      modifies this`idleActionEndTime, this`nextIdleActionTime
      modifies this`cry, this`shy, this`driving, this`happy, this`battery
      modifies this`sleepMouth, this`sleepMouthLastToggleTime
      modifies this`distractedPhase, this`distractedPhaseStartTime
      modifies this`animStartTime, this`animDuration, currentState, startState, targetState
      ensures Valid()
      ensures Since(now, old(lastFrameTime)) < FrameInterval ==>
                cmds == [] && unchanged(this) && unchanged(currentState) && unchanged(startState) && unchanged(targetState)
      ensures Since(now, old(lastFrameTime)) >= FrameInterval ==>
                && lastFrameTime == now
                && currentEmotion == TickEmotion(old(currentEmotion), old(previousEmotion), old(isIdleActionActive),
                                                 old(nextBlinkTime), old(blinkStartTime), now)
                && (old(currentEmotion) == Distracted ==>
                      distractedPhase == Step(old(distractedPhase), SettledAt(old(animDuration), old(animStartTime), now),
                                              Since(now, old(distractedPhaseStartTime))).0)
                && (!hasDisplay ==> cmds == [])
                && (hasDisplay ==> Framed(cmds))
                && (hasDisplay ==>
                      cmds == Picture(currentEmotion, FrameOf(Counts(), currentEmotion), currentState[0], currentState[1],
                                      vibrateXOffset, vibrateYOffset, sleepMouth))
    {
      if Since(now, lastFrameTime) < FrameInterval {
        return [];
      }
      lastFrameTime := now;
      Tick(now, d);
      ghost var e, phase := currentEmotion, distractedPhase;
      cmds := DrawEyes(drawTime);
      assert currentEmotion == e && distractedPhase == phase && Geometry();
    }

    /**
     * The processed part of update() before the drawing: the animator moves
     * on for the emotions Animated names, the blink block runs for those
     * BlinkEligible names, then the emotion left by it runs its own phase
     * logic.
     */
    method Tick(now: uint32, d: Draws)
      requires Valid() && ValidDraws(d)
      modifies this`blinkStartTime, this`nextBlinkTime, this`vibrateXOffset, this`vibrateYOffset
      modifies this`currentEmotion, this`previousEmotion, this`isIdleActionActive
      modifies this`idleActionEndTime, this`nextIdleActionTime
      modifies this`cry, this`shy, this`driving, this`happy, this`battery
      modifies this`sleepMouth, this`sleepMouthLastToggleTime
      modifies this`distractedPhase, this`distractedPhaseStartTime
      modifies this`animStartTime, this`animDuration, currentState, startState, targetState
      ensures Valid()
      ensures currentEmotion == TickEmotion(old(currentEmotion), old(previousEmotion), old(isIdleActionActive),
                                            old(nextBlinkTime), old(blinkStartTime), now)
      ensures !Animated(old(currentEmotion)) ==> unchanged(currentState)
      ensures old(currentEmotion) == Distracted ==>
                distractedPhase == Step(old(distractedPhase), SettledAt(old(animDuration), old(animStartTime), now),
                                        Since(now, old(distractedPhaseStartTime))).0
      ensures old(currentEmotion) == Sleep && currentEmotion == Sleep ==>
                (sleepMouth != old(sleepMouth) <==> Since(now, old(sleepMouthLastToggleTime)) > SleepMouthToggleInterval)
      ensures old(currentEmotion) == Scared && currentEmotion == Scared && SettledAt(old(animDuration), old(animStartTime), now) ==>
                animStartTime == now && animDuration as nat == ScaredGlanceDuration
    {
      ghost var e, counts := currentEmotion, Counts();
      ghost var duration, start := animDuration, animStartTime;
      if Animated(currentEmotion) {
        UpdateAnimation(now);
      }
      assert Animated(e) ==> (animDuration == 0) == SettledAt(duration, start, now);
      assert Counts() == counts;
      if BlinkEligible(currentEmotion) {
        BlinkBlock(now, d);
      }
      PhaseTick(now, d);
    }

    /** The DISTRACTED, SLEEP and SCARED branches of update(), for the emotion the blink block leaves. */
    method PhaseTick(now: uint32, d: Draws)
      requires Valid() && ValidDraws(d)
      modifies this`vibrateYOffset, this`sleepMouth, this`sleepMouthLastToggleTime
      modifies this`distractedPhase, this`distractedPhaseStartTime
      modifies this`animStartTime, this`animDuration, startState, targetState
      ensures Valid()
      ensures unchanged(currentState)
      ensures currentEmotion == Distracted ==>
                var r := Step(old(distractedPhase), old(animDuration) == 0, Since(now, old(distractedPhaseStartTime)));
                && distractedPhase == r.0
                && distractedPhaseStartTime == (if r.0 != old(distractedPhase) then now else old(distractedPhaseStartTime))
                && (r.1 == NoRequest ==> AnimatorKept())
                && (r.1.Animate? ==> Started(r.1.left, r.1.right, DistractedAnimDuration as uint16, now))
                && sleepMouth == old(sleepMouth) && sleepMouthLastToggleTime == old(sleepMouthLastToggleTime)
                && vibrateYOffset == old(vibrateYOffset)
      ensures currentEmotion == Sleep ==>
                && (sleepMouth != old(sleepMouth) <==> Since(now, old(sleepMouthLastToggleTime)) > SleepMouthToggleInterval)
                && (Since(now, old(sleepMouthLastToggleTime)) > SleepMouthToggleInterval ==>
                      sleepMouthLastToggleTime == now && vibrateYOffset == (if sleepMouth == Oval then -2 else 0))
                && (Since(now, old(sleepMouthLastToggleTime)) <= SleepMouthToggleInterval ==>
                      sleepMouthLastToggleTime == old(sleepMouthLastToggleTime) && vibrateYOffset == old(vibrateYOffset))
                && distractedPhase == old(distractedPhase) && distractedPhaseStartTime == old(distractedPhaseStartTime)
                && AnimatorKept()
      ensures currentEmotion == Scared ==>
                && (old(animDuration) == 0 ==>
                      var glance := EyeState(d.glanceX as real, d.glanceY as real, currentState[0].width, currentState[0].height);
                      Started(glance, glance, ScaredGlanceDuration as uint16, now))
                && (old(animDuration) != 0 ==> AnimatorKept())
                && distractedPhase == old(distractedPhase) && distractedPhaseStartTime == old(distractedPhaseStartTime)
                && sleepMouth == old(sleepMouth) && sleepMouthLastToggleTime == old(sleepMouthLastToggleTime)
                && vibrateYOffset == old(vibrateYOffset)
      ensures currentEmotion !in {Distracted, Sleep, Scared} ==>
                unchanged(this) && unchanged(startState) && unchanged(targetState)
    {
      if currentEmotion == Distracted {
        DistractedTick(now);
      } else if currentEmotion == Sleep {
        SleepTick(now);
      } else if currentEmotion == Scared {
        ScaredTick(now, d.glanceX, d.glanceY);
      }
    }

    /**
     * The DISTRACTED switch of update(): one step of the phase sequence. The
     * switch's decisions are Step's; a phase that hands over starts the
     * animation Step requests and restarts the phase timer.
     */
    method DistractedTick(now: uint32)
      requires Valid()
      modifies this`distractedPhase, this`distractedPhaseStartTime
      modifies this`animStartTime, this`animDuration, startState, targetState
      ensures Valid()
      ensures unchanged(currentState)
      ensures
        var r := Step(old(distractedPhase), old(animDuration) == 0, Since(now, old(distractedPhaseStartTime)));
        && distractedPhase == r.0
        && distractedPhaseStartTime == (if r.0 != old(distractedPhase) then now else old(distractedPhaseStartTime))
        && (r.1 == NoRequest ==> AnimatorKept())
        && (r.1.Animate? ==> Started(r.1.left, r.1.right, DistractedAnimDuration as uint16, now))
    {
      var (next, request) := Step(distractedPhase, animDuration == 0, Since(now, distractedPhaseStartTime));
      if next != distractedPhase {
        match request {
          case NoRequest =>
          case Animate(left, right) =>
            StartAnimationPair(left, right, DistractedAnimDuration as uint16, now);
        }
        distractedPhase, distractedPhaseStartTime := next, now;
      }
    }

    /** The SLEEP branch of update(): every SLEEP_MOUTH_TOGGLE_INTERVAL the mouth changes shape and the face bobs. */
    method SleepTick(now: uint32)
      requires Valid()
      modifies this`sleepMouth, this`sleepMouthLastToggleTime, this`vibrateYOffset
      ensures Valid()
      ensures Since(now, old(sleepMouthLastToggleTime)) > SleepMouthToggleInterval ==>
                && sleepMouthLastToggleTime == now
                && sleepMouth != old(sleepMouth)
                && vibrateYOffset == (if sleepMouth == Oval then -2 else 0)
      ensures Since(now, old(sleepMouthLastToggleTime)) <= SleepMouthToggleInterval ==> unchanged(this)
    {
      if Since(now, sleepMouthLastToggleTime) > SleepMouthToggleInterval {
        sleepMouthLastToggleTime := now;
        if sleepMouth == Unshaped {
          sleepMouth := Oval;
          vibrateYOffset := -2;
        } else {
          sleepMouth := Unshaped;
          vibrateYOffset := 0;
        }
      }
    }

    /** The SCARED branch of update(): as soon as a glance has settled, dart to another one. */
    method ScaredTick(now: uint32, glanceX: int, glanceY: int)
      requires Valid()
      requires -8 <= glanceX < 9 && -6 <= glanceY < 7
      modifies this`animStartTime, this`animDuration, startState, targetState
      ensures Valid()
      ensures unchanged(currentState)
      ensures old(animDuration) == 0 ==>
                var glance := EyeState(glanceX as real, glanceY as real, currentState[0].width, currentState[0].height);
                Started(glance, glance, ScaredGlanceDuration as uint16, now)
      ensures old(animDuration) != 0 ==> unchanged(this) && unchanged(startState) && unchanged(targetState)
    {
      if animDuration == 0 {
        var glance := EyeState(glanceX as real, glanceY as real, currentState[0].width, currentState[0].height);
        StartAnimation(glance, ScaredGlanceDuration as uint16, now);
      }
    }

    /** The frame step of drawEyes(): the shown animation moves on when its frame is due. */
    method AdvanceFrame(now: uint32)
      requires Wired() && Bounded()
      modifies this`cry, this`shy, this`driving, this`happy, this`battery
      ensures Bounded()
      ensures Counts() == NextFrame(old(Counts()), currentEmotion, now, Tables())
    {
      ghost var c := Counts();
      match currentEmotion {
        case Cry =>
          cry := Advance(cry, now, cryFrameCount);
          assert Counts() == c.(cry := cry);
        case Shy =>
          shy := Advance(shy, now, shyFrameCount);
          assert Counts() == c.(shy := shy);
        case Driving =>
          driving := Advance(driving, now, drivingFrameCount);
          assert Counts() == c.(driving := driving);
        case Happy =>
          happy := Advance(happy, now, happyFrameCount);
          assert Counts() == c.(happy := happy);
        case Battery =>
          battery := Advance(battery, now, batteryFrameCount);
          assert Counts() == c.(battery := battery);
        case _ =>
      }
    }

    /**
     * drawEyes() at `now`: nothing without a display; otherwise one framed
     * picture, a bitmap emotion's image at its (possibly advanced) frame, or
     * both procedural eyes and the face.
     */
    method DrawEyes(now: uint32) returns (cmds: seq<Cmd>)
      requires Wired() && Bounded()
      modifies this`cry, this`shy, this`driving, this`happy, this`battery
      ensures Bounded()
      ensures !hasDisplay ==> cmds == [] && unchanged(this)
      ensures hasDisplay ==> Counts() == NextFrame(old(Counts()), currentEmotion, now, Tables())
      ensures hasDisplay ==>
                cmds == Picture(currentEmotion, FrameOf(Counts(), currentEmotion), currentState[0], currentState[1],
                                vibrateXOffset, vibrateYOffset, sleepMouth)
      ensures hasDisplay ==> Framed(cmds)
      ensures FrameOf(Counts(), currentEmotion) < CountOf(Tables(), currentEmotion)
    {
      if !hasDisplay {
        return [];
      }
      var body;
      if DrawnAsBitmap(currentEmotion) {
        var image := DrawBitmap(now);
        body := [image];
      } else {
        body := DrawFace();
        NextFrameSteps(Counts(), currentEmotion, now, Tables());
      }
      assert body == Content(currentEmotion, FrameOf(Counts(), currentEmotion), currentState[0], currentState[1],
                             vibrateXOffset, vibrateYOffset, sleepMouth);
      cmds := [ClearBuffer] + body + [SendBuffer];
      PictureFramed(currentEmotion, FrameOf(Counts(), currentEmotion), currentState[0], currentState[1],
                    vibrateXOffset, vibrateYOffset, sleepMouth);
    }
  }
}
