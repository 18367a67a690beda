/** The enumerations, records and tunable constants of RideBuddyEyes.h. */
module EyeTypes {

  // --- Eye geometry ---
  const EyeWidth: int := 38
  const EyeHeight: int := 42
  const EyeCornerRadius: int := 12

  // --- Animation timings and parameters (milliseconds) ---
  const FrameInterval: nat := 50
  const BlinkDuration: nat := 150
  const AutoBlinkMinInterval: nat := 2500
  const AutoBlinkMaxInterval: nat := 7000
  const IdleActionMinInterval: nat := 3000
  const IdleActionMaxInterval: nat := 6000
  const IdleActionHoldDuration: nat := 1000
  const IdleActionTransitionDuration: nat := 400

  // --- Constants local to RideBuddyEyes.cpp ---
  const BitmapFrameDuration: nat := 33       // CRY, SHY, DRIVING, HAPPY, BATTERY
  const DistractedAnimDuration: nat := 300
  const DistractedSideHoldDuration: nat := 2000
  const DistractedNeutralHoldDuration: nat := 3000
  const SleepMouthToggleInterval: nat := 500
  const ScaredGlanceDuration: nat := 100

  /** The longest duration any call site hands to the animator. */
  const MaxAnimDuration: nat := 400

  /**
   * The constants fit together: every random(min, max) range is non-empty,
   * a blink outlasts a frame interval (so it is seen on more than one
   * processed tick), the default eye is at least twice the corner radius
   * each way, and every duration handed to the animator fits its uint16_t.
   */
  lemma ConstantsConsistent()
    ensures AutoBlinkMinInterval < AutoBlinkMaxInterval && IdleActionMinInterval < IdleActionMaxInterval
    ensures FrameInterval < BlinkDuration
    ensures 2 * EyeCornerRadius <= EyeWidth && 2 * EyeCornerRadius <= EyeHeight
    ensures IdleActionTransitionDuration <= MaxAnimDuration && DistractedAnimDuration <= MaxAnimDuration
    ensures ScaredGlanceDuration <= MaxAnimDuration && MaxAnimDuration < 0x1_0000
  {
  }

  /** The closed set of expressions, in declaration order. */
  datatype Emotion =
    | Neutral | Blink | Happy | Cry | Love | Shy | Angry
    | Driving | Scared | Distracted | Sleep | Battery

  /** The sub-states of the DISTRACTED sequence, in declaration order. */
  datatype DistractedPhase =
    | Init
    | LeftAnim
    | LeftHold
    | ReturnFromLeft
    | NeutralHold
    | RightAnim
    | RightHold
    | ReturnFromRight
    | NeutralWaitBeforeFirstAnim

  datatype SleepMouth = Unshaped | Oval

  /** One eye's geometry, relative to its fixed screen anchor; `float` idealised as `real`. */
  datatype EyeState = EyeState(xOffset: real, yOffset: real, width: real, height: real)

  /** The default, centred eye. */
  const CentredEye: EyeState := EyeState(0.0, 0.0, EyeWidth as real, EyeHeight as real)

  /** The band every eye's width and height stays in once the eyes have begun: [19, 63], from half the default width (38) to one and a half times the default height (42). */
  const MinSide: real := EyeWidth as real * 0.5
  const MaxSide: real := EyeHeight as real * 1.5

  /** An eye whose size lies within the band. */
  predicate Sane(s: EyeState)
  {
    MinSide <= s.width <= MaxSide && MinSide <= s.height <= MaxSide
  }

  datatype Option<T> = None | Some(value: T)

  // --- The C++ integer types of the fields ---
  const TwoTo32: int := 0x1_0000_0000
  /** `unsigned long` on the target: millis() timestamps, which wrap around. */
  newtype uint32 = x: int | 0 <= x < 0x1_0000_0000
  /** `uint16_t`: animation durations. */
  newtype uint16 = x: int | 0 <= x < 0x1_0000
  /** `int8_t`: the vibration offsets. */
  newtype int8 = x: int | -0x80 <= x < 0x80

  /**
   * The unsigned difference `now - start` of two timestamps: the time elapsed
   * since `start`, correct across one wrap-around of the clock.
   */
  function Since(now: uint32, start: uint32): (d: nat)
    ensures d < TwoTo32
    ensures start <= now ==> d == (now - start) as int
    ensures now < start ==> d == TwoTo32 + now as int - start as int
  {
    (now as int - start as int) % TwoTo32
  }

  /** The unsigned sum `t + delay`, wrapping around like the timestamps do. */
  function Later(t: uint32, delay: nat): (r: uint32)
    ensures t as int + delay < TwoTo32 ==> r as int == t as int + delay
  {
    ((t as int + delay) % TwoTo32) as uint32
  }

  /** Measured from a later timestamp, the time elapsed since `t` is exactly the delay, wrap-around or not. */
  lemma SinceLater(t: uint32, delay: nat)
    requires delay < TwoTo32
    ensures Since(Later(t, delay), t) == delay
  {
    var s := t as int + delay;
    if s < TwoTo32 {
    } else {
      assert s % TwoTo32 == s - TwoTo32 by {
        assert 0 <= s - TwoTo32 < TwoTo32;
      }
    }
  }

  /** A bitmap animation's frame index and the time its frame last advanced. */
  datatype Cursor = Cursor(frame: nat, lastFrameTime: uint32)

  /** The position of an emotion in the enum declaration (its C++ value). */
  function EmotionOrdinal(e: Emotion): (n: nat)
    ensures n < 12
  {
    match e
    case Neutral => 0 case Blink => 1 case Happy => 2 case Cry => 3
    case Love => 4 case Shy => 5 case Angry => 6 case Driving => 7
    case Scared => 8 case Distracted => 9 case Sleep => 10 case Battery => 11
  }

  /** Every emotion, listed once at its ordinal: there are exactly twelve. */
  function AllEmotions(): (r: seq<Emotion>)
    ensures |r| == 12
    ensures forall e: Emotion :: r[EmotionOrdinal(e)] == e
    ensures forall i, j :: 0 <= i < j < |r| ==> r[i] != r[j]
  {
    [Neutral, Blink, Happy, Cry, Love, Shy, Angry, Driving, Scared, Distracted, Sleep, Battery]
  }

  /** The position of a phase in the enum declaration (its C++ value). */
  function PhaseOrdinal(p: DistractedPhase): (n: nat)
    ensures n < 9
  {
    match p
    case Init => 0 case LeftAnim => 1 case LeftHold => 2 case ReturnFromLeft => 3
    case NeutralHold => 4 case RightAnim => 5 case RightHold => 6
    case ReturnFromRight => 7 case NeutralWaitBeforeFirstAnim => 8
  }

  /** Every distracted phase, listed once at its ordinal: there are exactly nine. */
  function AllPhases(): (r: seq<DistractedPhase>)
    ensures |r| == 9
    ensures forall p: DistractedPhase :: r[PhaseOrdinal(p)] == p
    ensures forall i, j :: 0 <= i < j < |r| ==> r[i] != r[j]
  {
    [Init, LeftAnim, LeftHold, ReturnFromLeft, NeutralHold,
     RightAnim, RightHold, ReturnFromRight, NeutralWaitBeforeFirstAnim]
  }

}
