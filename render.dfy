/**
 * The frame renderer's output as abstract draw commands, and the radius
 * clamps of drawOneEye. Screen coordinates are not modelled: a command names
 * the eye (0 left, 1 right) whose current geometry it is drawn at.
 */
module Render {
  import opened EyeTypes

  datatype Animation = CryFrames | ShyFrames | DrivingFrames | HappyFrames | BatteryFrames
  datatype Still = AngryBits | LoveBits
  datatype Colour = Black | White

  datatype Cmd =
    | ClearBuffer
    | FullFrame(animation: Animation, frame: nat)     // one frame of a full-screen animation
    | StillFrame(image: Still, dx: int, dy: int)      // a full-screen bitmap shifted by the vibration
    | EyeBox(eye: nat, radius: int)                   // a filled rounded box over the eye
    | EyeLine(eye: nat)                               // a horizontal line across the eye
    | EyeDisc(eye: nat, radius: int, colour: Colour)  // a disc at the eye's centre
    | EyeCut(eye: nat, radius: int)                   // a black box over the upper half of a ring
    | Mouth(width: int, height: int)                  // a lower half-ellipse
    | Bubbles                                         // the two sleep bubbles
    | Brow(eye: nat)                                  // a slanted eyebrow line above the eye
    | ScaredMouth(radius: int)                        // a small round mouth
    | SendBuffer

  /** C++'s conversion of a float to an int: truncation toward zero. */
  function Trunc(x: real): (n: int)
    ensures 0.0 <= x ==> 0 <= n && n as real <= x < n as real + 1.0
    ensures x < 0.0 ==> n <= 0 && n as real - 1.0 < x <= n as real
  {
    if x >= 0.0 then x.Floor else -((-x).Floor)
  }

  function MinInt(a: int, b: int): int { if a <= b then a else b }

  /**
   * The corner radius of the rounded-box eye: EYE_CORNER_RADIUS, cut down to
   * half the height and half the width, and never below zero.
   */
  function CornerRadius(w: real, h: real): (r: int)
    ensures 0 <= r <= EyeCornerRadius
    ensures 0.0 <= h ==> r as real <= h / 2.0
    ensures 0.0 <= w ==> r as real <= w / 2.0
    ensures 0.0 <= w && 0.0 <= h ==>
              r == EyeCornerRadius || (r + 1) as real > h / 2.0 || (r + 1) as real > w / 2.0
  {
    var byHeight := MinInt(EyeCornerRadius, Trunc(h / 2.0));
    var byWidth := MinInt(byHeight, Trunc(w / 2.0));
    if byWidth < 0 then 0 else byWidth
  }

  /** The default eye is drawn with the full corner radius. */
  lemma DefaultEyeFullRadius()
    ensures CornerRadius(EyeWidth as real, EyeHeight as real) == EyeCornerRadius
  {
    assert Trunc(EyeHeight as real / 2.0) == 21;
    assert Trunc(EyeWidth as real / 2.0) == 19;
  }

  /** The outer radius of the sleeping "U": half the width, at least 2. */
  function SleepRadius(w: real): (r: int)
    ensures r >= 2
    ensures w >= 4.0 ==> r as real <= w / 2.0 < r as real + 1.0
  {
    var radius := Trunc(w / 2.0);
    if radius < 2 then 2 else radius
  }

  /** The thickness of the sleeping "U". */
  const SleepThickness: int := 3

  /** The scared eye's outer radius: half the width. */
  function ScaredOuter(w: real): int { Trunc(w / 2.0) }

  /** The scared eye's black inner radius: two less than the outer one, at least 1. */
  function ScaredInner(w: real): (r: int)
    ensures r >= 1
    ensures ScaredOuter(w) >= 3 ==> r == ScaredOuter(w) - 2
  {
    var inner := ScaredOuter(w) - 2;
    if inner < 1 then 1 else inner
  }

  /** The commands of drawOneEye for eye `i` with geometry `s` under emotion `e`. */
  function EyeCommands(i: nat, e: Emotion, s: EyeState): (r: seq<Cmd>)
    ensures forall c :: c in r ==> (c.EyeBox? || c.EyeLine? || c.EyeDisc? || c.EyeCut?) && c.eye == i
    ensures forall c :: c in r && c.EyeBox? ==>
              0 <= c.radius <= EyeCornerRadius && (Sane(s) ==> c.radius as real <= s.width / 2.0 && c.radius as real <= s.height / 2.0)
    ensures Sane(s) ==> forall c :: c in r && c.EyeDisc? ==> c.radius >= 0
    ensures e in {Angry, Shy, Driving} <==> r == []
    ensures forall c :: c in r && c.EyeLine? ==> e == Blink
    ensures forall c :: c in r && c.EyeBox? ==> e !in {Blink, Sleep, Scared}
    ensures forall c :: c in r && c.EyeCut? ==> e == Sleep
    ensures e == Blink ==> EyeLine(i) in r
    ensures e == Sleep ==>
              && EyeDisc(i, SleepRadius(s.width), White) in r
              && EyeDisc(i, SleepRadius(s.width) - SleepThickness, Black) in r
              && EyeCut(i, SleepRadius(s.width)) in r
    ensures e == Scared ==>
              && EyeDisc(i, ScaredOuter(s.width), White) in r
              && EyeDisc(i, ScaredInner(s.width), Black) in r
              && EyeDisc(i, ScaredInner(s.width) / 2, White) in r
    ensures e !in {Angry, Shy, Driving, Blink, Sleep, Scared} ==> EyeBox(i, CornerRadius(s.width, s.height)) in r
  {
    match e
    case Angry | Shy | Driving => []
    case Blink => [EyeLine(i)]
    case Sleep =>
      var radius := SleepRadius(s.width);
      [EyeDisc(i, radius, White), EyeDisc(i, radius - SleepThickness, Black), EyeCut(i, radius)]
    case Scared =>
      var inner := ScaredInner(s.width);
      [EyeDisc(i, ScaredOuter(s.width), White), EyeDisc(i, inner, Black), EyeDisc(i, inner / 2, White)]
    case _ =>
      [EyeBox(i, CornerRadius(s.width, s.height))]
  }

  /** The face drawn after the eyes of a procedural emotion. */
  function Decorations(e: Emotion, mouth: SleepMouth): (r: seq<Cmd>)
    ensures forall c :: c in r ==> c.Mouth? || c.Bubbles? || c.Brow? || c.ScaredMouth?
    ensures e !in {Neutral, Scared, Sleep} <==> r == []
    ensures e == Neutral ==> Mouth(20, 8) in r
    ensures e == Scared ==> Brow(0) in r && Brow(1) in r && ScaredMouth(5) in r
    ensures e == Sleep ==> Bubbles in r
    ensures e == Sleep ==> (Mouth(20, 8) in r <==> mouth == Unshaped) && (Mouth(28, 6) in r <==> mouth == Oval)
  {
    match e
    case Neutral => [Mouth(20, 8)]
    case Scared => [Brow(0), Brow(1), ScaredMouth(5)]
    case Sleep =>
      (if mouth == Unshaped then [Mouth(20, 8)] else [Mouth(28, 6)]) + [Bubbles]
    case _ => []
  }
}
