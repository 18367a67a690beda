# RideBuddyEyes in Dafny

A model of the `RideBuddyEyes` class, the only logic of the robot-eyes
library: a polled, single-threaded state machine that drives two OLED
"eyes" through twelve emotions. Every call of `update()` is one tick. A tick
first passes a frame gate. It then moves the shared two-eye animator on,
runs the auto-blink, the idle glance and the vibration, and steps the
DISTRACTED phase sequence, the SLEEP mouth or the SCARED darting. Finally
it draws one frame: a full-screen bitmap or two procedurally drawn eyes and
a face. A bitmap's frame cursor advances at most once per drawn frame, and
only when more than 33 ms have passed since its last frame.

Modules, one file each:

- `EyeTypes` (`eye_types.dfy`) holds the enums, the `EyeState` record, the
  constants of `RideBuddyEyes.h` and the `.cpp`, and the C++ integer types of
  the fields. `unsigned long` timestamps are `uint32`. Elapsed time
  `now - start` is `Since`, which wraps like the unsigned subtraction.
  `now + delay` is `Later`, which wraps like the unsigned sum.
- `Easing` (`easing.dfy`) holds `easeInOut` and the per-field linear
  interpolation of `updateAnimation`, over `real`.
- `Phases` (`phases.dfy`) holds the DISTRACTED phase machine as a pure step
  function. It also proves the order the phases are visited in.
- `Cursors` (`cursors.dfy`) holds the frame cursors of the five bitmap
  animations.
- `Render` (`render.dfy`) holds the radius clamps of `drawOneEye` and the
  renderer's output as a list of abstract draw commands.
- `Eyes` (`ride_buddy_eyes.dfy`) holds the class `RideBuddyEyes`, with the
  source's fields:
  - The three `EyeState[2]` member arrays are Dafny arrays of length 2.
  - The methods update the fields in place: `setEmotion`, `blink`, both
    `startAnimation` overloads, `updateAnimation`, `update` and `drawEyes`.
    Their larger blocks are split into helper methods, one per block.
  - Each method is specified against value views of the fields: `Moods()`,
    `Counts()` and `Anim()`. The functions `Entering`, `Reset`, `TickEmotion`,
    `NextFrame`, `Picture` and `Step` say what those views become.

Every method keeps the object invariant `Valid()`, which says:

- the remembered emotion is never BLINK;
- every frame index is below its table's frame count;
- the DISTRACTED phase is never `NEUTRAL_WAIT_BEFORE_FIRST_ANIM`;
- both vibration offsets lie in [-2, 2];
- once `begin()` has run, every eye the animator holds stays within the size
  band: width and height both in [19, 63], that is, from half the default
  width (38) to one and a half times the default height (42).

`millis()` and `random(a, b)` are parameters:

- `now` is the reading of a call.
- `drawTime` is the separate reading `drawEyes()` takes.
- `Draws` holds the random results, each in its half-open range.

The frame counts of the bitmap tables are constructor parameters, each
greater than zero.

Points where the code's behaviour may be unexpected:

- After the neutral hold between sides, the DISTRACTED sequence always looks
  right again: `NEUTRAL_HOLD_BETWEEN_SIDES` always goes to `RIGHT_ANIM`.
  The sides do not alternate: in the code the left look happens once per
  DISTRACTED episode (`Phases.LeftSideOnlyOnce`).
- `setEmotion(BLINK)` does not set `_blinkStartTime`. Only `blink()` and the
  auto-blink do. A BLINK entered directly ends according to whatever blink
  start time is stored, and the model keeps that.
- BLINK starts a transition of duration 0. This marks the animator as
  settled without moving the eyes, which cancels any transition in flight.
- ANGRY falls into the switch's default case and starts a 150 ms transition
  to the centred eye. `update()` never advances that transition, because
  ANGRY is not among the emotions it animates.
- LOVE starts no transition at all.
- In SLEEP the vibration block's last branch (cpp:111-112) resets
  `_vibrateYOffset` to 0 on every processed tick, before the mouth toggle
  runs. The -2 bob that the toggle to the oval mouth sets (cpp:204)
  therefore shows for one frame, not for the 500 ms the mouth keeps its
  shape. The model runs `Ambient` before `SleepTick` and keeps this.
- The switch's HAPPY and SLEEP cases cannot be reached, because of the early
  returns above them. `EntryTransition` returns `None` for both.

The timestamps keep the source's 32-bit wrap-around. The elapsed-time tests
(`currentTime - x > d`) are wrap-safe, and the model computes them with
`Since`. The auto-blink and idle-glance tests compare absolute timestamps
(`currentTime >= x`), and the model keeps that too. Two behaviours follow
from those comparisons:

- An idle glance started within 1400 ms of the top of the clock gets an end
  time that has already wrapped, so it ends on the same tick. `IdleStep`
  states both blocks in sequence for this reason.
- A next-blink time that wraps is at once "due". Until the clock itself
  wraps, a blink can start on the first tick after the previous one ends.
  For NEUTRAL the idle glance can delay this. Ending the blink re-enters
  NEUTRAL and clears the glance flag (cpp:88-89, cpp:228). A glance that is
  due then starts on the same tick (cpp:93-97), and the auto-blink waits
  while it is on (cpp:83). So blinks and glances take turns, and each blink
  waits until the glance before it has ended (cpp:99).

## Model

| member | source | states |
|---|---|---|
| EyeTypes.ConstantsConsistent | RideBuddyEyes/RideBuddyEyes.h:23-35 | Both random interval ranges are non-empty. FRAME_INTERVAL is shorter than BLINK_DURATION, so a blink spans more than one processed tick. The default eye is at least twice EYE_CORNER_RADIUS each way. Every duration handed to the animator is at most 400 and fits uint16_t. |
| EyeTypes.AllEmotions | RideBuddyEyes/RideBuddyEyes.h:38-51 | Emotion has exactly twelve distinct values, each at its C++ ordinal. |
| EyeTypes.AllPhases | RideBuddyEyes/RideBuddyEyes.h:54-64 | DistractedPhase has exactly nine distinct values, each at its C++ ordinal. |
| EyeTypes.Since | RideBuddyEyes/RideBuddyEyes.cpp:72 | The unsigned difference of two timestamps. It is the plain difference when no wrap happened, and the difference plus 2^32 across a wrap. |
| EyeTypes.Later | RideBuddyEyes/RideBuddyEyes.cpp:65-66 | The unsigned sum of a timestamp and a delay. It is the plain sum when that sum fits in 32 bits. |
| EyeTypes.SinceLater | RideBuddyEyes/RideBuddyEyes.cpp:86-88 | Time elapsed since t, measured at t + delay, is exactly the delay, with or without a wrap. |
| Easing.Ease | RideBuddyEyes/RideBuddyEyes.cpp:350 | easeInOut maps 0, 1/2 and 1 to themselves. It maps [0, 1] into [0, 1], and (0, 1) strictly inside it. |
| Easing.EaseMonotone | RideBuddyEyes/RideBuddyEyes.cpp:350 | easeInOut is non-decreasing on [0, 1]. |
| Easing.EaseSymmetric | RideBuddyEyes/RideBuddyEyes.cpp:350 | easeInOut is point-symmetric about (1/2, 1/2): ease(1 - t) = 1 - ease(t). |
| Easing.Lerp | RideBuddyEyes/RideBuddyEyes.cpp:343 | `a + (b - a) * p` gives the start at p = 0 and the target at p = 1. For p in [0, 1] it lies between them, strictly when 0 < p < 1 and a != b. |
| Easing.Interpolate | RideBuddyEyes/RideBuddyEyes.cpp:342-347 | The four interpolated fields of an eye are the start at 0 and the target at 1. Between two eyes within the size band, the result is within the band. |
| Easing.Progress | RideBuddyEyes/RideBuddyEyes.cpp:339-340 | The progress of updateAnimation lies in [0, 1]. It is 1 exactly when the elapsed time reaches the duration, 0 when no time has elapsed, and positive once any time has elapsed. |
| Easing.ProgressMonotone | RideBuddyEyes/RideBuddyEyes.cpp:339-340 | Progress never goes back as the elapsed time grows. |
| Easing.LerpMonotone | RideBuddyEyes/RideBuddyEyes.cpp:343 | As p grows, the interpolated value moves toward the target: up when the target is above the start, down when it is below. |
| Easing.InFlight | RideBuddyEyes/RideBuddyEyes.cpp:337-348 | While a transition is in flight (0 < elapsed < duration), each eased field lies strictly between its start and its target when they differ. Later ticks never move a field away from its target. |
| Phases.Step | RideBuddyEyes/RideBuddyEyes.cpp:119-195 | One tick moves the phase at most one step, to its successor in the order the code hands over in. It moves exactly when the phase's wait is over: INIT at once, the ANIM and RETURN phases once settled, the HOLD phases after 2000 or 3000 ms. It never enters NEUTRAL_WAIT_BEFORE_FIRST_ANIM. It starts an animation exactly when it hands over to an ANIM or RETURN phase, and every target lies within the size band. LEFT_ANIM requests the look-left pair, RIGHT_ANIM the look-right pair, and both RETURN phases the centred eye for both eyes. |
| Phases.StepLooks | RideBuddyEyes/RideBuddyEyes.cpp:119-167 | The hand-over to LEFT_ANIM turns both eyes left: both shift left, the left eye grows past the default size and the right eye shrinks below it. The hand-over to RIGHT_ANIM turns both eyes right, as the mirror image of the left look with the eyes swapped. The returns centre both eyes. |
| Phases.HandOverOrder | RideBuddyEyes/RideBuddyEyes.cpp:119-195 | From INIT the hand-overs visit LEFT_ANIM, LEFT_HOLD, RETURN_FROM_LEFT, NEUTRAL_HOLD, RIGHT_ANIM, RIGHT_HOLD, RETURN_FROM_RIGHT, then NEUTRAL_HOLD again. |
| Phases.RightLoopCycles | RideBuddyEyes/RideBuddyEyes.cpp:162-194 | The four phases from NEUTRAL_HOLD to RETURN_FROM_RIGHT form a closed cycle of period four. |
| Phases.LeftSideOnlyOnce | RideBuddyEyes/RideBuddyEyes.cpp:119-171 | After its first four hand-overs the sequence is on the right-hand cycle for good. The left look happens once. |
| Phases.RunFollowsOrder | RideBuddyEyes/RideBuddyEyes.cpp:119-195 | Over any sequence of ticks, the phase reached is the hand-over order advanced by the number of ticks that handed over, and that number is at most the number of ticks. |
| Phases.NeverWaits | RideBuddyEyes/RideBuddyEyes.cpp:129-138 | No run of ticks that starts elsewhere ever reaches NEUTRAL_WAIT_BEFORE_FIRST_ANIM, so its case is dead code. |
| Cursors.Advance | RideBuddyEyes/RideBuddyEyes.cpp:395-398 | A frame cursor moves on by one frame modulo the count, and restarts its frame timer, exactly when more than 33 ms have passed since its last frame. Otherwise it is unchanged. An index in range stays in range. |
| Cursors.PlayStepsThrough | RideBuddyEyes/RideBuddyEyes.cpp:395-398 | Drawn at a steady pace (each frame more than 33 ms after the one before), a cursor n frames later is at its start frame plus n, modulo the count. |
| Cursors.FullCycle | RideBuddyEyes/RideBuddyEyes.cpp:397 | Drawn at a steady pace, a cursor is back at its frame after exactly frame-count frames. |
| Render.Trunc | RideBuddyEyes/RideBuddyEyes.cpp:576-577 | The float-to-int cast truncates toward zero. The result is the integer within one of x, on x's side of zero. |
| Render.CornerRadius | RideBuddyEyes/RideBuddyEyes.cpp:574-578 | The rounded-box radius lies in [0, 12] and is at most half the height and half the width. It is as large as that allows: either 12, or one more would exceed half a side. |
| Render.DefaultEyeFullRadius | RideBuddyEyes/RideBuddyEyes.h:23-25 | The default 38 x 42 eye is drawn with the full corner radius, 12. |
| Render.SleepRadius | RideBuddyEyes/RideBuddyEyes.cpp:543-544 | The sleeping eye's outer radius is at least 2, and is the truncated half width whenever the width is at least 4. |
| Render.ScaredInner | RideBuddyEyes/RideBuddyEyes.cpp:559-561 | The scared eye's inner radius is at least 1, and is the outer radius minus 2 whenever the outer radius is at least 3. |
| Render.EyeCommands | RideBuddyEyes/RideBuddyEyes.cpp:516-583 | drawOneEye draws only shapes of its own eye. It draws nothing for exactly ANGRY, SHY and DRIVING. BLINK draws a line. SLEEP draws a white disc of the sleep radius, a black disc 3 smaller and the cut of the U shape. SCARED draws a white disc of the outer radius, a black disc of the inner radius and a white pupil of half that. Every other emotion draws the rounded box with the clamped corner radius. Lines, cuts and boxes appear only for those emotions. The box radius is in [0, 12] and at most half of each side, and for an eye within the size band no disc has a negative radius. |
| Render.Decorations | RideBuddyEyes/RideBuddyEyes.cpp:438-511 | The face after the eyes is made of mouths, bubbles and brows only. It is empty exactly for emotions other than NEUTRAL, SCARED and SLEEP. NEUTRAL has the 20 x 8 mouth. SCARED has both brows and its mouth. SLEEP has the bubbles, and the 20 x 8 mouth exactly when unshaped and the 28 x 6 mouth exactly when oval. |
| Eyes.EntryTransition | RideBuddyEyes/RideBuddyEyes.cpp:230-301 | setEmotion starts no transition exactly for the early-return emotions and LOVE. BLINK freezes the eyes with duration 0. NEUTRAL and ANGRY head for the centred eye over 150 ms. SCARED shrinks the eyes. Every duration is at most 400, and every target from a sane eye is sane. |
| Eyes.Entering | RideBuddyEyes/RideBuddyEyes.cpp:224-228 | The new emotion is current and any idle glance is dropped. The remembered emotion is the old current or the old remembered one, and never becomes BLINK. |
| Eyes.BlinkRoundTrip | RideBuddyEyes/RideBuddyEyes.cpp:225 | Blinking away from a non-BLINK emotion remembers it. Going back to the remembered emotion restores it. |
| Eyes.TickEmotion | RideBuddyEyes/RideBuddyEyes.cpp:82-90 | CRY, SHY, DRIVING, HAPPY, BATTERY and DISTRACTED keep their emotion (ANGRY and LOVE are drawn as bitmaps but still auto-blink). BLINK is current after the blink block exactly when a blink is still within 150 ms (or has BLINK remembered), or when a non-blinking emotion with no idle glance reaches its next-blink time. A blink older than 150 ms returns to the remembered emotion. |
| Eyes.BitmapCommand | RideBuddyEyes/RideBuddyEyes.cpp:393-428 | The five animations draw their current frame unshifted, each from its own table: CRY, SHY, DRIVING, HAPPY and BATTERY frames. ANGRY draws the angry image and LOVE the love image, shifted by the vibration offsets. |
| Eyes.BitmapIdentifies | RideBuddyEyes/RideBuddyEyes.cpp:393-428 | Two different bitmap emotions never draw the same command, so the image drawn names the emotion. |
| Eyes.FixedTargetsSane | RideBuddyEyes/RideBuddyEyes.cpp:284-294 | Every fixed target (centred, scared, sleeping, and the four DISTRACTED looks) lies within the size band. |
| Eyes.ResetRestarts | RideBuddyEyes/RideBuddyEyes.cpp:230-265 | setEmotion(e) restarts e's own counters at now: frame 0 for an animation, the unshaped mouth for SLEEP, INIT for DISTRACTED. Every other emotion's counters are kept. |
| Eyes.NextFrameSteps | RideBuddyEyes/RideBuddyEyes.cpp:393-425 | The frame step of drawEyes advances only the shown animation's cursor, by Advance, and keeps it within its table. Every other counter is left alone. |
| Eyes.PictureFramed | RideBuddyEyes/RideBuddyEyes.cpp:384-513 | Every drawn frame clears the buffer once at its start and sends it once at its end, with neither in between. A bitmap emotion's frame shows its own image. |
| Eyes.SleepMouthDrawn | RideBuddyEyes/RideBuddyEyes.cpp:486-503 | A SLEEP frame draws the bubbles, the 20 x 8 mouth exactly when the mouth is unshaped, and the 28 x 6 mouth exactly when it is oval. |
| Eyes.PictureDiscs | RideBuddyEyes/RideBuddyEyes.cpp:541-571 | With both eyes within the size band, no disc drawn in a frame has a negative radius. |
| Eyes.RideBuddyEyes.constructor | RideBuddyEyes/RideBuddyEyes.cpp:26-48 | NEUTRAL with NEUTRAL remembered. No display, no animation, no vibration, no idle glance. All frames at 0, DISTRACTED at INIT, the mouth unshaped. The invariant holds. |
| Eyes.RideBuddyEyes.Begin | RideBuddyEyes/RideBuddyEyes.cpp:50-68 | begin attaches the display (or none) and centres all three eye arrays. It schedules the first blink and glance at now plus the drawn gaps, and clears the glance end time. |
| Eyes.RideBuddyEyes.Schedule | RideBuddyEyes/RideBuddyEyes.cpp:63-67 | The frame clock starts at now. The next blink and glance are due the drawn gaps later, with 32-bit wrap. |
| Eyes.RideBuddyEyes.CentreEyes | RideBuddyEyes/RideBuddyEyes.cpp:55-61 | After the loop, both eyes of the current, start and target arrays are the centred eye. |
| Eyes.RideBuddyEyes.StartAnimation | RideBuddyEyes/RideBuddyEyes.cpp:319-326 | Start time, duration, both starts (the current eyes) and both targets are overwritten. The current geometry is untouched. |
| Eyes.RideBuddyEyes.StartAnimationPair | RideBuddyEyes/RideBuddyEyes.cpp:328-335 | As StartAnimation, with a separate target per eye. |
| Eyes.RideBuddyEyes.UpdateAnimation | RideBuddyEyes/RideBuddyEyes.cpp:337-348 | A settled animator (duration 0) changes nothing. Otherwise each eye is at the eased progress between its start and target. The duration drops to 0 exactly when the elapsed time reaches it, and then both eyes are exactly at their targets. |
| Eyes.RideBuddyEyes.SetEmotion | RideBuddyEyes/RideBuddyEyes.cpp:223-302 | setEmotion is a no-op when the emotion is already current (BLINK excepted). Otherwise the emotion fields become Entering, the counters Reset, and the animator starts EntryTransition's transition (or is kept). The current geometry is untouched, and the invariant is kept. |
| Eyes.RideBuddyEyes.StartTransition | RideBuddyEyes/RideBuddyEyes.cpp:267-301 | The switch starts exactly EntryTransition's transition, from the current eyes. It changes nothing else. |
| Eyes.RideBuddyEyes.Switch | RideBuddyEyes/RideBuddyEyes.cpp:224-228 | The emotion fields become Entering. The counters and animator are kept. The remembered emotion stays non-BLINK. |
| Eyes.RideBuddyEyes.ResetCounters | RideBuddyEyes/RideBuddyEyes.cpp:230-265 | The counters become Reset, with the emotion fields and the animator untouched. This covers the early returns starting no animation. |
| Eyes.RideBuddyEyes.RestartFrames | RideBuddyEyes/RideBuddyEyes.cpp:230-254 | The five bitmap cases of the resets. |
| Eyes.RideBuddyEyes.TriggerBlink | RideBuddyEyes/RideBuddyEyes.cpp:316 | blink() does nothing while BLINK is shown. Otherwise it stamps the blink start and enters BLINK, remembering the emotion left. |
| Eyes.RideBuddyEyes.AutoBlink | RideBuddyEyes/RideBuddyEyes.cpp:83-87 | Exactly when not blinking, no glance is on and now >= next-blink time: the blink starts now, BLINK is entered, and the next blink is due at now + 150 + gap (wrapping). Otherwise nothing changes. |
| Eyes.RideBuddyEyes.EndBlink | RideBuddyEyes/RideBuddyEyes.cpp:88-90 | Exactly when BLINK has lasted more than 150 ms, the remembered emotion is entered again and stays remembered. Otherwise nothing changes. The blink start and next-blink times are never touched. |
| Eyes.RideBuddyEyes.IdleGlance | RideBuddyEyes/RideBuddyEyes.cpp:93-104 | The two glance blocks, in sequence (IdleStep). A due glance starts a 400 ms move to the drawn offsets and ends 1400 ms later. A glance past its end starts a 400 ms move back to the centre and schedules the next glance a drawn gap later. Otherwise the animator is kept. |
| Eyes.RideBuddyEyes.Ambient | RideBuddyEyes/RideBuddyEyes.cpp:91-113 | NEUTRAL takes its idle step with no vibration. ANGRY and LOVE take the drawn offsets. Every other emotion has zero offsets and keeps the glance fields and the animator. |
| Eyes.RideBuddyEyes.BlinkTimers | RideBuddyEyes/RideBuddyEyes.cpp:83-90 | The emotion becomes TickEmotion's. When the auto-blink is due, the blink starts now, the next blink is due at now + 150 + gap, and BLINK is entered. When a BLINK has lasted more than 150 ms, the timers are kept and the remembered emotion is entered again. In every other case nothing changes. |
| Eyes.RideBuddyEyes.BlinkBlock | RideBuddyEyes/RideBuddyEyes.cpp:82-114 | The emotion becomes TickEmotion's, with the vibration of the resulting emotion. An unchanged emotion keeps its counters. |
| Eyes.RideBuddyEyes.PhaseTick | RideBuddyEyes/RideBuddyEyes.cpp:116-218 | DISTRACTED takes one Step: the phase and its timer follow Step, a requested animation starts over 300 ms, and otherwise the animator is kept. SLEEP toggles the mouth exactly when more than 500 ms have passed, and then stamps the toggle time and sets the bob. SCARED starts a 100 ms dart when settled and keeps the animator otherwise. Each branch leaves the other branches' fields alone, and any other emotion changes nothing here. |
| Eyes.RideBuddyEyes.DistractedTick | RideBuddyEyes/RideBuddyEyes.cpp:117-195 | The phase becomes Step's. A hand-over restarts the phase timer, and a requested animation is started over 300 ms with Step's per-eye targets. Otherwise the animator is kept. |
| Eyes.RideBuddyEyes.SleepTick | RideBuddyEyes/RideBuddyEyes.cpp:196-209 | Exactly when more than 500 ms have passed since the last toggle, the mouth changes shape, the toggle time is now, and the face bobs to -2 for the oval mouth and 0 for the unshaped one. Otherwise nothing changes. |
| Eyes.RideBuddyEyes.ScaredTick | RideBuddyEyes/RideBuddyEyes.cpp:210-218 | A settled animator starts a 100 ms dart to the drawn offsets, keeping the current size. An animator in flight is left alone. |
| Eyes.RideBuddyEyes.Tick | RideBuddyEyes/RideBuddyEyes.cpp:75-218 | A processed tick leaves the emotion TickEmotion gives, and leaves non-animated geometry alone. DISTRACTED takes one Step, with settled meaning the animator settled this tick. SLEEP toggles exactly after 500 ms. SCARED darts once settled. |
| Eyes.RideBuddyEyes.Update | RideBuddyEyes/RideBuddyEyes.cpp:70-221 | Within 50 ms of the last processed frame, update changes nothing and draws nothing. Otherwise the frame time becomes now, the emotion is TickEmotion's, and DISTRACTED takes one Step. Without a display nothing is drawn; with one, exactly one framed Picture of the resulting state is drawn. |
| Eyes.RideBuddyEyes.AdvanceFrame | RideBuddyEyes/RideBuddyEyes.cpp:393-425 | The counters become NextFrame's, with every frame index kept in range. |
| Eyes.RideBuddyEyes.DrawBitmap | RideBuddyEyes/RideBuddyEyes.cpp:393-428 | After the frame step, the image is the shown emotion's BitmapCommand at its new frame. |
| Eyes.RideBuddyEyes.DrawFace | RideBuddyEyes/RideBuddyEyes.cpp:433-511 | The loop draws the left eye, then the right eye, then the face. |
| Eyes.RideBuddyEyes.DrawEyes | RideBuddyEyes/RideBuddyEyes.cpp:384-513 | Without a display, drawEyes does nothing. Otherwise it steps the shown cursor (NextFrame) and emits a framed Picture, and the frame index drawn is within its table. |

## Left out

- Hardware set-up is not modelled: `Wire.begin`, `pinMode`, `TOUCH_PIN` and the unused MPU6050 member. They are I/O.
- Eye-centre coordinates (`_eyeCenterX`, `_eyeCenterY`) and all pixel coordinates are not modelled. A draw command names the eye it belongs to and its radius or size, but not where it lands on screen.
- The U8g2 calls are abstract commands, and colours are kept only where a disc's colour distinguishes ring from hole.
- The scared brows' and mouth's `round`/`constrain` arithmetic is not modelled, and neither are the coordinates of `drawMouth` and the sleep bubbles. They are pixel placement with no stated behaviour.
- `drawSleepZzz` (never called) and `drawHeart` (declared, never defined) are not modelled.
- The bitmap tables and `pgm_read_dword` are not modelled. The data headers are not part of this model. A frame is named by its animation and index, and the frame counts are positive constructor parameters.
- Floating point is idealised as `real`. There is no IEEE-754 rounding in `easeInOut`'s `pow` or in the interpolation, so an eye lands exactly on its target.
- The float-to-int conversions are modelled only in the radius clamps of `drawOneEye`, as truncation toward zero.
- `millis()` is a parameter. Every reading inside one `update()` before drawing, including those inside `setEmotion` and `startAnimation`, is the same `now`. `drawEyes()`'s own reading is `drawTime`.
- `random(a, b)` results are parameters, each in [a, b).
- Fields the C++ constructor leaves uninitialised start at 0 in the model: `_blinkStartTime`, `_lastFrameTime`, `_nextBlinkTime`, `_nextIdleActionTime`, `_idleActionEndTime`, `_cry_anim_lastFrameTime`, `_animStartTime` and the eye arrays. That is what a zero-initialised global instance holds.
- The public one-line wrappers (`neutral()`, `happy()`, …) are `SetEmotion` with a fixed argument and have no members of their own.
- Eyes.RideBuddyEyes.Update: states the frame gate, the frame time, the resulting emotion, the DISTRACTED phase and the frame drawn. The other fields are pinned down by the helper methods' contracts, not repeated in its own.
- Eyes.RideBuddyEyes.Tick: states the emotion, the DISTRACTED step, the SLEEP toggle and the SCARED dart. The blink timers, glance fields and vibration are stated by BlinkBlock, Ambient and the phase methods it calls.
- Eyes.RideBuddyEyes.BlinkBlock: does not restate the blink-timer and glance fields. AutoBlink, EndBlink and IdleGlance state them.
