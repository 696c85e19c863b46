# Hand viewer: input state machine and pose producers

The hand viewer (`src/main.cpp`) renders a skinned hand and animates its fingers.
It does this by writing local bone transforms into a pose-override table, the
`SkeletalMesh::SkeletonModifier`. Two pieces of logic sit around the OpenGL and GLFW
plumbing, and this project models both and proves what they do.

1. **The input and mode state machine.** Its state is the process-wide statics:
   - the display mode;
   - the keyboard/mouse-control flag;
   - five finger-bent flags;
   - the camera view and the mouse-look record;
   - the camera speed;
   - six movement-key flags.

   Four functions drive it: the GLFW key, cursor and scroll callbacks, and the
   per-frame camera step. The main loop then chooses that frame's pose producer.
2. **The pose producers.** They write the table: the finger clear, the
   triangular-wave finger motion, three scripted demonstrations (a grab, the "OK"
   sign, a swinging hand) and the live toggle-bend control.

Files:

- `geometry.dfy` (module `Geometry`): reals standing in for floats, `Vec3`, the
  symbolic orientation, and C's `fmod` over the reals.
- `pose.dfy` (module `HandPose`): the table, the bone names, and each producer as a
  function from the old table to the new one, with the lemmas about them.
- `producers.dfy` (module `PoseProducers`): class `SkeletonModifier` and the
  producers as methods that write it one entry at a time. Each method is proved to
  leave the table its `HandPose` function describes.
- `viewer.dfy` (module `ViewerState`):
  - `Controls`, the whole state as a value, and the step functions that say what
    each event does to it, with their lemmas;
  - class `Viewer`, whose fields are the statics. Its methods are the callbacks,
    `update_camera_position` and one pass of the main loop, each proved to leave
    the state its step function gives.

How the model represents the source:

- **Transforms.** `glm::rotate(identity, angle, axis)` is `Rot(axis, angle)` and
  the identity matrix is `Id`. Quaternions are kept as the symbolic glm expression
  that built them (`AngleAxis`, `Product`, `Slerp`).
- **Bone names.** A table is keyed by `Bone` values, not strings.
  - `Phalange(finger, joint)` is the key `finger_move` builds: `finger + suffix`.
  - `Tip(finger)` is the `"<finger>_fingertip"` bone that `finger_move_clear` resets.
  - `Named(s)` is any other name, such as `"metacarpals"`.
  - `Spelling` gives a bone's string. Canonical bones and strings correspond one to
    one (`SpellingInjective`, `ParseSpelling`), and every producer keeps the table's
    keys canonical.

Behaviour of the code that the model keeps as written:

- `finger_move` stores a fingertip bend under `"<finger>_fingertip_phalange"`, but
  the hand's bones, and the keys `finger_move_clear` resets, are
  `"<finger>_fingertip"`. Completion 2's thumb-tip bend therefore goes to a key no
  bone reads and that the clear never removes. It stays in the table when the mode
  changes (`FingertipSpellings`, `Completion2ThumbTip`, `StaleThumbTip`).
- The table persists across frames. A producer overwrites only what it writes.
  Completion 3's swing of `metacarpals` survives the clear that follows it, and the
  live control leaves fingertips and `metacarpals` alone.
- Scrolling changes `camera_speed`. There is no field-of-view zoom, no camera
  transition playback and no time-scaled smoothing:
  - the slerp factor is the fixed 0.15;
  - one frame moves the camera by one speed-sized step per held key, whatever the
    frame time.
- The main loop turns `metacarpals` by `passed_time * pi / 4` about x, a full turn
  every 8 seconds; the comment beside it says 4. The comment in `completion_3`
  names the x axis, but the code swings about y. The model follows the code.
- Key flags are tracked only while control is on. A movement key released while
  control is off stays held, and moves the camera once control is back (`StuckKey`).

## Model

| member | source | states |
|---|---|---|
| Geometry.FMod | src/main.cpp:539 | C's `fmod` for a positive divisor: the remainder has the sign of the dividend, is smaller than the divisor in size, and differs from the dividend by a whole number of divisors (truncated toward zero) |
| Geometry.FModBelow | src/main.cpp:539 | below one period `fmod` is the identity |
| Geometry.FModPeriodic | src/main.cpp:539 | adding one period to a nonnegative time leaves its remainder unchanged |
| HandPose.FingertipSpellings | src/main.cpp:527-533 | the fingertip key `finger_move` writes is `"<finger>_fingertip_phalange"`, the fingertip `finger_move_clear` resets is `"<finger>_fingertip"`, and the two are different names |
| HandPose.SpellingInjective | src/main.cpp:505-530 | two canonical bones with the same string are the same bone: finger names differ in their first letter and the five suffixes differ in length |
| HandPose.ParseSpelling | src/main.cpp:505-530 | every canonical bone is recovered from its string, so a table keyed by canonical bones is a table keyed by names |
| HandPose.MetacarpalsCanonical | src/main.cpp:337 | `"metacarpals"` is the spelling of no finger bone |
| HandPose.ClearedBonesMembership | src/main.cpp:471-496 | the bones the clear resets are the proximal, intermediate and distal phalanges and the `_fingertip` bone of each finger; no `_fingertip_phalange` key and no named bone is among them |
| HandPose.ClearedFinger | src/main.cpp:472-475 | the four identity writes for one finger, in source order: its proximal, intermediate and distal phalanges and its `_fingertip` bone |
| HandPose.ClearedUpTo | src/main.cpp:471-496 | the table after the clear's writes for the first i fingers, thumb to pinky |
| HandPose.ClearedBonesListed | src/main.cpp:471-496 | finger by finger, the four cleared bones are spelled exactly as the twenty writes name them |
| HandPose.Cleared | src/main.cpp:471-496 | after the clear every cleared bone is the identity and every other bone keeps its entry or stays absent |
| HandPose.ClearStages | src/main.cpp:471-496 | after the writes for the first i fingers, exactly those fingers' four bones are the identity and every other bone is as before |
| HandPose.ClearedInOrder | src/main.cpp:471-496 | the twenty writes in source order give the table `Cleared` describes |
| HandPose.Wave | src/main.cpp:503-504 | the triangular wave `abs(t / (period * 0.5) - 1)` shared by every joint angle |
| HandPose.JointAngle | src/main.cpp:503-504 | the wave scaled by pi / frac, the angle `finger_move` and the completion 3 swing use |
| HandPose.WaveBounded | src/main.cpp:503-504 | the wave `abs(t / (period / 2) - 1)` is nonnegative, and at most 1 within a period |
| HandPose.JointAngleBounded | src/main.cpp:503-504 | within a period a joint angle is at most pi / abs(frac) in size, and it has the sign of frac |
| HandPose.WaveSymmetric | src/main.cpp:503-504 | the wave takes the same value at t and at period - t |
| HandPose.JointAngleSymmetric | src/main.cpp:503-504 | a joint is bent as far at t as at period - t |
| HandPose.JointAngleExtremes | src/main.cpp:503-504 | at the start of a period the angle is pi / frac; at its middle it is 0 |
| HandPose.MoveJoint | src/main.cpp:502-508 | a nonzero fraction writes that joint's z-axis bend; a zero fraction leaves the table unchanged; no other bone changes |
| HandPose.FingerMoved | src/main.cpp:498-534 | each joint with a nonzero fraction holds its z-axis bend; each joint with a zero fraction keeps its old entry or absence; no bone outside the finger's four keys changes |
| HandPose.FingerMovedNoBend | src/main.cpp:498-534 | `finger_move` with four zero fractions leaves the table unchanged |
| HandPose.MovedUpTo | src/main.cpp:541-546 | the table after the clear and the first i `finger_move` calls, thumb to pinky, each with the pose's fractions for its finger |
| HandPose.ClearAndMove | src/main.cpp:541-546 | the clear followed by all five `finger_move` calls |
| HandPose.StageStep | src/main.cpp:541-546 | one more `finger_move` call of a clear-and-move pose settles one more finger and disturbs no settled finger, written tip or untouched bone |
| HandPose.MovedStages | src/main.cpp:541-546 | after the clear and the first i `finger_move` calls, those i fingers are settled, the rest are straight, and bones outside the clear vocabulary and the written tips are untouched |
| HandPose.ClearAndMovePose | src/main.cpp:541-546 | after the clear and five `finger_move` calls, each phalange holds exactly its finger's bend, each `_fingertip` bone is the identity, the `_fingertip_phalange` key is written exactly where the fingertip fraction is nonzero, and every other bone keeps its entry |
| HandPose.ClearAndMoveKeepsNamed | src/main.cpp:541-546 | a clear-and-move pose keeps every named bone, `metacarpals` among them |
| HandPose.TimeInPeriod | src/main.cpp:538-539 | for a nonnegative time the time in period lies in [0, 2.4) |
| HandPose.Completion1Table | src/main.cpp:537-547 | completion 1: the clear and five grab moves at the time in period `fmod(passed_time, 2.4)` |
| HandPose.Completion2Table | src/main.cpp:550-557 | completion 2: the clear, then the thumb and index moves of the OK sign, at the time in period |
| HandPose.Completion3Table | src/main.cpp:559-574 | completion 3: `metacarpals` set to the y-axis swing at pi / 2.3, then the clear and five moves with the thumb reversed |
| HandPose.GrabWritesNoTip | src/main.cpp:542-546 | the grab of completions 1 and 3 writes no `_fingertip_phalange` key |
| HandPose.OkWritesThumbTip | src/main.cpp:555-556 | the OK sign writes exactly one `_fingertip_phalange` key, the thumb's |
| HandPose.Completion1Pose | src/main.cpp:537-547 | completion 1 settles every finger to its grab bend, resets every `_fingertip` bone, and keeps every bone outside the clear vocabulary, `metacarpals` included |
| HandPose.GrabBounded | src/main.cpp:542-546 | for a nonnegative time every joint the grab bends bends forward, by at most pi / 2 |
| HandPose.Completion2AsClearAndMove | src/main.cpp:550-557 | completion 2's two `finger_move` calls give the same table as the five-call shape with zero fractions for middle, ring and pinky |
| HandPose.Completion2Fingers | src/main.cpp:550-557 | completion 2 bends thumb and index finger with the OK fractions and leaves middle, ring and pinky straight |
| HandPose.Completion2ThumbTip | src/main.cpp:555 | completion 2 writes the thumb-tip bend pi / 12 scaled by the wave under `thumb_fingertip_phalange`, leaves `thumb_fingertip` the identity, and keeps every other bone outside the clear vocabulary |
| HandPose.Completion3Swing | src/main.cpp:559-568 | completion 3 leaves `metacarpals` swung about y by the wave times pi / 2.3: the clear that runs after that write does not reset it |
| HandPose.Completion3Fingers | src/main.cpp:559-574 | completion 3 settles every finger to its fractions and keeps every bone outside the clear vocabulary other than `metacarpals`, which it rewrites with the swing |
| HandPose.TiltThumbReversed | src/main.cpp:569-573 | in completion 3 the thumb's proximal joint stays straight, its two other joints bend backwards, and the other fingers grab as in completion 1 |
| HandPose.CompletionsPeriodic | src/main.cpp:537-574 | for a nonnegative time each demonstration gives the same table 2.4 seconds later |
| HandPose.StaleThumbTip | src/main.cpp:541-556 | after completion 2 and then completion 1, completion 2's `thumb_fingertip_phalange` bend is still in the table |
| HandPose.KmFingerMoved | src/main.cpp:576-595 | the finger's three phalanges hold their z-axis angles when bent and the identity when not; no other bone changes, its fingertip bones included |
| HandPose.LiveAngles | src/main.cpp:599-604 | the three angles each finger gets, as multiples of pi / 3 |
| HandPose.LiveUpTo | src/main.cpp:598-605 | the table after the first i `km_finger_move` calls, thumb to pinky, each with that finger's flag and angles |
| HandPose.KeyboardMouseControlled | src/main.cpp:598-605 | all five `km_finger_move` calls |
| HandPose.KmSettles | src/main.cpp:586-594 | one `km_finger_move` call settles that finger's three live bones to its flag |
| HandPose.LiveAnglesBounded | src/main.cpp:599-604 | every live angle is a forward bend of at most pi / 3 |
| HandPose.LiveStages | src/main.cpp:598-605 | after the first i `km_finger_move` calls those fingers hold their live bends and every other bone is unchanged |
| HandPose.LivePose | src/main.cpp:598-605 | after the live control every finger's three phalanges follow its flag and every other bone keeps its entry, fingertips and `metacarpals` included |
| HandPose.LiveIdempotent | src/main.cpp:598-605 | running the live control again with the same flags changes nothing |
| HandPose.LiveFlagLocal | src/main.cpp:600-604 | changing one finger's flag changes only that finger's phalanges |
| HandPose.NoNewNames | src/main.cpp:471-605 | a table that keeps its named bones and gains no other named bone keeps its keys canonical |
| HandPose.Completion1WellKeyed | src/main.cpp:537-547 | completion 1 keeps the table keyed by canonical bones |
| HandPose.Completion2WellKeyed | src/main.cpp:550-557 | completion 2 keeps the table keyed by canonical bones |
| HandPose.Completion3WellKeyed | src/main.cpp:559-574 | completion 3 keeps the table keyed by canonical bones |
| HandPose.LiveWellKeyed | src/main.cpp:598-605 | the live control keeps the table keyed by canonical bones |
| PoseProducers.SkeletonModifier.constructor | src/main.cpp:307 | a fresh modifier holds no overrides |
| PoseProducers.FingerMoveClear | src/main.cpp:471-496 | the twenty writes leave the table `Cleared` describes |
| PoseProducers.FingerMove | src/main.cpp:498-534 | the four guarded writes leave the table `FingerMoved` describes |
| PoseProducers.Completion1 | src/main.cpp:537-547 | clear then five `finger_move` calls leave completion 1's table |
| PoseProducers.Completion2 | src/main.cpp:550-557 | clear then two `finger_move` calls leave completion 2's table |
| PoseProducers.Completion3 | src/main.cpp:559-574 | the swing write, the clear and five `finger_move` calls leave completion 3's table |
| PoseProducers.KmFingerMove | src/main.cpp:576-595 | the three writes leave the table `KmFingerMoved` describes |
| PoseProducers.KeyboardMouseControl | src/main.cpp:598-605 | five `km_finger_move` calls leave the live control's table |
| ViewerState.MoveKeys.With | src/main.cpp:127-132 | setting one movement flag leaves the other five as they were |
| ViewerState.InitialValid | src/main.cpp:70-103 | the initial statics are valid: control off, the default mode, the first-sample flag armed, pitch and speed within their clamps |
| ViewerState.Clamp | src/main.cpp:197-201 | a clamped value lies in the range, equals the input when the input is in range, and is the violated bound otherwise |
| ViewerState.Toggled | src/main.cpp:151-174 | exactly one finger's flag flips |
| ViewerState.KeyStep | src/main.cpp:109-175 | the state after one key event: a press of Escape closes the window; a press of F flips control and cursor capture, arming the first-sample flag when enabling; with control on, W/A/S/D/Space/Left Shift set their flag to "not released"; with control off, a press of 1/2/3 selects the mode; with control on, a press of Z/X/C/V/B flips one finger; anything else changes nothing |
| ViewerState.EscapeCloses | src/main.cpp:110-111 | Escape on press asks the window to close and changes nothing else |
| ViewerState.KeyFToggles | src/main.cpp:114-123 | pressing F flips control and the cursor capture together, re-arms the first-sample flag when control comes on, and changes nothing else |
| ViewerState.KeyFOnlyOnPress | src/main.cpp:114 | releasing or repeating F changes nothing |
| ViewerState.MoveKeysHeld | src/main.cpp:125-133 | with control on, a movement key's flag becomes "not released" and the other flags stay; with control off, or for any other key, no flag changes |
| ViewerState.ModeKeys | src/main.cpp:135-149 | the mode changes only on a press of 1, 2 or 3 while control is off, and then it becomes that key's completion |
| ViewerState.FingerKeys | src/main.cpp:151-174 | with control on, a press of Z, X, C, V or B flips exactly that finger's flag; no other key event changes any flag |
| ViewerState.KeyLeavesCamera | src/main.cpp:109-175 | key events leave the view, the speed and the mouse angles alone; only F touches the mouse record, and only its first-sample flag |
| ViewerState.KeyStepValid | src/main.cpp:109-175 | key events keep pitch and speed within their clamps and the cursor captured exactly while control is on |
| ViewerState.StuckKey | src/main.cpp:125-133 | a W released while control is off stays held, and after F the camera moves one forward stride |
| ViewerState.Aim | src/main.cpp:203-208 | the target orientation: yaw about y composed with pitch about x, yaw first |
| ViewerState.CursorStep | src/main.cpp:177-209 | the state after one cursor event: unchanged with control off; the first sample only records the position; later samples add the scaled offsets to yaw and pitch, clamp pitch, record the position and aim the target |
| ViewerState.CursorIgnoredWhenOff | src/main.cpp:177-179 | with control off a cursor event changes nothing |
| ViewerState.CursorFirstSample | src/main.cpp:181-186 | the first sample records the position, clears the flag, and changes neither yaw, pitch nor the view |
| ViewerState.CursorTurns | src/main.cpp:188-208 | later samples add the x offset times 0.1 to yaw, keep pitch within 89 degrees (exactly the offset sum when that is in range), aim the target yaw-then-pitch, and record the position |
| ViewerState.CursorLeavesRest | src/main.cpp:177-209 | cursor events touch only the mouse record and the target orientation |
| ViewerState.CursorStepValid | src/main.cpp:177-209 | cursor events keep the state valid |
| ViewerState.ScrollStep | src/main.cpp:211-219 | the state after one scroll event: with control on the speed moves by 0.02 per notch, clamped to [0.01, 1.0]; with control off nothing changes |
| ViewerState.ScrollSpeed | src/main.cpp:211-219 | with control on the speed moves by 0.02 per notch within [0.01, 1.0]; with control off nothing changes; only the speed changes |
| ViewerState.ScrollMonotone | src/main.cpp:214-216 | scrolling further up never gives a slower camera |
| ViewerState.ScrollStepValid | src/main.cpp:211-219 | scroll events keep the state valid |
| ViewerState.Stride | src/main.cpp:232-243 | the step of each move: plus or minus forward, right or world up, scaled by the speed |
| ViewerState.Travel | src/main.cpp:231-243 | the sum of the strides of the held keys among the first n moves in key order |
| ViewerState.Displacement | src/main.cpp:231-243 | the sum of the strides of all held keys: the reference for one camera step |
| ViewerState.PositionStep | src/main.cpp:221-244 | the state after the camera step: with control on the position moves by the displacement; with control off nothing changes |
| ViewerState.Shifted | src/main.cpp:232-243 | one of the six guarded `+=`/`-=` updates, as the source writes it |
| ViewerState.Walked | src/main.cpp:231-243 | the position after the first n guarded updates, in W, S, A, D, Space, Shift order |
| ViewerState.Rank | src/main.cpp:232-243 | each move has exactly one place in the order the keys are looked at |
| ViewerState.NoTravel | src/main.cpp:231-243 | with no key held the first n updates add nothing |
| ViewerState.NoKeysStill | src/main.cpp:231-243 | with no key held the displacement is zero |
| ViewerState.PositionIdle | src/main.cpp:221-244 | with control off or no key held the camera step changes nothing |
| ViewerState.ShiftedPlusPush | src/main.cpp:232-243 | each `+=` or `-=` adds that move's push |
| ViewerState.WalkedTravel | src/main.cpp:231-243 | the six updates in source order end at the position plus the summed strides of the held keys |
| ViewerState.TravelWith | src/main.cpp:231-243 | holding one more key adds that move's stride to the first n updates once the move is among them |
| ViewerState.DisplacementSingle | src/main.cpp:231-243 | holding one more key adds exactly its stride, whatever else is held |
| ViewerState.OppositeStride | src/main.cpp:232-243 | W/S, A/D and Space/Shift have opposite strides |
| ViewerState.OppositeCancel | src/main.cpp:232-243 | opposite keys held together cancel: the camera moves as if neither were held |
| ViewerState.PositionStepValid | src/main.cpp:221-244 | the camera step keeps the state valid |
| ViewerState.FrameControls | src/main.cpp:327-341 | the state after one frame: the camera step, the orientation slerped toward the target by 0.15, then the mode forced to KeyboardMouseControl while control is on |
| ViewerState.FrameSpin | src/main.cpp:334-337 | the per-frame `metacarpals` rotation: `passed_time * pi / 4` about x |
| ViewerState.FrameTable | src/main.cpp:334-416 | the table after one frame: `metacarpals` spun, then the live control while control is on, otherwise the selected completion, or nothing in the default mode |
| ViewerState.FrameForcesMode | src/main.cpp:327-341 | with control on a frame forces the KeyboardMouseControl mode; with control off it changes only the orientation, which it eases toward the target |
| ViewerState.FrameMetacarpals | src/main.cpp:334-416 | after a frame `metacarpals` holds the x-axis spin, except in completion 3 where it holds the y-axis swing |
| ViewerState.FrameLive | src/main.cpp:339-341 | with control on every finger's phalanges follow its bent flag after the frame |
| ViewerState.FrameIdle | src/main.cpp:403-415 | with control off in the default mode a frame only spins `metacarpals` |
| ViewerState.FrameWellKeyed | src/main.cpp:337-416 | a frame keeps the table keyed by canonical bones |
| ViewerState.FrameControlsValid | src/main.cpp:327-341 | a frame keeps the state valid |
| ViewerState.Viewer.constructor | src/main.cpp:70-103 | the statics start at their initial values, which are valid |
| ViewerState.Viewer.KeyCallback | src/main.cpp:109-175 | the callback's field updates leave the state `KeyStep` gives and keep it valid |
| ViewerState.Viewer.CursorPositionCallback | src/main.cpp:177-209 | the callback's field updates leave the state `CursorStep` gives and keep it valid |
| ViewerState.Viewer.ScrollCallback | src/main.cpp:211-219 | the callback's field updates leave the state `ScrollStep` gives and keep it valid |
| ViewerState.Viewer.UpdateCameraPosition | src/main.cpp:221-244 | the six guarded `+=`/`-=` updates move the position by the displacement of the held keys, only while control is on, and keep the state valid |
| ViewerState.Viewer.Frame | src/main.cpp:322-416 | one pass of the loop leaves the state `FrameControls` gives and the table `FrameTable` gives: camera step, easing, metacarpals spin, then the live control or the selected completion |

## Left out

- Window, context, GLEW, shader and uniform setup, scene loading, skeleton
  resolution and drawing (src/main.cpp:251-321, 418-469): OpenGL and GLFW plumbing
  and calls into `skeletal_mesh.h`, which is not part of this model.
- The GLFW calls of the key callback (`glfwSetWindowShouldClose`, `glfwSetInputMode`)
  are modelled as the two `Window` flags they set. The main loop's
  `glfwWindowShouldClose` condition is left out: `Viewer.Frame` is one pass of the loop.
- The glm numerics (`angleAxis`, the quaternion product, `slerp`, `mat4_cast`,
  `rotate`) are kept symbolic. `update_camera_position`'s forward and right vectors,
  which `mat4_cast` derives from the orientation, are parameters of the camera step.
- `glfwGetTime` becomes the `passedTime` parameter of `Viewer.Frame`.
- Console output (`std::cout`, `fprintf`) and the disabled `EXAMPLE_CODE` block are
  left out.
- Floats and doubles are modelled as exact reals, with no rounding. Every float
  constant (`0.1f`, `0.02f`, `2.3f`, `M_PI`) is taken as its decimal value, and
  `Pi` is `M_PI` to 16 digits.
- `abs` in the wave is taken as the floating-point absolute value.
- `mouse_sensitivity` and `slerp_factor` are statics the file never assigns. They
  appear as their values, 0.1 and `SlerpFactor` = 0.15.
- The finger argument of `finger_move` and `km_finger_move` is a `Finger`, not a
  string: the file passes only the five finger names.
- PoseProducers.FingerMove: requires a positive period (the file always passes 2.4).
  A zero period would divide by zero.
- PoseProducers.KeyboardMouseControl: takes the five bent flags as a parameter
  instead of reading the statics. `Viewer.Frame` passes its `fingers` field.
- ViewerState.Viewer.UpdateCameraPosition: accumulates the position in a local and
  writes the field once at the end, where the source updates `camera_position` in
  place six times. No other code runs in between, so the final state is the same.
- ViewerState.Viewer: the statics of each comment group of the file (finger status,
  view, mouse control, keyboard state) are held in one record-valued field per
  group. Each callback updates the fields of those records as the source updates
  the statics.
