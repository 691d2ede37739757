# Gesture-controlled shooter: verified model of the game core

A Dafny model of the logic behind a browser shoot-'em-up steered by hand
gestures seen through the webcam. A hand detector reports 21 landmarks per
frame. These modules turn the landmarks into a gesture label, stabilise it
into control intents, and move the player's plane inside its bounds. Each
frame advances the bullets and resolves hits against enemies that take
several shots. A 16 ms tick lets enemies fall, crash into the player, get
shot and spawn; it also keeps score, combo, lives and the paused-time clock.
The session's start / pause / resume / end / reset transitions are modelled,
with a score submission that happens at most once per session.

Modules (one file each):

- `GestureTypes` (`types.dfy`): the labels, landmark points, classifier
  output, hand position, control intent and recogniser configuration.
- `GestureUtils` (`gesture_utils.dfy`): the stand-alone classifier and the
  finger, fist and pointing tests. It holds the first-match rule chain
  `Classify`, which both classifiers share.
- `GestureRecognition` (`gesture_recognition.dfy`): the recogniser hook.
  - its own classifier;
  - the gesture-to-intent mapping;
  - the stabiliser, with a confidence threshold, per-label debounce and the
    three-frame / 800 ms / 1500 ms gate for the pause gesture;
  - centroid smoothing;
  - the class `GestureRecognizer` holding the hook's state.
- `Bullets` (`bullet_system.dfy`): bullets and enemies, the collision fold
  `Resolve`, and the class `BulletSystem`. Its `UpdateBullets` is the
  source's nested loop, proved equal to the fold.
- `PlayerControl` (`game_control.dfy`): the target, clamp and smoothing of
  the player position, the 100 ms action debounce, and the class
  `GameController` with its bounds invariant.
- `Game` (`game.dfy`):
  - enemy creation and the player-enemy collision;
  - the tick, specified by the function `TickFn` and made of `Crashed`,
    `Survivors` and `Settle`;
  - the class `GameSession`, whose methods are the page's handlers and
    timer callbacks.
- `TimeUtils` (`time_utils.dfy`): the HH:MM:SS.CC clock string, using the
  host language's rounding-down division and sign-of-dividend remainder.
- `DeviceUtils` (`device_utils.dfy`): the 32-character hexadecimal device
  identifier, its validator and generator, and the key-value store that
  keeps it.

Where the source's documentation and its code differ, the model follows the
code:

- A pause gesture cannot resume a paused game. The shoot/pause effect
  returns early while paused, so the 1000 ms gesture-pause debounce never
  arms (`Game.GameSession.ShootEffect`).
- Lives are lost once per enemy that touches the player in a tick, not once
  per tick.
- The action flags clear themselves 100 ms after they are raised
  (`PlayerControl.GameController.AutoClearActions`). A falling shoot flag
  stops repeat-fire, so in the source the 500 ms repeat-fire timer is
  normally cancelled before it fires. Both are modelled as separate events,
  so either order can be composed.
- `formatTime`'s comment says milliseconds, but the last field is
  hundredths.

Randomness becomes explicit draws in [0, 1) passed as parameters
(`EnemyDraw`, `TickDraws`, the 32 device-id draws). The clock becomes a
`now: int` parameter. Timers become methods that the environment calls.

## Model

| member | source | states |
|---|---|---|
| GestureUtils.SquaredDistance | src/utils/gestureUtils.ts:22-28 | the squared distance used instead of the square root is never negative |
| GestureUtils.SquaredDistanceSymmetric | src/utils/gestureUtils.ts:22-28 | the distance from p to q equals the distance from q to p |
| GestureUtils.SquaredDistanceSelf | src/utils/gestureUtils.ts:22-28 | a point is at distance zero from itself |
| GestureUtils.IsFingerExtended | src/utils/gestureUtils.ts:80-83 | a finger is extended iff its tip lies above both joints, i.e. below their minimum y |
| GestureUtils.UpCount | src/utils/gestureUtils.ts:213-214 | the count of raised digits is at most 5, and 0 exactly when no digit is up |
| GestureUtils.Classify | src/utils/gestureUtils.ts:219-268 | characterises each label by the finger flags alone: ONE iff index up and middle, ring and pinky down; FIST iff index down and at most one digit up; OPEN_PALM iff index and middle up; NONE in the remaining cases; never PEACE; the confidence is 0.3 exactly for NONE, 0.8 exactly for index+thumb ONE and two-finger OPEN_PALM, else 0.9 |
| GestureUtils.RuleGuardsDisjoint | src/utils/gestureUtils.ts:219-261 | no two of the five rule guards can hold together, so the order of the rules never decides a label |
| GestureUtils.RecognizeGesture | src/utils/gestureUtils.ts:181-277 | confidence is 0 exactly for absent or short (<21) input, and then the label is NONE; otherwise the rule chain on the finger flags (thumb as the strict chain y4<y3<y2) decides; confidence is in {0, 0.3, 0.8, 0.9}, never PEACE, and the timestamp is the clock reading |
| GestureUtils.IsFist | src/utils/gestureUtils.ts:148-174 | true iff the input has 21 points and index, middle, ring and pinky are all not extended |
| GestureUtils.IsPointingLeft | src/utils/gestureUtils.ts:90-112 | true iff the input is full, the index is extended, its tip is left of its base and the middle, ring and pinky tips lie below the index middle joint |
| GestureUtils.IsPointingRight | src/utils/gestureUtils.ts:119-141 | true iff the input is full, the index is extended, its tip is right of its base and the middle, ring and pinky tips lie below the index middle joint |
| GestureUtils.PointingExclusive | src/utils/gestureUtils.ts:90-141 | no hand points both left and right |
| GestureUtils.FistHandClassifiedFist | src/utils/gestureUtils.ts:148-243 | every hand `isFist` accepts is classified FIST with confidence 0.9 |
| GestureUtils.FistLabelWithoutFistHand | src/utils/gestureUtils.ts:148-243 | the converse fails: a hand with only the middle finger raised is labelled FIST, yet `isFist` rejects it |
| GestureRecognition.RecognizeLocal | src/hooks/useGestureRecognition.ts:215-328 | short input or a missing required joint gives NONE with confidence 0.1, never an error; otherwise the shared rule chain decides with every digit, the thumb included, tested as tip above both joints |
| GestureRecognition.ThumbChainImpliesLocalThumb | src/hooks/useGestureRecognition.ts:263 | the stand-alone classifier's strict thumb chain implies the hook's thumb test |
| GestureRecognition.ClassifiersAgreeUnlessThumb | src/hooks/useGestureRecognition.ts:215-328 | on a full frame the two classifiers return the same result whenever their thumb tests agree; on a short frame they differ only in confidence, 0.1 against 0 |
| GestureRecognition.ThumbTestsDisagree | src/hooks/useGestureRecognition.ts:263-295 | a concrete hand where the thumb tests differ: the hook says ONE 0.8, the stand-alone classifier ONE 0.9 |
| GestureRecognition.ConvertToGameControl | src/hooks/useGestureRecognition.ts:562-594 | shoot iff FIST, pause iff ONE, never both; OPEN_PALM moves by (x-0.5)*2, (y-0.5)*2, which lies in [-1,1] for a hand in the unit square; every other label gives zero movement |
| GestureRecognition.DebounceFor | src/hooks/useGestureRecognition.ts:533-543 | the debounce window is 50 ms for OPEN_PALM, 100 ms for FIST, and the configured time otherwise |
| GestureRecognition.Stabilize | src/hooks/useGestureRecognition.ts:488-557 | a frame below the threshold changes nothing; an emission records now for that label only; a first ONE opens a track {ONE, now, 1} without emitting; before three tracked frames over 800 ms a further ONE only increments the count, emitting nothing; ONE is emitted only on the third or a later tracked frame, at least 800 ms after the track opened and 1500 ms after the last ONE; once count and hold are met the track closes whether or not it emits; any other label clears the track and is emitted iff its debounce window has passed |
| GestureRecognition.Run | src/hooks/useGestureRecognition.ts:488-557 | feeding a sequence of frames emits at most one frame per input frame |
| GestureRecognition.PauseEmissionsAfterLast | src/hooks/useGestureRecognition.ts:498-516 | every ONE emitted in a run comes at least 1500 ms after the last ONE emitted before it |
| GestureRecognition.PauseEmissionsSpaced | src/hooks/useGestureRecognition.ts:498-516 | any two ONE emissions of a run are at least 1500 ms apart |
| GestureRecognition.DebouncedLabelSilent | src/hooks/useGestureRecognition.ts:533-548 | frames of one non-pause label inside its window after its last emission are all suppressed |
| GestureRecognition.BurstEmitsOnce | src/hooks/useGestureRecognition.ts:533-554 | a burst of one non-pause label within one window of a passing first frame emits exactly that first frame |
| GestureRecognition.PauseAfterThreeStableFrames | src/hooks/useGestureRecognition.ts:498-526 | three confident ONE frames spanning 800 ms, 1500 ms after the last pause, emit exactly one pause, on the third frame, and close the track |
| GestureRecognition.TwoPauseFramesThenOther | src/hooks/useGestureRecognition.ts:498-530 | two ONE frames then any other confident label never emit a pause and leave no track |
| GestureRecognition.SumsBounded | src/hooks/useGestureRecognition.ts:180-183 | coordinate sums of n landmarks in the unit square lie in [0, n] |
| GestureRecognition.CentroidInUnitSquare | src/hooks/useGestureRecognition.ts:180-183 | the centroid of landmarks in the unit square lies in the unit square |
| GestureRecognition.Smooth | src/hooks/useGestureRecognition.ts:193-195 | for a factor in [0,1] the smoothed value lies between the old value and the raw one; factor 0 keeps the old value, factor 1 takes the raw one |
| GestureRecognition.Triples | src/hooks/useGestureRecognition.ts:196-200 | each landmark is kept as its [x, y, z] triple, in order |
| GestureRecognition.SmoothingFactor | src/hooks/useGestureRecognition.ts:185-190 | 0.9 whenever the centroid jumps more than 0.1 on either axis; within [0,1] for a base factor in [0,1]; JitterUsesBaseFactor states the base-factor case |
| GestureRecognition.NextHandPosition | src/hooks/useGestureRecognition.ts:180-201 | the new hand position keeps the raw landmarks and, for a base factor in [0,1], lies between the old position and the centroid on each axis |
| GestureRecognition.HandPositionStaysInUnitSquare | src/hooks/useGestureRecognition.ts:180-201 | a hand position in the unit square stays there when the landmarks lie in it |
| GestureRecognition.JitterUsesBaseFactor | src/hooks/useGestureRecognition.ts:186-191 | a move of at most 0.1 on both axes from the current position is smoothed with the configured base factor |
| GestureRecognition.RegisteredHandlerSkipsDamping | src/hooks/useGestureRecognition.ts:148-209 | the handler registered with the detector measures the jump from (0.5, 0.5) with base 0.2: a 0.05 jitter at 0.8 is followed with factor 0.9 (to 0.845) instead of 0.2 (to 0.81) |
| GestureRecognition.Patched | src/hooks/useGestureRecognition.ts:609-611 | a partial configuration overrides exactly the fields it carries |
| GestureRecognition.GestureRecognizer.constructor | src/hooks/useGestureRecognition.ts:72-113 | starts with NONE/0, hand at (0.5, 0.5) without landmarks, neutral control, default configuration, empty debounce map and no track |
| GestureRecognition.GestureRecognizer.UpdateGestureState | src/hooks/useGestureRecognition.ts:488-557 | the in-place update of the debounce map and track equals the stabiliser function; an emitted frame becomes the gesture and its control intent, otherwise both are kept |
| GestureRecognition.GestureRecognizer.OnHandsResults | src/hooks/useGestureRecognition.ts:161-210 | no hand: gesture NONE/0 and neutral control, while hand position and stabiliser state are kept; a hand: the smoothed position, the local classification and the stabiliser step on the raw centroid |
| GestureRecognition.GestureRecognizer.StopCamera | src/hooks/useGestureRecognition.ts:446-455 | resets gesture to NONE/0 and control to neutral, keeping configuration, hand position and stabiliser state |
| GestureRecognition.GestureRecognizer.ToggleGesture | src/hooks/useGestureRecognition.ts:599-604 | flips only the enable flag |
| GestureRecognition.GestureRecognizer.UpdateConfig | src/hooks/useGestureRecognition.ts:609-611 | the configuration becomes the old one patched; nothing else changes |
| PlayerControl.Clamp | src/hooks/useGameControl.ts:200-201 | the result lies in [lo, hi], equals v inside it and the nearer bound outside |
| PlayerControl.ClampSensitivity | src/hooks/useGameControl.ts:169-171 | the sensitivity lies in [0.1, 3] and a value inside is kept |
| PlayerControl.Target | src/hooks/useGameControl.ts:192-201 | the target is in bounds and equals the mirrored, scaled hand position whenever that is in bounds |
| PlayerControl.MovementFactor | src/hooks/useGameControl.ts:208-214 | FIST: 0.6 iff the jump exceeds 15, else 0.3; otherwise 0.8 iff it exceeds 10, else 0.3 |
| PlayerControl.NextPlayerPosition | src/hooks/useGameControl.ts:184-227 | each step lands between the last position and the target on both axes, so an in-bounds position stays in [5,95]x[10,90] |
| PlayerControl.DecideActions | src/hooks/useGameControl.ts:233-265 | shoot iff FIST, not paused and more than 100 ms since the last shot; pause iff ONE and more than 100 ms since the last pause, paused or not; never both; each firing moves only its own timestamp to now |
| PlayerControl.ShotsSpaced | src/hooks/useGameControl.ts:245-253 | two successive shots are more than 100 ms apart |
| PlayerControl.GameController.constructor | src/hooks/useGameControl.ts:91-119 | player at (50, 80), no actions, sensitivity 1, empty debounce and bullet list, recogniser tuned to smoothing 0.15 and debounce 30 ms |
| PlayerControl.GameController.HandlePlayerMovement | src/hooks/useGameControl.ts:184-228 | moves to the next position only for OPEN_PALM or FIST with gestures on, playing and not paused; otherwise the position is unchanged; bounds invariant kept |
| PlayerControl.GameController.HandleGameActions | src/hooks/useGameControl.ts:233-265 | nothing happens with gestures off or not playing; otherwise the actions and timestamps are the decision's, and a shot appends exactly one bullet at (lastX, lastY - 8) |
| PlayerControl.GameController.AutoClearActions | src/hooks/useGameControl.ts:278-289 | the action flags are cleared; position and debounce times are kept |
| PlayerControl.GameController.ResetPlayerPosition | src/hooks/useGameControl.ts:157-164 | both the displayed and the remembered position become (50, 80) |
| PlayerControl.GameController.UpdateSensitivity | src/hooks/useGameControl.ts:169-171 | stores the clamped sensitivity; nothing else changes |
| PlayerControl.GameController.StopGestureControl | src/hooks/useGameControl.ts:136-145 | stops the camera (gesture NONE/0, neutral control), clears the actions and every bullet; the recogniser keeps its configuration, hand position and stabiliser, the bullet id counter, the player position, sensitivity and debounce map stay |
| PlayerControl.GameController.ToggleGestureControl | src/hooks/useGameControl.ts:150-152 | flips the recogniser's enable flag and nothing else: the rest of the configuration, the gesture, the control intent, the hand position and the stabiliser stay |
| Bullets.FirstHit | src/hooks/useBulletSystem.ts:117-140 | the index found is the first enemy in list order that the bullet overlaps, or the list length when none does |
| Bullets.OnScreen | src/hooks/useBulletSystem.ts:111-114 | keeps only bullets with y >= 0 and every such bullet of the input, never more than the input |
| Bullets.OnScreenMultiplicity | src/hooks/useBulletSystem.ts:111-114 | each bullet with y >= 0 is kept exactly as often as it occurs, every other one is dropped |
| Bullets.OnScreenConcat | src/hooks/useBulletSystem.ts:110-114 | list order is kept: the kept bullets of a concatenation are those of the first part followed by those of the second |
| Bullets.Collides | src/hooks/useBulletSystem.ts:87-92 | the hit test: squared centre distance below 25; its meaning is stated by CollidesIffDistanceBelow |
| Bullets.CollidesIffDistanceBelow | src/hooks/useBulletSystem.ts:87-92 | for the non-negative square root d of the squared centre distance, a hit is exactly d < 5, as the source compares the root |
| Bullets.Step | src/hooks/useBulletSystem.ts:111-145 | one advanced bullet against the current enemies: off screen it is dropped, with no hit it stays, otherwise the first enemy it overlaps loses one health point and is removed at 0; its properties are StepSeparates and ResolveAccounting |
| Bullets.Resolve | src/hooks/useBulletSystem.ts:110-146 | the loop over the advanced bullets as a fold of Step in list order; its properties are ResolveAccounting, ResolveSeparates, ResolveWithoutContact and ResolveKeepsOrder |
| Bullets.UpdateResult | src/hooks/useBulletSystem.ts:97-157 | one frame: advance every bullet, then Resolve; UpdateBullets is proved equal to it and UpdateKeepsOrder states its ordering |
| Bullets.ResolveAccounting | src/hooks/useBulletSystem.ts:97-157 | each on-screen bullet ends in exactly one of remaining bullets, defeated or damaged enemies; defeated plus remaining enemies number the input enemies; every hit costs exactly one health point |
| Bullets.StepSeparates | src/hooks/useBulletSystem.ts:116-145 | one bullet's step keeps surviving bullets clear of surviving enemies |
| Bullets.ResolveSeparates | src/hooks/useBulletSystem.ts:97-157 | after a frame no surviving bullet overlaps a surviving enemy, surviving bullets are on screen, defeated enemies have health <= 0 and damaged ones >= 1 |
| Bullets.ResolveWithoutContact | src/hooks/useBulletSystem.ts:110-146 | with no overlap every on-screen bullet survives and the enemies are untouched |
| Bullets.ResolveKeepsOrder | src/hooks/useBulletSystem.ts:110-146 | surviving bullets come from the input in order: increasing ids stay increasing |
| Bullets.UpdateKeepsOrder | src/hooks/useBulletSystem.ts:97-157 | a whole frame (advance, then resolve) keeps bullet ids increasing |
| Bullets.SingleHit | src/hooks/useBulletSystem.ts:117-140 | a bullet meeting a two-point enemy leaves it damaged at 1; meeting a one-point enemy it defeats it; either way the bullet is spent |
| Bullets.BulletSystem.constructor | src/hooks/useBulletSystem.ts:54-57 | starts with no bullets and id counter 0 |
| Bullets.BulletSystem.CreateBullet | src/hooks/useBulletSystem.ts:66-75 | appends exactly one bullet with the counter as id and speed 2, and advances the counter, keeping ids unique and increasing |
| Bullets.BulletSystem.ClearBullets | src/hooks/useBulletSystem.ts:80-82 | empties the list; the counter keeps counting |
| Bullets.BulletSystem.UpdateBullets | src/hooks/useBulletSystem.ts:97-157 | the nested loop with push, splice and index update returns exactly the collision fold over the advanced bullets, and the bullet list becomes its remaining bullets |
| DeviceUtils.AllHex | src/utils/deviceUtils.ts:24-27 | true iff every character is a-f or 0-9 |
| DeviceUtils.ValidateDeviceId | src/utils/deviceUtils.ts:24-27 | true iff the length is exactly 32 and every character is a-f or 0-9 |
| DeviceUtils.PickChar | src/utils/deviceUtils.ts:14 | a draw in [0,1) picks alphabet position floor(16 r), a hexadecimal character |
| DeviceUtils.GeneratedId | src/utils/deviceUtils.ts:10-17 | one character per draw, each the picked one; 32 draws give a valid id |
| DeviceUtils.GenerateDeviceId | src/utils/deviceUtils.ts:10-17 | the 32-iteration loop builds the generated id, which passes validation |
| DeviceUtils.EveryValidIdGenerated | src/utils/deviceUtils.ts:10-27 | every valid id is produced by some draws, so the generator covers exactly the validator's language |
| DeviceUtils.DeviceStore.GetOrCreateDeviceId | src/utils/deviceUtils.ts:33-46 | a stored valid id is returned and nothing is written; otherwise a fresh id is stored under "gesture_game_device_id" and returned; the result is always valid |
| DeviceUtils.DeviceStore.ClearDeviceId | src/utils/deviceUtils.ts:51-54 | removes exactly that key |
| TimeUtils.FloorDiv | src/utils/timeUtils.ts:7-9 | rounding-down division: q*b <= a < q*b + b |
| TimeUtils.TruncRem | src/utils/timeUtils.ts:9-10 | the remainder has the dividend's sign and the magnitude of the positive remainder |
| TimeUtils.FieldsOf | src/utils/timeUtils.ts:7-11 | hours, minutes, seconds and hundredths with Math.floor and the sign-keeping %; FieldsInRange states their ranges and recomposition |
| TimeUtils.FieldsInRange | src/utils/timeUtils.ts:7-11 | for ms >= 0: minutes and seconds in [0,59], hundredths in [0,99], and h*3600000 + m*60000 + s*1000 + c*10 <= ms < that + 10 |
| TimeUtils.NatToString | src/utils/timeUtils.ts:13 | decimal digits without a leading zero; one digit iff the number is below 10 |
| TimeUtils.NatToStringRoundTrip | src/utils/timeUtils.ts:13 | reading the printed digits back gives the number |
| TimeUtils.PadStart2 | src/utils/timeUtils.ts:13 | a string of two or more characters is returned unchanged; a shorter one becomes exactly two characters |
| TimeUtils.PadStart2Keeps | src/utils/timeUtils.ts:13 | padding never truncates: the input is a suffix of the result and everything before it is '0' |
| TimeUtils.TwoDigits | src/utils/timeUtils.ts:13 | a field below 100 prints as exactly two digits that read back as the field |
| TimeUtils.FieldsShape | src/utils/timeUtils.ts:13 | fields below 100 print as 11 characters HH:MM:SS.CC from which every field reads back |
| TimeUtils.FormatTime | src/utils/timeUtils.ts:6-14 | formatTime: the four padded fields joined as HH:MM:SS.CC; FormatTimeShape and LongHoursNotTruncated state its shape and read-back |
| TimeUtils.FormatTimeShape | src/utils/timeUtils.ts:6-14 | below 100 hours the clock string has length 11, separators at 2, 5, 8, and parses back to the fields |
| TimeUtils.LongHoursNotTruncated | src/utils/timeUtils.ts:6-14 | from 100 hours on, the characters before the nine-character tail are exactly the hours' decimal digits (no truncation to two) |
| Game.Ceil | src/pages/Game/index.tsx:55 | the least integer not below r |
| Game.CreateEnemy | src/pages/Game/index.tsx:46-72 | scale 1 + 2r; health is the ceiling of base times scale (base 3 for a boss, 1 otherwise) and equals maxHealth; speed 0.25 + 0.25r + 0.5 level; image 1 iff its draw is below 0.5; for draws in [0,1), normal health lies in [1,3] and boss health in [3,9] |
| Game.SeedEnemies | src/pages/Game/index.tsx:151-160 | eight enemies with ids 1..8, y in [3,18], bosses exactly at the third and fifth, level-0 speeds in [0.25, 0.5) |
| Game.CheckPlayerEnemyCollision | src/pages/Game/index.tsx:75-96 | at most as many as the input, and an enemy is reported iff it is listed and closer to the player than 4 + 3 scale; multiplicity and order are stated by CollisionMultiplicity and CollisionConcat |
| Game.CollisionMultiplicity | src/pages/Game/index.tsx:75-96 | each touching enemy is reported exactly as often as it occurs in the list, every other one not at all |
| Game.CollisionConcat | src/pages/Game/index.tsx:75-96 | reports come in list order: those of a concatenation are the first part's followed by the second part's |
| Game.MoveEnemies | src/pages/Game/index.tsx:222-228 | every kept enemy is above 100, and every enemy whose fall keeps it above 100 is kept, fallen by its speed; MovedFromFalls and MoveConcat state that nothing else is kept and the order |
| Game.MovedFromFalls | src/pages/Game/index.tsx:222-228 | every kept enemy is some input enemy after its fall: nothing is invented |
| Game.MoveConcat | src/pages/Game/index.tsx:222-228 | the move keeps list order: moving a concatenation moves each part |
| Game.HasId | src/pages/Game/index.tsx:259-261 | true iff some listed enemy has that id |
| Game.WithoutIds | src/pages/Game/index.tsx:259-261 | never longer than the input; membership, multiplicity and order are stated by WithoutIdsMembers, WithoutIdsMultiplicity and WithoutIdsConcat |
| Game.WithoutIdsMembers | src/pages/Game/index.tsx:259-261 | an enemy is kept iff it is in the list and its id is not among the crashed ones |
| Game.WithoutIdsMultiplicity | src/pages/Game/index.tsx:259-261 | an enemy whose id is not listed is kept exactly as often as it occurs, every other one is dropped |
| Game.WithoutIdsConcat | src/pages/Game/index.tsx:259-261 | removal by id keeps list order |
| Game.SurvivorsClearOfPlayer | src/pages/Game/index.tsx:231-261 | after removing the crashed enemies by id, no remaining enemy touches the player |
| Game.WithDefaultImage | src/pages/Game/index.tsx:277-280 | an enemy without image kind gets kind 1; every other field and every enemy that has a kind is unchanged |
| Game.Spawned | src/pages/Game/index.tsx:283-291 | the new enemy's id is the clock, it appears at (90r, -5), and it is a boss iff its draw is below 0.1 |
| Game.Elapsed | src/pages/Game/index.tsx:213-219 | the game clock is max(0, now - start - paused) |
| Game.Crashed | src/pages/Game/index.tsx:222-235 | every crashed enemy touches the player after the fall, and every enemy still in the field after its fall that touches the player has crashed; CrashedOne and CrashedConcat fix the count |
| Game.CrashedOne | src/pages/Game/index.tsx:222-252 | a single enemy crashes, once, exactly when it is in the field after its fall and touches the player |
| Game.CrashedConcat | src/pages/Game/index.tsx:222-252 | the crashes of a list are those of its parts in order, so the lives a tick costs are the number of enemies that crash |
| Game.Survivors | src/pages/Game/index.tsx:222-261 | the fallen enemies minus those that crashed, by id; SurvivorsClearOfPlayer and SurvivorsSafe state that they are above the bottom and clear of the player |
| Game.TickFn | src/pages/Game/index.tsx:211-292 | one tick as a function of the state before it: fall, crash, the bullet frame against the survivors, then Settle; GameSession.Tick is proved equal to it, and TickEnemiesSafe and TickSeparates state its invariants |
| Game.Settle | src/pages/Game/index.tsx:211-292 | the tick's bookkeeping: time is the elapsed clock; score grows by exactly 10 per kill; combo resets on a crash and then grows by the kills; lives drop by the crashes, floored at 0, and are 0 whenever the crashes use them up; an end is scheduled iff that happens while the end flag is unset; the state stays in range; the enemies are the remaining ones with the default image, in order, followed by the spawned enemy iff the spawn draw is below 0.02 + 0.03 level |
| Game.SafeAfterStep | src/pages/Game/index.tsx:264-265 | a bullet's step never moves an enemy, so enemies safe from the player and the bottom stay safe |
| Game.SafeAfterResolve | src/pages/Game/index.tsx:264-265 | the same over a whole frame of bullets |
| Game.SurvivorsSafe | src/pages/Game/index.tsx:222-261 | the enemies that survive the fall and the crash are above the bottom and clear of the player |
| Game.DefaultImageInPlace | src/pages/Game/index.tsx:277-280 | defaulting the image kind moves no enemy and keeps their sizes |
| Game.TickEnemiesSafe | src/pages/Game/index.tsx:211-292 | after a tick every enemy is above the bottom, and all but the one just spawned are clear of the player |
| Game.TickSeparates | src/pages/Game/index.tsx:211-292 | after a tick no surviving bullet overlaps an enemy other than the spawned one, surviving bullets are on screen, and kept enemies plus kills number at most the enemies before |
| Game.SettleSeparates | src/pages/Game/index.tsx:211-292 | settling keeps the remaining enemies in place (plus the spawned one last), so bullets separated from them stay separated and on screen |
| Game.GameSession.constructor | src/pages/Game/index.tsx:103-160 | time 0, score 0, three lives, not playing, level 0, the eight seed enemies, no submission |
| Game.GameSession.LoopStarted | src/pages/Game/index.tsx:203-209 | keeps the session invariant; starting the loop of a running game records the start time only if none is set; nothing else changes |
| Game.GameSession.Tick | src/pages/Game/index.tsx:203-295 | does nothing unless playing and not paused; otherwise the new state, enemies, bullets and end request are exactly the tick function's, and the session invariant (lives in [0,3], enemies above the bottom, one submission per session) is kept; only the game state, the enemies and the bullet list change |
| Game.GameSession.DifficultyTimerFired | src/pages/Game/index.tsx:298-306 | keeps the session invariant; the level goes up by one only while playing and not paused; nothing else changes |
| Game.GameSession.ShootEffect | src/pages/Game/index.tsx:309-367 | outside running play repeat-fire stops and nothing else happens; a rising shoot flag fires one bullet at (x, y - 5) and starts repeat-fire from there; a falling one stops it; a pause flag more than 1000 ms after the last arms the delayed pause; only repeat-fire, the armed pause, its time and the bullets can change |
| Game.GameSession.RepeatFireTimer | src/pages/Game/index.tsx:328-330 | while firing, appends exactly one bullet 5 above where firing started; otherwise nothing |
| Game.GameSession.PauseTimerFired | src/pages/Game/index.tsx:355-357 | an armed pause pauses the game; otherwise nothing in the session changes |
| Game.GameSession.StartGame | src/pages/Game/index.tsx:370-381 | playing, not paused, time 0, start at now and the paused totals zeroed; nothing else changes |
| Game.GameSession.PauseGame | src/pages/Game/index.tsx:383-402 | paused with the dialog shown, the pause start is now, the armed pause and repeat-fire are cancelled; nothing else changes |
| Game.GameSession.ResumeGame | src/pages/Game/index.tsx:404-414 | unpaused with the dialog closed; when a pause was being timed its length is added to the paused total, so the clock reads on from where the pause began; nothing else changes |
| Game.GameSession.FinishSession | src/pages/Game/index.tsx:416-481 | not playing, not paused, repeat-fire and armed pause cancelled, pause dialog closed, game-over dialog shown, end flag set; the score is submitted under a valid device id iff the flag was unset; level, enemies and clocks stay |
| Game.GameSession.EndGame | src/pages/Game/index.tsx:416-485 | nothing when the game-over dialog is up; otherwise ends the session as above and stops gesture control (gesture NONE, no actions, no bullets, id counter kept); level, enemies, clocks, player position and sensitivity stay |
| Game.GameSession.ResetSession | src/pages/Game/index.tsx:488-542 | initial game state, level 0, seed enemies, clocks, end flag, repeat-fire and armed pause cleared, and a new submission session opened; submissions and dialogs stay |
| Game.GameSession.ResetGame | src/pages/Game/index.tsx:488-542 | the reset above, plus no bullets and the player back at (50, 80) |
| Game.GameSession.HandleGameOverRestart | src/pages/Game/index.tsx:544-557 | closes the game-over dialog and resets: a new session with no bullets and the player at (50, 80); the pause dialog and submissions stay |
| Game.GameSession.RestartGame | src/pages/Game/index.tsx:569-586 | closes the pause dialog, resets and starts at once: the initial state but playing, start at now, seed enemies, level 0, repeat-fire, armed pause and its time cleared, no bullets, player at (50, 80), a new submission session; submissions stay |

## Findings

| source | as written | input that shows it | evidently intended | confidence | as-written member | corrected member |
|---|---|---|---|---|---|---|
| src/hooks/useGestureRecognition.ts:148-209 | the frame handler is registered once, from a callback with empty dependencies. It reads the hand position and the configuration of the first render, so the jump is always measured from (0.5, 0.5) and the base factor is always 0.2 | hand resting at (0.8, 0.8), new centroid (0.85, 0.8): the position follows with factor 0.9 to 0.845 instead of being damped to 0.81 | measure the jump from the current position and use the current base factor | not executed | GestureRecognition.RegisteredHandlerSkipsDamping | GestureRecognition.JitterUsesBaseFactor |

The rest of the model uses the corrected smoothing: `NextHandPosition` takes
the current position and factor, and `OnHandsResults` calls it.

## Left out

- Camera, detector and script loading, the animation-frame loop, and the camera error messages: these are I/O. The detector's output is the `hands` parameter of `OnHandsResults`.
- The score POST in `endGame` and its error handling: this is network I/O. The model keeps a submission log (device id and score), appended at most once per session.
- Timer scheduling: the 16 ms tick, the 20 s difficulty step, the 500 ms repeat-fire, the 200 ms delayed pause and the 100 ms action clear are methods the environment calls. Their interleaving is not modelled.
- Game.GameSession.Tick: the zero-delay `endGame` the tick schedules is returned as `scheduleEnd` for the caller to run. The tick uses the current player position, whereas the source's interval closure keeps the position from when the loop effect last ran.
- Game.GameSession.FinishSession: submits the current score. The source's `endGame`, called from the tick's closure, may read the score of an earlier render.
- GestureRecognition.GestureRecognizer.OnHandsResults: uses the current configuration. The registered handler also keeps the first render's threshold and debounce time; the smoothing part of this is listed under Findings.
- React state batching: each handler applies its updates at once, in source order.
- `calculateAngle` (acos), `updateMovementBounds` (it only logs), `startGestureControl` and `startCamera` (camera I/O), and the navigation handlers (ranking, home, confirm dialog): out of scope.
- The NaN an empty landmark list gives the centroid: `OnHandsResults` requires a non-empty first hand.
- Timestamps are integers; a fractional millisecond count in `formatTime` is not modelled.
- Caught exceptions in both classifiers: the modelled inputs cannot throw.
