/** The game-control hook: turns the recogniser's committed gesture and
    smoothed hand position into a player position inside the movement
    bounds, and into shoot / pause actions with their own 100 ms debounce.
    It owns the recogniser and the bullet store. */
module PlayerControl {
  import opened GestureTypes
  import opened GestureRecognition
  import opened Bullets

  /** Percentages of the play field. */
  datatype Position = Position(x: real, y: real)

  const MinX := 5.0
  const MaxX := 95.0
  const MinY := 10.0
  const MaxY := 90.0

  const InitialPosition := Position(50.0, 80.0)

  /** Minimum spacing of two shots, or of two pauses. */
  const ActionDebounceMs := 100

  /** Distance from the player's centre to the muzzle. */
  const MuzzleOffset := 8.0

  predicate InBounds(p: Position)
  {
    MinX <= p.x <= MaxX && MinY <= p.y <= MaxY
  }

  function Clamp(v: real, lo: real, hi: real): (r: real)
    requires lo <= hi
    ensures lo <= r <= hi
    ensures lo <= v <= hi ==> r == v
    ensures v < lo ==> r == lo
    ensures v > hi ==> r == hi
  {
    Max(lo, Min(hi, v))
  }

  function ClampSensitivity(v: real): (s: real)
    ensures 0.1 <= s <= 3.0
    ensures 0.1 <= v <= 3.0 ==> s == v
  {
    Clamp(v, 0.1, 3.0)
  }

  /** Where the hand points: x is mirrored, both axes scaled by the
      sensitivity, then clamped to the movement bounds. */
  function Target(hand: HandPosition, sensitivity: real): (t: Position)
    ensures InBounds(t)
    ensures MinX <= (1.0 - hand.x) * 100.0 * sensitivity <= MaxX ==> t.x == (1.0 - hand.x) * 100.0 * sensitivity
    ensures MinY <= hand.y * 100.0 * sensitivity <= MaxY ==> t.y == hand.y * 100.0 * sensitivity
  {
    Position(Clamp((1.0 - hand.x) * 100.0 * sensitivity, MinX, MaxX),
             Clamp(hand.y * 100.0 * sensitivity, MinY, MaxY))
  }

  /** FIST follows more slowly than OPEN_PALM; both speed up on a large jump. */
  function MovementFactor(kind: GestureType, maxDelta: real): (f: real)
    ensures 0.0 <= f <= 1.0
    ensures kind == Fist ==> (f == 0.6 <==> maxDelta > 15.0) && (f == 0.3 <==> maxDelta <= 15.0)
    ensures kind != Fist ==> (f == 0.8 <==> maxDelta > 10.0) && (f == 0.3 <==> maxDelta <= 10.0)
  {
    if kind == Fist then (if maxDelta > 15.0 then 0.6 else 0.3)
    else if maxDelta > 10.0 then 0.8 else 0.3
  }

  /** The next player position: a step from the last position toward the
      target; it never overshoots and so never leaves the bounds. */
  function NextPlayerPosition(last: Position, hand: HandPosition, sensitivity: real, kind: GestureType): (p: Position)
    ensures var t := Target(hand, sensitivity);
            Min(last.x, t.x) <= p.x <= Max(last.x, t.x) && Min(last.y, t.y) <= p.y <= Max(last.y, t.y)
    ensures InBounds(last) ==> InBounds(p)
  {
    var t := Target(hand, sensitivity);
    var f := MovementFactor(kind, Max(Abs(t.x - last.x), Abs(t.y - last.y)));
    Position(Smooth(last.x, t.x, f), Smooth(last.y, t.y, f))
  }

  datatype ActionKind = ShootAction | PauseAction

  /** Last time an action fired, 0 when it never did. */
  function LastAction(m: map<ActionKind, int>, a: ActionKind): int
  {
    if a in m then m[a] else 0
  }

  datatype ActionDecision = ActionDecision(actions: Actions, debounce: map<ActionKind, int>)

  /** Shoot on FIST (not while paused), pause on ONE (also while paused),
      each only more than 100 ms after its own last firing, which is then
      moved to `now`. */
  function DecideActions(kind: GestureType, now: int, isPaused: bool, m: map<ActionKind, int>): (d: ActionDecision)
    ensures d.actions.shoot <==> kind == Fist && !isPaused && now - LastAction(m, ShootAction) > ActionDebounceMs
    ensures d.actions.pause <==> kind == One && now - LastAction(m, PauseAction) > ActionDebounceMs
    ensures !(d.actions.shoot && d.actions.pause)
    ensures LastAction(d.debounce, ShootAction) == if d.actions.shoot then now else LastAction(m, ShootAction)
    ensures LastAction(d.debounce, PauseAction) == if d.actions.pause then now else LastAction(m, PauseAction)
  {
    var shoot := kind == Fist && !isPaused && now - LastAction(m, ShootAction) > ActionDebounceMs;
    var m1 := if shoot then m[ShootAction := now] else m;
    var pause := kind == One && now - LastAction(m, PauseAction) > ActionDebounceMs;
    var m2 := if pause then m1[PauseAction := now] else m1;
    ActionDecision(Actions(shoot, pause), m2)
  }

  /** Two shots fired by successive decisions are more than 100 ms apart. */
  lemma ShotsSpaced(k1: GestureType, t1: int, p1: bool, k2: GestureType, t2: int, p2: bool, m: map<ActionKind, int>)
    requires DecideActions(k1, t1, p1, m).actions.shoot
    requires DecideActions(k2, t2, p2, DecideActions(k1, t1, p1, m).debounce).actions.shoot
    ensures t2 - t1 > ActionDebounceMs
  {
  }

  class GameController {
    const recognizer: GestureRecognizer
    const bullets: BulletSystem
    var playerPosition: Position
    var lastPosition: Position
    var gameActions: Actions
    var sensitivity: real
    var actionDebounce: map<ActionKind, int>

    /** The player stays inside the bounds, the remembered last position is
        the displayed one, and the sensitivity stays in [0.1, 3]. */
    predicate Valid()
      reads this, bullets
    {
      bullets.Valid() && InBounds(playerPosition) && lastPosition == playerPosition &&
      0.1 <= sensitivity <= 3.0
    }

    /** Creating the controller also tunes its recogniser to smoothing 0.15
        and debounce 30 ms. */
    constructor (now: int)
      ensures fresh(recognizer) && fresh(bullets)
      ensures recognizer.config == DefaultConfig.(debounceTime := 30, smoothingFactor := 0.15)
      ensures recognizer.gestureState == GestureState(NoGesture, 0.0, now)
      ensures recognizer.gameControl == NeutralControl
      ensures bullets.bullets == []
      ensures playerPosition == InitialPosition && gameActions == NoActions
      ensures sensitivity == 1.0 && actionDebounce == map[]
      ensures Valid()
    {
      recognizer := new GestureRecognizer(now);
      bullets := new BulletSystem();
      playerPosition := InitialPosition;
      lastPosition := InitialPosition;
      gameActions := NoActions;
      sensitivity := 1.0;
      actionDebounce := map[];
      new;
      recognizer.UpdateConfig(ConfigPatch(None, None, Some(30), Some(0.15)));
    }

    /** While playing and not paused, OPEN_PALM and FIST move the player a
        step toward the hand's target; otherwise nothing moves. */
    method HandlePlayerMovement(isPlaying: bool, isPaused: bool)
      requires Valid()
      modifies this
      ensures Valid()
      ensures var k := recognizer.gestureState.kind;
              playerPosition ==
                if (k == OpenPalm || k == Fist) && recognizer.config.enableGesture && isPlaying && !isPaused
                then NextPlayerPosition(old(lastPosition), recognizer.handPosition, sensitivity, k)
                else old(playerPosition)
      ensures gameActions == old(gameActions) && sensitivity == old(sensitivity)
      ensures actionDebounce == old(actionDebounce)
    {
      var k := recognizer.gestureState.kind;
      if (k == OpenPalm || k == Fist) && recognizer.config.enableGesture && isPlaying && !isPaused {
        var newPosition := NextPlayerPosition(lastPosition, recognizer.handPosition, sensitivity, k);
        playerPosition := newPosition;
        lastPosition := newPosition;
      }
    }

    /** Turns the committed gesture into actions. A shot also puts a bullet
        at the muzzle, 8 points above the player's last position. Nothing
        happens when gestures are disabled or the game is not running. */
    method HandleGameActions(now: int, isPlaying: bool, isPaused: bool)
      requires Valid()
      modifies this, bullets
      ensures Valid()
      ensures !recognizer.config.enableGesture || !isPlaying ==>
                gameActions == old(gameActions) && actionDebounce == old(actionDebounce) &&
                bullets.bullets == old(bullets.bullets)
      ensures recognizer.config.enableGesture && isPlaying ==>
                var d := DecideActions(recognizer.gestureState.kind, now, isPaused, old(actionDebounce));
                gameActions == d.actions && actionDebounce == d.debounce &&
                bullets.bullets == old(bullets.bullets) +
                  (if d.actions.shoot
                   then [Bullet(old(bullets.nextId), lastPosition.x, lastPosition.y - MuzzleOffset, BulletSpeed)]
                   else [])
      ensures playerPosition == old(playerPosition) && sensitivity == old(sensitivity)
    {
      if !recognizer.config.enableGesture || !isPlaying {
        return;
      }
      var newActions := NoActions;
      var k := recognizer.gestureState.kind;
      if k == Fist && !isPaused {
        var lastShoot := LastAction(actionDebounce, ShootAction);
        if now - lastShoot > ActionDebounceMs {
          newActions := newActions.(shoot := true);
          actionDebounce := actionDebounce[ShootAction := now];
          bullets.CreateBullet(lastPosition.x, lastPosition.y - MuzzleOffset);
        }
      }
      if k == One {
        var lastPause := LastAction(actionDebounce, PauseAction);
        if now - lastPause > ActionDebounceMs {
          newActions := newActions.(pause := true);
          actionDebounce := actionDebounce[PauseAction := now];
        }
      }
      gameActions := newActions;
    }

    /** The action flags clear themselves 100 ms after they were raised. */
    method AutoClearActions()
      requires Valid()
      modifies this
      ensures Valid()
      ensures gameActions == NoActions
      ensures playerPosition == old(playerPosition) && actionDebounce == old(actionDebounce)
      ensures sensitivity == old(sensitivity)
    {
      if gameActions.shoot || gameActions.pause {
        gameActions := NoActions;
      }
    }

    method ResetPlayerPosition()
      requires Valid()
      modifies this`playerPosition, this`lastPosition
      ensures Valid()
      ensures playerPosition == InitialPosition && lastPosition == InitialPosition
      ensures gameActions == old(gameActions) && actionDebounce == old(actionDebounce)
      ensures sensitivity == old(sensitivity)
    {
      playerPosition := InitialPosition;
      lastPosition := InitialPosition;
    }

    method UpdateSensitivity(v: real)
      requires Valid()
      modifies this
      ensures Valid()
      ensures sensitivity == ClampSensitivity(v)
      ensures playerPosition == old(playerPosition) && gameActions == old(gameActions)
      ensures actionDebounce == old(actionDebounce)
    {
      sensitivity := ClampSensitivity(v);
    }

    /** Stops the camera, clears the actions and drops every bullet; the
        recogniser keeps its configuration, hand position and stabiliser,
        and the bullet id counter keeps counting. */
    method StopGestureControl(now: int)
      requires Valid()
      modifies this`gameActions, recognizer`gestureState, recognizer`gameControl, bullets
      ensures Valid()
      ensures recognizer.gestureState == GestureState(NoGesture, 0.0, now)
      ensures recognizer.gameControl == NeutralControl
      ensures recognizer.config == old(recognizer.config) && recognizer.handPosition == old(recognizer.handPosition)
      ensures recognizer.Snapshot() == old(recognizer.Snapshot())
      ensures gameActions == NoActions && bullets.bullets == [] && bullets.nextId == old(bullets.nextId)
      ensures playerPosition == old(playerPosition) && lastPosition == old(lastPosition)
      ensures sensitivity == old(sensitivity) && actionDebounce == old(actionDebounce)
    {
      recognizer.StopCamera(now);
      gameActions := NoActions;
      bullets.ClearBullets();
    }

    /** Flips gesture control on or off; the rest of the configuration, the
        gesture, the control intent, the hand position and the stabiliser
        stay, and so does the controller itself. */
    method ToggleGestureControl()
      requires Valid()
      modifies recognizer`config
      ensures Valid()
      ensures recognizer.config == old(recognizer.config).(enableGesture := !old(recognizer.config.enableGesture))
      ensures recognizer.gestureState == old(recognizer.gestureState)
      ensures recognizer.gameControl == old(recognizer.gameControl)
      ensures recognizer.handPosition == old(recognizer.handPosition)
      ensures recognizer.Snapshot() == old(recognizer.Snapshot())
    {
      recognizer.ToggleGesture();
    }
  }
}
