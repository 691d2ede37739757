/** The gesture-recognition hook: its own landmark classifier, the mapping
    from a committed gesture to a control intent, the stabiliser (confidence
    filter, per-label debounce and the stricter gate for the pause gesture),
    hand-centroid smoothing, and the neutral resets on "no hand" and on
    stopping the camera. */
module GestureRecognition {
  import opened GestureTypes
  import opened GestureUtils

  // ---------------------------------------------------------------------
  // The hook's own classifier

  /** Every landmark the hook's classifier reads is present. */
  predicate RequiredPresent(l: seq<Option<Point>>)
    requires |l| >= LandmarkCount
  {
    l[4].Some? && l[3].Some? && l[2].Some? &&
    l[8].Some? && l[6].Some? && l[5].Some? &&
    l[12].Some? && l[10].Some? && l[9].Some? &&
    l[16].Some? && l[14].Some? && l[13].Some? &&
    l[20].Some? && l[18].Some? && l[17].Some?
  }

  /** Here the thumb, like every other digit, is up when its tip lies above
      both of its joints. */
  function LocalFingers(l: seq<Option<Point>>): Fingers
    requires |l| >= LandmarkCount && RequiredPresent(l)
  {
    Fingers(
      IsFingerExtended(l[4].value, l[3].value, l[2].value),
      IsFingerExtended(l[8].value, l[6].value, l[5].value),
      IsFingerExtended(l[12].value, l[10].value, l[9].value),
      IsFingerExtended(l[16].value, l[14].value, l[13].value),
      IsFingerExtended(l[20].value, l[18].value, l[17].value))
  }

  /** Short input or a missing joint gives NONE with confidence 0.1 (never an
      error); otherwise the shared rule chain decides. */
  function RecognizeLocal(l: seq<Option<Point>>, now: int): (g: GestureState)
    ensures g.timestamp == now
    ensures g.kind != Peace
    ensures g.confidence == 0.1 || g.confidence == 0.3 || g.confidence == 0.8 || g.confidence == 0.9
    ensures g.confidence == 0.1 <==> |l| < LandmarkCount || !RequiredPresent(l)
    ensures g.confidence == 0.1 ==> g.kind == NoGesture
    ensures |l| >= LandmarkCount && RequiredPresent(l) ==> g.kind == Classify(LocalFingers(l)).kind
  {
    if |l| < LandmarkCount || !RequiredPresent(l) then
      GestureState(NoGesture, 0.1, now)
    else
      var c := Classify(LocalFingers(l));
      GestureState(c.kind, c.confidence, now)
  }

  /** A detector frame seen as the hook sees it: every slot present. */
  function Lift(l: seq<Point>): (r: seq<Option<Point>>)
    ensures |r| == |l|
    ensures forall i :: 0 <= i < |l| ==> r[i] == Some(l[i])
  {
    seq(|l|, i requires 0 <= i < |l| => Some(l[i]))
  }

  function LocalThumbUp(l: seq<Point>): bool
    requires |l| >= LandmarkCount
  {
    IsFingerExtended(l[4], l[3], l[2])
  }

  /** The chain test of the stand-alone classifier implies the hook's test. */
  lemma ThumbChainImpliesLocalThumb(l: seq<Point>)
    requires |l| >= LandmarkCount
    ensures ThumbChainUp(l) ==> LocalThumbUp(l)
  {
  }

  /** On a full frame the two classifiers agree whenever their thumb tests do;
      on a short frame they differ only in the confidence, 0 against 0.1. */
  lemma ClassifiersAgreeUnlessThumb(l: seq<Point>, now: int)
    requires |l| >= LandmarkCount ==> ThumbChainUp(l) == LocalThumbUp(l)
    ensures |l| >= LandmarkCount ==> RecognizeLocal(Lift(l), now) == RecognizeGesture(Some(l), now)
    ensures |l| < LandmarkCount ==>
              RecognizeLocal(Lift(l), now) == GestureState(NoGesture, 0.1, now) &&
              RecognizeGesture(Some(l), now) == GestureState(NoGesture, 0.0, now)
  {
    if |l| >= LandmarkCount {
      var lifted := Lift(l);
      assert RequiredPresent(lifted);
      assert LocalFingers(lifted) == FingersOf(l);
    }
  }

  /** Index finger up and the thumb tip above both thumb joints, but the thumb
      joints themselves out of order (y: tip 0, ip 2, mcp 1). */
  function CrookedThumbHand(): (l: seq<Point>)
    ensures |l| == LandmarkCount
  {
    seq(LandmarkCount, i =>
      if i == 4 || i == 8 then Point(0.0, 0.0, 0.0)
      else if i == 3 then Point(0.0, 2.0, 0.0)
      else Point(0.0, 1.0, 0.0))
  }

  /** The thumb tests really differ: on this hand the hook reports the
      index-and-thumb ONE (0.8), the stand-alone classifier the index-only ONE (0.9). */
  lemma ThumbTestsDisagree(now: int)
    ensures LocalThumbUp(CrookedThumbHand()) && !ThumbChainUp(CrookedThumbHand())
    ensures RecognizeLocal(Lift(CrookedThumbHand()), now) == GestureState(One, 0.8, now)
    ensures RecognizeGesture(Some(CrookedThumbHand()), now) == GestureState(One, 0.9, now)
  {
    var l := CrookedThumbHand();
    var lifted := Lift(l);
    assert RequiredPresent(lifted);
    assert LocalFingers(lifted) == Fingers(true, true, false, false, false);
    assert FingersOf(l) == Fingers(false, true, false, false, false);
  }

  // ---------------------------------------------------------------------
  // Control intent

  /** OPEN_PALM moves (the hand position mapped from [0,1] to [-1,1]), FIST
      shoots, ONE pauses, anything else is the neutral intent. */
  function ConvertToGameControl(kind: GestureType, x: real, y: real): (c: GameControl)
    ensures c.actions.shoot <==> kind == Fist
    ensures c.actions.pause <==> kind == One
    ensures !(c.actions.shoot && c.actions.pause)
    ensures kind != OpenPalm ==> c.move == Move(0.0, 0.0)
    ensures kind == OpenPalm ==> c.move.x / 2.0 + 0.5 == x && c.move.y / 2.0 + 0.5 == y
    ensures kind == OpenPalm && 0.0 <= x <= 1.0 && 0.0 <= y <= 1.0 ==>
              -1.0 <= c.move.x <= 1.0 && -1.0 <= c.move.y <= 1.0
  {
    match kind
    case OpenPalm => GameControl(Move((x - 0.5) * 2.0, (y - 0.5) * 2.0), NoActions)
    case Fist => GameControl(Move(0.0, 0.0), Actions(true, false))
    case One => GameControl(Move(0.0, 0.0), Actions(false, true))
    case _ => NeutralControl
  }

  // ---------------------------------------------------------------------
  // Stabiliser

  /** The pause-gesture stability track; `kind` is either absent or ONE. */
  datatype Track = Track(kind: Option<GestureType>, startTime: int, count: int)

  const NoTrack := Track(None, 0, 0)

  const PauseFrames := 3
  const PauseHoldMs := 800
  const PauseDebounceMs := 1500

  /** The stabiliser's own state: last emission time per label, and the track. */
  datatype Stabilizer = Stabilizer(debounce: map<GestureType, int>, track: Track)

  /** Last emission of a label, 0 when it was never emitted. */
  function LastEmitted(m: map<GestureType, int>, k: GestureType): int
  {
    if k in m then m[k] else 0
  }

  /** Debounce window of a non-pause label. */
  function DebounceFor(k: GestureType, config: GestureConfig): (w: int)
    ensures k == OpenPalm ==> w == 50
    ensures k == Fist ==> w == 100
    ensures k != OpenPalm && k != Fist ==> w == config.debounceTime
  {
    if k == OpenPalm then 50 else if k == Fist then 100 else config.debounceTime
  }

  datatype Outcome = Outcome(next: Stabilizer, emit: bool)

  /** One classified frame through the stabiliser. */
  function Stabilize(s: Stabilizer, g: GestureState, now: int, config: GestureConfig): (o: Outcome)
    // a frame below the confidence threshold changes nothing
    ensures g.confidence < config.confidenceThreshold ==> o == Outcome(s, false)
    // emission records `now` for that label only; otherwise the map is kept
    ensures o.next.debounce == if o.emit then s.debounce[g.kind := now] else s.debounce
    // a first ONE frame opens a track and emits nothing
    ensures g.confidence >= config.confidenceThreshold && g.kind == One && s.track.kind != Some(One) ==>
              o == Outcome(Stabilizer(s.debounce, Track(Some(One), now, 1)), false)
    // ONE is emitted only after three tracked frames over 800 ms, 1500 ms after the last ONE
    ensures o.emit && g.kind == One ==>
              s.track.kind == Some(One) && s.track.count + 1 >= PauseFrames &&
              now - s.track.startTime >= PauseHoldMs &&
              now - LastEmitted(s.debounce, One) >= PauseDebounceMs
    // once count and hold time are met the track closes, emitted or not
    ensures g.confidence >= config.confidenceThreshold && g.kind == One && s.track.kind == Some(One) ==>
              (o.next.track == NoTrack <==>
                 s.track.count + 1 >= PauseFrames && now - s.track.startTime >= PauseHoldMs)
    ensures g.confidence >= config.confidenceThreshold && g.kind == One && s.track.kind == Some(One) &&
            s.track.count + 1 >= PauseFrames && now - s.track.startTime >= PauseHoldMs ==>
              (o.emit <==> now - LastEmitted(s.debounce, One) >= PauseDebounceMs)
    // before count and hold time are met a further ONE frame only counts, emitting nothing
    ensures g.confidence >= config.confidenceThreshold && g.kind == One && s.track.kind == Some(One) &&
            !(s.track.count + 1 >= PauseFrames && now - s.track.startTime >= PauseHoldMs) ==>
              o == Outcome(Stabilizer(s.debounce, s.track.(count := s.track.count + 1)), false)
    // any other label above the threshold clears the track and passes its debounce window
    ensures g.confidence >= config.confidenceThreshold && g.kind != One ==>
              o.next.track == NoTrack &&
              (o.emit <==> now - LastEmitted(s.debounce, g.kind) >= DebounceFor(g.kind, config))
  {
    if g.confidence < config.confidenceThreshold then
      Outcome(s, false)
    else if g.kind == One then
      if s.track.kind == Some(One) then
        var count := s.track.count + 1;
        if count >= PauseFrames && now - s.track.startTime >= PauseHoldMs then
          if now - LastEmitted(s.debounce, One) >= PauseDebounceMs then
            Outcome(Stabilizer(s.debounce[One := now], NoTrack), true)
          else
            Outcome(Stabilizer(s.debounce, NoTrack), false)
        else
          Outcome(Stabilizer(s.debounce, s.track.(count := count)), false)
      else
        Outcome(Stabilizer(s.debounce, Track(Some(One), now, 1)), false)
    else if now - LastEmitted(s.debounce, g.kind) < DebounceFor(g.kind, config) then
      Outcome(Stabilizer(s.debounce, NoTrack), false)
    else
      Outcome(Stabilizer(s.debounce[g.kind := now], NoTrack), true)
  }

  /** A classified frame together with the clock reading when it is processed. */
  datatype Event = Event(g: GestureState, now: int)

  datatype Trace = Trace(final: Stabilizer, emitted: seq<Event>)

  /** Feeds a sequence of frames through the stabiliser, collecting the emitted ones. */
  function Run(s: Stabilizer, evs: seq<Event>, config: GestureConfig): (t: Trace)
    ensures |t.emitted| <= |evs|
    decreases |evs|
  {
    if evs == [] then Trace(s, [])
    else
      var o := Stabilize(s, evs[0].g, evs[0].now, config);
      var rest := Run(o.next, evs[1..], config);
      Trace(rest.final, (if o.emit then [evs[0]] else []) + rest.emitted)
  }

  /** Every ONE emitted in a run comes at least 1500 ms after the last ONE
      emitted before the run. */
  lemma {:induction false} PauseEmissionsAfterLast(s: Stabilizer, evs: seq<Event>, config: GestureConfig)
    ensures forall e :: e in Run(s, evs, config).emitted && e.g.kind == One ==>
              e.now >= LastEmitted(s.debounce, One) + PauseDebounceMs
    decreases |evs|
  {
    if evs != [] {
      var o := Stabilize(s, evs[0].g, evs[0].now, config);
      PauseEmissionsAfterLast(o.next, evs[1..], config);
      assert LastEmitted(o.next.debounce, One) >= LastEmitted(s.debounce, One);
    }
  }

  /** Any two ONE emissions of a run are at least 1500 ms apart: a second
      pause burst within 1500 ms of an emitted pause emits nothing. */
  predicate PausesSpaced(es: seq<Event>)
  {
    forall i, j :: 0 <= i < j < |es| && es[i].g.kind == One && es[j].g.kind == One ==>
      es[j].now >= es[i].now + PauseDebounceMs
  }

  /** Prepending an emission keeps the spacing when it is not a pause, or
      when every later pause comes 1500 ms after it. */
  lemma SpacedCons(e: Event, rest: seq<Event>)
    requires PausesSpaced(rest)
    requires e.g.kind == One ==>
               forall x :: x in rest && x.g.kind == One ==> x.now >= e.now + PauseDebounceMs
    ensures PausesSpaced([e] + rest)
  {
    var es := [e] + rest;
    forall i, j | 0 <= i < j < |es| && es[i].g.kind == One && es[j].g.kind == One
      ensures es[j].now >= es[i].now + PauseDebounceMs
    {
      assert es[j] == rest[j - 1];
      if i > 0 {
        assert es[i] == rest[i - 1];
      }
    }
  }

  lemma {:induction false} PauseEmissionsSpaced(s: Stabilizer, evs: seq<Event>, config: GestureConfig)
    ensures PausesSpaced(Run(s, evs, config).emitted)
    decreases |evs|
  {
    if evs != [] {
      var o := Stabilize(s, evs[0].g, evs[0].now, config);
      var rest := Run(o.next, evs[1..], config);
      PauseEmissionsSpaced(o.next, evs[1..], config);
      if o.emit {
        if evs[0].g.kind == One {
          PauseEmissionsAfterLast(o.next, evs[1..], config);
          assert LastEmitted(o.next.debounce, One) == evs[0].now;
        }
        SpacedCons(evs[0], rest.emitted);
        assert Run(s, evs, config).emitted == [evs[0]] + rest.emitted;
      } else {
        assert Run(s, evs, config).emitted == rest.emitted;
      }
    }
  }

  /** Frames of one non-pause label arriving inside its debounce window after
      its last emission are all suppressed. */
  lemma {:induction false} DebouncedLabelSilent(
    s: Stabilizer, evs: seq<Event>, config: GestureConfig, k: GestureType, t: int)
    requires k != One
    requires LastEmitted(s.debounce, k) == t
    requires forall i :: 0 <= i < |evs| ==> evs[i].g.kind == k && evs[i].now < t + DebounceFor(k, config)
    ensures Run(s, evs, config).emitted == []
    decreases |evs|
  {
    if evs != [] {
      var o := Stabilize(s, evs[0].g, evs[0].now, config);
      assert !o.emit;
      DebouncedLabelSilent(o.next, evs[1..], config, k, t);
    }
  }

  /** A burst of frames of one non-pause label that all fall within the
      label's debounce window of the first one, which passes, emits exactly
      that first frame (for OPEN_PALM the window is 50 ms). */
  lemma BurstEmitsOnce(s: Stabilizer, evs: seq<Event>, config: GestureConfig, k: GestureType)
    requires k != One && |evs| >= 1
    requires forall i :: 0 <= i < |evs| ==>
               evs[i].g.kind == k && evs[i].now < evs[0].now + DebounceFor(k, config)
    requires evs[0].g.confidence >= config.confidenceThreshold
    requires evs[0].now - LastEmitted(s.debounce, k) >= DebounceFor(k, config)
    ensures Run(s, evs, config).emitted == [evs[0]]
  {
    var o := Stabilize(s, evs[0].g, evs[0].now, config);
    assert o.emit && LastEmitted(o.next.debounce, k) == evs[0].now;
    DebouncedLabelSilent(o.next, evs[1..], config, k, evs[0].now);
  }

  /** Three above-threshold ONE frames spanning at least 800 ms, 1500 ms after
      the last emitted ONE, emit exactly one pause, on the third frame. */
  lemma PauseAfterThreeStableFrames(s: Stabilizer, config: GestureConfig, a: Event, b: Event, c: Event)
    requires s.track.kind != Some(One)
    requires a.g.kind == One && b.g.kind == One && c.g.kind == One
    requires a.g.confidence >= config.confidenceThreshold
    requires b.g.confidence >= config.confidenceThreshold
    requires c.g.confidence >= config.confidenceThreshold
    requires c.now - a.now >= PauseHoldMs
    requires c.now - LastEmitted(s.debounce, One) >= PauseDebounceMs
    ensures Run(s, [a, b, c], config).emitted == [c]
    ensures Run(s, [a, b, c], config).final.track == NoTrack
  {
    var o1 := Stabilize(s, a.g, a.now, config);
    var o2 := Stabilize(o1.next, b.g, b.now, config);
    var o3 := Stabilize(o2.next, c.g, c.now, config);
    assert o2.next.track == Track(Some(One), a.now, 2) && !o2.emit;
    assert o3.emit && o3.next.track == NoTrack;
    assert [a, b, c][1..] == [b, c] && [b, c][1..] == [c] && [c][1..] == [];
    assert Run(o2.next, [c], config) == Trace(o3.next, [c]);
    assert Run(o1.next, [b, c], config) == Trace(o3.next, [c]);
  }

  /** Two ONE frames followed by any other above-threshold frame never emit a
      pause, and leave no track behind. */
  lemma TwoPauseFramesThenOther(s: Stabilizer, config: GestureConfig, a: Event, b: Event, c: Event)
    requires s.track.kind != Some(One)
    requires a.g.kind == One && b.g.kind == One && c.g.kind != One
    requires c.g.confidence >= config.confidenceThreshold
    ensures forall e :: e in Run(s, [a, b, c], config).emitted ==> e.g.kind != One
    ensures Run(s, [a, b, c], config).final.track == NoTrack
  {
    var o1 := Stabilize(s, a.g, a.now, config);
    var o2 := Stabilize(o1.next, b.g, b.now, config);
    var o3 := Stabilize(o2.next, c.g, c.now, config);
    assert !o1.emit && o1.next.track.kind == Some(One) ==> o1.next.track.count == 1;
    assert !o2.emit && o3.next.track == NoTrack;
    assert [a, b, c][1..] == [b, c] && [b, c][1..] == [c] && [c][1..] == [];
    var tail := if o3.emit then [c] else [];
    assert Run(o2.next, [c], config) == Trace(o3.next, tail);
    assert Run(o1.next, [b, c], config) == Trace(o3.next, tail);
    assert Run(s, [a, b, c], config) == Trace(o3.next, tail);
  }

  // ---------------------------------------------------------------------
  // Hand-centroid smoothing

  function SumX(l: seq<Point>): real
  {
    if l == [] then 0.0 else SumX(l[..|l| - 1]) + l[|l| - 1].x
  }

  function SumY(l: seq<Point>): real
  {
    if l == [] then 0.0 else SumY(l[..|l| - 1]) + l[|l| - 1].y
  }

  predicate InUnitSquare(l: seq<Point>)
  {
    forall i :: 0 <= i < |l| ==> 0.0 <= l[i].x <= 1.0 && 0.0 <= l[i].y <= 1.0
  }

  lemma {:induction false} SumsBounded(l: seq<Point>)
    requires InUnitSquare(l)
    ensures 0.0 <= SumX(l) <= |l| as real && 0.0 <= SumY(l) <= |l| as real
  {
    if l != [] {
      SumsBounded(l[..|l| - 1]);
    }
  }

  /** The mean of the landmark x (resp. y) coordinates. */
  function CentroidX(l: seq<Point>): real
    requires |l| > 0
  {
    SumX(l) / (|l| as real)
  }

  function CentroidY(l: seq<Point>): real
    requires |l| > 0
  {
    SumY(l) / (|l| as real)
  }

  /** Landmarks in the unit square have their centroid in the unit square. */
  lemma CentroidInUnitSquare(l: seq<Point>)
    requires |l| > 0 && InUnitSquare(l)
    ensures 0.0 <= CentroidX(l) <= 1.0 && 0.0 <= CentroidY(l) <= 1.0
  {
    SumsBounded(l);
    var n := |l| as real;
    DivideBounded(SumX(l), n);
    DivideBounded(SumY(l), n);
  }

  lemma DivideBounded(s: real, n: real)
    requires n > 0.0 && 0.0 <= s <= n
    ensures 0.0 <= s / n <= 1.0
  {
  }

  /** 0.9 on a jump of more than 0.1 in either axis, otherwise the base factor. */
  function SmoothingFactor(prevX: real, prevY: real, cx: real, cy: real, base: real): (f: real)
    ensures Abs(cx - prevX) > 0.1 || Abs(cy - prevY) > 0.1 ==> f == 0.9
    ensures 0.0 <= base <= 1.0 ==> 0.0 <= f <= 1.0
  {
    if Max(Abs(cx - prevX), Abs(cy - prevY)) > 0.1 then 0.9 else base
  }

  /** Exponential smoothing toward the raw value. */
  function Smooth(prev: real, raw: real, f: real): (r: real)
    ensures 0.0 <= f <= 1.0 ==> Min(prev, raw) <= r <= Max(prev, raw)
    ensures f == 0.0 ==> r == prev
    ensures f == 1.0 ==> r == raw
  {
    var r := prev + (raw - prev) * f;
    StepBetween(prev, raw, f);
    r
  }

  lemma StepBetween(prev: real, raw: real, f: real)
    ensures 0.0 <= f <= 1.0 ==> Min(prev, raw) <= prev + (raw - prev) * f <= Max(prev, raw)
  {
    if 0.0 <= f <= 1.0 {
      var d := raw - prev;
      var e := if d >= 0.0 then d else -d;
      ProductNonNegative(e, f);
      ProductNonNegative(e, 1.0 - f);
      assert e * (1.0 - f) == e - e * f;
    }
  }

  lemma ProductNonNegative(a: real, b: real)
    requires a >= 0.0 && b >= 0.0
    ensures a * b >= 0.0
  {
  }

  function Triples(l: seq<Point>): (r: seq<seq<real>>)
    ensures |r| == |l|
    ensures forall i :: 0 <= i < |l| ==> r[i] == [l[i].x, l[i].y, l[i].z]
  {
    seq(|l|, i requires 0 <= i < |l| => [l[i].x, l[i].y, l[i].z])
  }

  /** The new hand position for a frame: the smoothed centroid plus the raw landmarks. */
  function NextHandPosition(prev: HandPosition, l: seq<Point>, base: real): (h: HandPosition)
    requires |l| > 0
    ensures h.landmarks == Triples(l)
    ensures 0.0 <= base <= 1.0 ==>
              Min(prev.x, CentroidX(l)) <= h.x <= Max(prev.x, CentroidX(l)) &&
              Min(prev.y, CentroidY(l)) <= h.y <= Max(prev.y, CentroidY(l))
  {
    var cx, cy := CentroidX(l), CentroidY(l);
    var f := SmoothingFactor(prev.x, prev.y, cx, cy, base);
    HandPosition(Smooth(prev.x, cx, f), Smooth(prev.y, cy, f), Triples(l))
  }

  /** Once the hand position and every landmark lie in the unit square, and
      the base factor is a proper fraction, the hand position stays there. */
  lemma HandPositionStaysInUnitSquare(prev: HandPosition, l: seq<Point>, base: real)
    requires 0.0 <= prev.x <= 1.0 && 0.0 <= prev.y <= 1.0
    requires |l| > 0 && InUnitSquare(l) && 0.0 <= base <= 1.0
    ensures var h := NextHandPosition(prev, l, base); 0.0 <= h.x <= 1.0 && 0.0 <= h.y <= 1.0
  {
    CentroidInUnitSquare(l);
  }

  /** The handler as registered with the detector measures the jump from the
      initial position (0.5, 0.5) and uses the initial base factor 0.2,
      whatever the current position and configuration are. */
  function RegisteredSmoothingFactor(cx: real, cy: real): real
  {
    SmoothingFactor(0.5, 0.5, cx, cy, DefaultConfig.smoothingFactor)
  }

  /** Intended: a jitter of at most 0.1 from the current position is damped by
      the configured base factor. */
  lemma JitterUsesBaseFactor(prevX: real, prevY: real, cx: real, cy: real, base: real)
    requires Abs(cx - prevX) <= 0.1 && Abs(cy - prevY) <= 0.1
    ensures SmoothingFactor(prevX, prevY, cx, cy, base) == base
  {
  }

  /** As registered, a hand resting away from the centre is not damped: a
      jitter of 0.05 at x = 0.8 is followed with factor 0.9 instead of 0.2. */
  lemma RegisteredHandlerSkipsDamping()
    ensures SmoothingFactor(0.8, 0.8, 0.85, 0.8, 0.2) == 0.2
    ensures RegisteredSmoothingFactor(0.85, 0.8) == 0.9
    ensures Smooth(0.8, 0.85, RegisteredSmoothingFactor(0.85, 0.8)) == 0.845
    ensures Smooth(0.8, 0.85, SmoothingFactor(0.8, 0.8, 0.85, 0.8, 0.2)) == 0.81
  {
  }

  // ---------------------------------------------------------------------
  // The hook's state

  /** Fields of a partial configuration update; absent fields are kept. */
  datatype ConfigPatch = ConfigPatch(
    enableGesture: Option<bool>,
    confidenceThreshold: Option<real>,
    debounceTime: Option<int>,
    smoothingFactor: Option<real>)

  function Patched(c: GestureConfig, p: ConfigPatch): (r: GestureConfig)
    ensures p.enableGesture.None? ==> r.enableGesture == c.enableGesture
    ensures p.enableGesture.Some? ==> r.enableGesture == p.enableGesture.value
    ensures p.confidenceThreshold.None? ==> r.confidenceThreshold == c.confidenceThreshold
    ensures p.confidenceThreshold.Some? ==> r.confidenceThreshold == p.confidenceThreshold.value
    ensures p.debounceTime.None? ==> r.debounceTime == c.debounceTime
    ensures p.debounceTime.Some? ==> r.debounceTime == p.debounceTime.value
    ensures p.smoothingFactor.None? ==> r.smoothingFactor == c.smoothingFactor
    ensures p.smoothingFactor.Some? ==> r.smoothingFactor == p.smoothingFactor.value
  {
    GestureConfig(
      if p.enableGesture.Some? then p.enableGesture.value else c.enableGesture,
      if p.confidenceThreshold.Some? then p.confidenceThreshold.value else c.confidenceThreshold,
      if p.debounceTime.Some? then p.debounceTime.value else c.debounceTime,
      if p.smoothingFactor.Some? then p.smoothingFactor.value else c.smoothingFactor)
  }

  class GestureRecognizer {
    var config: GestureConfig
    var gestureState: GestureState
    var handPosition: HandPosition
    var gameControl: GameControl
    var debounce: map<GestureType, int>
    var track: Track

    function Snapshot(): Stabilizer
      reads this
    {
      Stabilizer(debounce, track)
    }

    constructor (now: int)
      ensures config == DefaultConfig
      ensures gestureState == GestureState(NoGesture, 0.0, now)
      ensures handPosition == HandPosition(0.5, 0.5, [])
      ensures gameControl == NeutralControl
      ensures debounce == map[] && track == NoTrack
    {
      config := DefaultConfig;
      gestureState := GestureState(NoGesture, 0.0, now);
      handPosition := HandPosition(0.5, 0.5, []);
      gameControl := NeutralControl;
      debounce := map[];
      track := NoTrack;
    }

    /** Passes one classified frame through the stabiliser; an emitted frame
        becomes the current gesture and its control intent. */
    method UpdateGestureState(g: GestureState, x: real, y: real, now: int)
      modifies this
      ensures var o := Stabilize(old(Snapshot()), g, now, config);
              Snapshot() == o.next &&
              gestureState == (if o.emit then g else old(gestureState)) &&
              gameControl == (if o.emit then ConvertToGameControl(g.kind, x, y) else old(gameControl))
      ensures config == old(config) && handPosition == old(handPosition)
    {
      if g.confidence < config.confidenceThreshold {
        return;
      }
      if g.kind == One {
        if track.kind == Some(One) {
          track := track.(count := track.count + 1);
          if track.count >= PauseFrames && now - track.startTime >= PauseHoldMs {
            var lastTime := LastEmitted(debounce, One);
            if now - lastTime >= PauseDebounceMs {
              debounce := debounce[One := now];
              gestureState := g;
              gameControl := ConvertToGameControl(g.kind, x, y);
            }
            track := NoTrack;
          }
        } else {
          track := Track(Some(One), now, 1);
        }
        return;
      } else {
        track := NoTrack;
      }
      var lastTime := LastEmitted(debounce, g.kind);
      var window := config.debounceTime;
      if g.kind == OpenPalm {
        window := 50;
      } else if g.kind == Fist {
        window := 100;
      }
      if now - lastTime < window {
        return;
      }
      debounce := debounce[g.kind := now];
      gestureState := g;
      gameControl := ConvertToGameControl(g.kind, x, y);
    }

    /** The detector's per-frame callback. No hand resets the gesture and the
        control intent to neutral and keeps the hand position; a hand moves
        the smoothed position, is classified and goes through the stabiliser
        together with its raw centroid. */
    method OnHandsResults(hands: seq<seq<Point>>, now: int)
      requires |hands| > 0 ==> |hands[0]| > 0
      modifies this
      ensures config == old(config)
      ensures |hands| == 0 ==>
                gestureState == GestureState(NoGesture, 0.0, now) && gameControl == NeutralControl &&
                handPosition == old(handPosition) && Snapshot() == old(Snapshot())
      ensures |hands| > 0 ==>
                var l := hands[0];
                var g := RecognizeLocal(Lift(l), now);
                var o := Stabilize(old(Snapshot()), g, now, config);
                handPosition == NextHandPosition(old(handPosition), l, config.smoothingFactor) &&
                Snapshot() == o.next &&
                gestureState == (if o.emit then g else old(gestureState)) &&
                gameControl ==
                  (if o.emit then ConvertToGameControl(g.kind, CentroidX(l), CentroidY(l))
                   else old(gameControl))
    {
      if |hands| == 0 {
        gestureState := GestureState(NoGesture, 0.0, now);
        gameControl := NeutralControl;
        return;
      }
      var landmarks := hands[0];
      var centerX := CentroidX(landmarks);
      var centerY := CentroidY(landmarks);
      handPosition := NextHandPosition(handPosition, landmarks, config.smoothingFactor);
      var gesture := RecognizeLocal(Lift(landmarks), now);
      UpdateGestureState(gesture, centerX, centerY, now);
    }

    /** Stopping the camera resets the gesture and the control intent; the
        stabiliser's debounce map and track are kept. */
    method StopCamera(now: int)
      modifies this`gestureState, this`gameControl
      ensures gestureState == GestureState(NoGesture, 0.0, now)
      ensures gameControl == NeutralControl
      ensures config == old(config) && handPosition == old(handPosition)
      ensures Snapshot() == old(Snapshot())
    {
      gestureState := GestureState(NoGesture, 0.0, now);
      gameControl := NeutralControl;
    }

    method ToggleGesture()
      modifies this`config
      ensures config == old(config).(enableGesture := !old(config).enableGesture)
      ensures gestureState == old(gestureState) && gameControl == old(gameControl)
      ensures handPosition == old(handPosition) && Snapshot() == old(Snapshot())
    {
      config := config.(enableGesture := !config.enableGesture);
    }

    method UpdateConfig(patch: ConfigPatch)
      modifies this
      ensures config == Patched(old(config), patch)
      ensures gestureState == old(gestureState) && gameControl == old(gameControl)
      ensures handPosition == old(handPosition) && Snapshot() == old(Snapshot())
    {
      config := Patched(config, patch);
    }
  }
}
