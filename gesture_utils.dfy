/** The stand-alone landmark classifier: finger tests on the 21 hand points,
    the fist and pointing predicates, and the first-match rule chain that maps
    the five finger flags to a gesture label and a confidence. */
module GestureUtils {
  import opened GestureTypes

  /** The hand model reports exactly this many landmarks per hand. */
  const LandmarkCount: nat := 21

  /** Squared Euclidean distance; `calculateDistance` returns its square
      root. No code of the core calls it, so the model keeps the square,
      which avoids real square roots. */
  function SquaredDistance(p: Point, q: Point): (d: real)
    ensures d >= 0.0
  {
    var dx := q.x - p.x;
    var dy := q.y - p.y;
    var dz := q.z - p.z;
    dx * dx + dy * dy + dz * dz
  }

  lemma SquaredDistanceSymmetric(p: Point, q: Point)
    ensures SquaredDistance(p, q) == SquaredDistance(q, p)
  {
  }

  /** A point is at distance zero from itself. */
  lemma SquaredDistanceSelf(p: Point)
    ensures SquaredDistance(p, p) == 0.0
  {
  }

  /** A finger is extended when its tip lies strictly above (smaller y than)
      both of its inner joints. */
  function IsFingerExtended(tip: Point, pip: Point, mcp: Point): (r: bool)
    ensures r <==> tip.y < Min(pip.y, mcp.y)
  {
    tip.y < pip.y && tip.y < mcp.y
  }

  /** Which of the five digits count as "up". */
  datatype Fingers = Fingers(thumb: bool, index: bool, middle: bool, ring: bool, pinky: bool)

  function Bit(b: bool): nat { if b then 1 else 0 }

  function UpCount(f: Fingers): (n: nat)
    ensures n <= 5
    ensures n == 0 <==> !f.thumb && !f.index && !f.middle && !f.ring && !f.pinky
  {
    Bit(f.thumb) + Bit(f.index) + Bit(f.middle) + Bit(f.ring) + Bit(f.pinky)
  }

  datatype Classification = Classification(kind: GestureType, confidence: real)

  // The five guards of the rule chain, in the order `recognizeGesture` tests them.
  predicate OnlyIndex(f: Fingers) { f.index && UpCount(f) == 1 }
  predicate IndexAndThumb(f: Fingers) {
    f.index && UpCount(f) == 2 && f.thumb && !f.middle && !f.ring && !f.pinky
  }
  predicate Closed(f: Fingers) { UpCount(f) <= 1 && !f.index }
  predicate WideOpen(f: Fingers) { UpCount(f) >= 3 && f.index && f.middle }
  predicate TwoOpen(f: Fingers) { UpCount(f) == 2 && f.index && f.middle }

  /** The first-match rule chain shared by both classifiers. Its contract
      characterises every label directly by the finger flags, independently of
      the order in which the rules are tried. */
  function Classify(f: Fingers): (c: Classification)
    ensures c.kind == One <==> f.index && !f.middle && !f.ring && !f.pinky
    ensures c.kind == Fist <==> !f.index && UpCount(f) <= 1
    ensures c.kind == OpenPalm <==> f.index && f.middle
    ensures c.kind == NoGesture <==>
              (f.index && !f.middle && (f.ring || f.pinky)) || (!f.index && UpCount(f) >= 2)
    ensures c.kind != Peace
    ensures c.confidence == 0.3 <==> c.kind == NoGesture
    ensures c.confidence == 0.8 <==>
              (c.kind == One && f.thumb) || (c.kind == OpenPalm && UpCount(f) == 2)
    ensures c.confidence == 0.3 || c.confidence == 0.8 || c.confidence == 0.9
  {
    if OnlyIndex(f) then Classification(One, 0.9)
    else if IndexAndThumb(f) then Classification(One, 0.8)
    else if Closed(f) then Classification(Fist, 0.9)
    else if WideOpen(f) then Classification(OpenPalm, 0.9)
    else if TwoOpen(f) then Classification(OpenPalm, 0.8)
    else Classification(NoGesture, 0.3)
  }

  /** No two guards of the chain can hold together, so the order in which
      `recognizeGesture` tries them never decides a result. */
  lemma RuleGuardsDisjoint(f: Fingers)
    ensures !(OnlyIndex(f) && IndexAndThumb(f))
    ensures !(OnlyIndex(f) && (Closed(f) || WideOpen(f) || TwoOpen(f)))
    ensures !(IndexAndThumb(f) && (Closed(f) || WideOpen(f) || TwoOpen(f)))
    ensures !(Closed(f) && (WideOpen(f) || TwoOpen(f)))
    ensures !(WideOpen(f) && TwoOpen(f))
  {
  }

  function IndexUp(l: seq<Point>): bool
    requires |l| >= LandmarkCount
  {
    IsFingerExtended(l[8], l[6], l[5])
  }

  function MiddleUp(l: seq<Point>): bool
    requires |l| >= LandmarkCount
  {
    IsFingerExtended(l[12], l[10], l[9])
  }

  function RingUp(l: seq<Point>): bool
    requires |l| >= LandmarkCount
  {
    IsFingerExtended(l[16], l[14], l[13])
  }

  function PinkyUp(l: seq<Point>): bool
    requires |l| >= LandmarkCount
  {
    IsFingerExtended(l[20], l[18], l[17])
  }

  /** The thumb test of this classifier: a strict chain tip < ip < mcp in y. */
  function ThumbChainUp(l: seq<Point>): bool
    requires |l| >= LandmarkCount
  {
    l[4].y < l[3].y && l[3].y < l[2].y
  }

  function FingersOf(l: seq<Point>): Fingers
    requires |l| >= LandmarkCount
  {
    Fingers(ThumbChainUp(l), IndexUp(l), MiddleUp(l), RingUp(l), PinkyUp(l))
  }

  /** Classifies a (possibly absent) landmark list. Absent or short input is
      the only way to get confidence 0; otherwise the rule chain decides. */
  function RecognizeGesture(landmarks: Option<seq<Point>>, now: int): (g: GestureState)
    ensures g.timestamp == now
    ensures g.kind != Peace
    ensures g.confidence == 0.0 || g.confidence == 0.3 || g.confidence == 0.8 || g.confidence == 0.9
    ensures 0.0 <= g.confidence <= 1.0
    ensures g.confidence == 0.0 <==> landmarks.None? || |landmarks.value| < LandmarkCount
    ensures g.confidence == 0.0 ==> g.kind == NoGesture
    ensures landmarks.Some? && |landmarks.value| >= LandmarkCount ==>
              g.kind == Classify(FingersOf(landmarks.value)).kind
  {
    if landmarks.None? || |landmarks.value| < LandmarkCount then
      GestureState(NoGesture, 0.0, now)
    else
      var c := Classify(FingersOf(landmarks.value));
      GestureState(c.kind, c.confidence, now)
  }

  /** Index, middle, ring and pinky all bent; the thumb is not consulted. */
  function IsFist(l: seq<Point>): (r: bool)
    ensures r <==> |l| >= LandmarkCount && !IndexUp(l) && !MiddleUp(l) && !RingUp(l) && !PinkyUp(l)
  {
    if |l| < LandmarkCount then false
    else
      var indexBent := !IsFingerExtended(l[8], l[6], l[5]);
      var middleBent := !IsFingerExtended(l[12], l[10], l[9]);
      var ringBent := !IsFingerExtended(l[16], l[14], l[13]);
      var pinkyBent := !IsFingerExtended(l[20], l[18], l[17]);
      indexBent && middleBent && ringBent && pinkyBent
  }

  /** The three other fingertips all lie below the index finger's middle joint. */
  function OthersBelowIndexPip(l: seq<Point>): bool
    requires |l| >= LandmarkCount
  {
    l[12].y > l[6].y && l[16].y > l[6].y && l[20].y > l[6].y
  }

  function IsPointingLeft(l: seq<Point>): (r: bool)
    ensures r <==> |l| >= LandmarkCount && IndexUp(l) && l[8].x < l[5].x && OthersBelowIndexPip(l)
  {
    if |l| < LandmarkCount then false
    else IndexUp(l) && l[8].x < l[5].x && OthersBelowIndexPip(l)
  }

  function IsPointingRight(l: seq<Point>): (r: bool)
    ensures r <==> |l| >= LandmarkCount && IndexUp(l) && l[8].x > l[5].x && OthersBelowIndexPip(l)
  {
    if |l| < LandmarkCount then false
    else IndexUp(l) && l[8].x > l[5].x && OthersBelowIndexPip(l)
  }

  /** Pointing left and pointing right exclude each other. */
  lemma PointingExclusive(l: seq<Point>)
    ensures !(IsPointingLeft(l) && IsPointingRight(l))
  {
  }

  /** A fist hand (as `IsFist` sees it) is always classified as FIST. */
  lemma FistHandClassifiedFist(l: seq<Point>, now: int)
    requires IsFist(l)
    ensures RecognizeGesture(Some(l), now) == GestureState(Fist, 0.9, now)
  {
  }

  /** A hand with only the middle finger up */
  function MiddleOnlyHand(): (l: seq<Point>)
    ensures |l| == LandmarkCount
  {
    seq(LandmarkCount, i => if i == 12 then Point(0.0, 0.0, 0.0) else Point(0.0, 1.0, 0.0))
  }

  /** The converse fails: a raised middle finger alone is still classified as
      FIST, although `IsFist` rejects it. */
  lemma FistLabelWithoutFistHand(now: int)
    ensures RecognizeGesture(Some(MiddleOnlyHand()), now).kind == Fist
    ensures !IsFist(MiddleOnlyHand())
  {
    var l := MiddleOnlyHand();
    assert MiddleUp(l);
    assert !IndexUp(l) && !RingUp(l) && !PinkyUp(l) && !ThumbChainUp(l);
  }
}
