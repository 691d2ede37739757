/** Shared value types of the gesture pipeline: the gesture labels, landmark
    points, the classifier's output record, the hand position, the control
    intent and the recogniser's tunable configuration. */
module GestureTypes {

  datatype Option<T> = None | Some(value: T)

  /** The five gesture labels; `Peace` is declared but no classifier produces it. */
  datatype GestureType = NoGesture | Fist | OpenPalm | One | Peace

  /** One landmark reported by the hand detector (normalised coordinates). */
  datatype Point = Point(x: real, y: real, z: real)

  /** A classified frame: label, confidence in [0,1] and the time it was made. */
  datatype GestureState = GestureState(kind: GestureType, confidence: real, timestamp: int)

  /** Smoothed hand centroid plus the raw landmarks as [x, y, z] triples. */
  datatype HandPosition = HandPosition(x: real, y: real, landmarks: seq<seq<real>>)

  datatype Move = Move(x: real, y: real)
  datatype Actions = Actions(shoot: bool, pause: bool)

  /** The control intent derived from a committed gesture. */
  datatype GameControl = GameControl(move: Move, actions: Actions)

  datatype GestureConfig = GestureConfig(
    enableGesture: bool,
    confidenceThreshold: real,
    debounceTime: int,
    smoothingFactor: real)

  const NoActions := Actions(false, false)
  const NeutralControl := GameControl(Move(0.0, 0.0), NoActions)

  /** The recogniser's configuration when it is first created. */
  const DefaultConfig := GestureConfig(true, 0.7, 150, 0.2)

  function Max(a: real, b: real): real { if a >= b then a else b }
  function Min(a: real, b: real): real { if a <= b then a else b }
  function Abs(a: real): real { if a >= 0.0 then a else -a }
}
