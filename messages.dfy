/** The frames the backend pushes over a session's websocket, as the frontend sees
    them after `JSON.parse` (`WebSocketMessage`). The source's record of optional
    fields becomes one variant per `type`; inference fields stay optional because the
    frontend checks for each of them, the other fields are the ones it reads with
    a non-null assertion. Timestamps and session ids inside frames are left out. */
module Messages {
  import opened Common

  /** `PredictionResult`: class index, label and the four class probabilities. */
  datatype Prediction = Prediction(classIndex: int, classLabel: string, probs: seq<real>)

  datatype Message =
    | Inference(classIndex: Option<int>, classLabel: Option<string>, probs: Option<seq<real>>)
    | DepthData(depthCm: real, bufferLen: int)
    | SessionComplete(text: Option<string>)
    | SessionReset(text: Option<string>)
    | ModeChange(oldMode: string, newMode: string)
      /** A frame whose `type` is none of the five above; the empty kind stands
          for a frame with no (or an empty) `type`. */
    | Other(kind: string)

  const KnownTypes: set<string> :=
    {"inference", "depth_data", "session_complete", "session_reset", "mode_change"}

  /** The `type` field of the frame. */
  function TypeName(m: Message): (t: string)
    ensures !m.Other? ==> t in KnownTypes
  {
    match m
    case Inference(_, _, _) => "inference"
    case DepthData(_, _) => "depth_data"
    case SessionComplete(_) => "session_complete"
    case SessionReset(_) => "session_reset"
    case ModeChange(_, _) => "mode_change"
    case Other(k) => k
  }

  /** An `Other` frame really has an unknown type. */
  predicate WellFormed(m: Message)
  {
    m.Other? ==> m.kind !in KnownTypes
  }

  /** For a well-formed frame the `type` field decides the variant, so a
      `switch` on it sees exactly the frames of each kind. */
  lemma {:induction false} TypeNameDecidesKind(m: Message)
    requires WellFormed(m)
    ensures TypeName(m) in KnownTypes <==> !m.Other?
    ensures TypeName(m) == "inference" <==> m.Inference?
    ensures TypeName(m) == "depth_data" <==> m.DepthData?
    ensures TypeName(m) == "session_complete" <==> m.SessionComplete?
    ensures TypeName(m) == "session_reset" <==> m.SessionReset?
    ensures TypeName(m) == "mode_change" <==> m.ModeChange?
  {
  }

  /** The inference payload, when all three of its fields are present. */
  function CompletePrediction(m: Message): Option<Prediction>
  {
    if m.Inference? && m.classIndex.Some? && m.classLabel.Some? && m.probs.Some? then
      Some(Prediction(m.classIndex.value, m.classLabel.value, m.probs.value))
    else None
  }
}
