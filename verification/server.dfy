/**
 * The `/api/grade` endpoint: it sanitises the score and notes the client
 * sends, then lets a language model's reply overwrite each of them, field
 * by field, when that field is well typed.
 */
module Server {
  import opened Js

  /**
   * The request body. `localScore` is what `Number(localScore)` yields, `None`
   * when the field is absent (it then defaults to 0). `localNotes` is the
   * notes array, `None` when the field is absent or is not an array.
   */
  datatype Request = Request(localScore: Option<Number>, localNotes: Option<seq<string>>)

  /**
   * The model's reply after `JSON.parse`: `score` is present when it is a
   * number and `notes` when it is an array.
   */
  datatype ModelReply = ModelReply(score: Option<real>, notes: Option<seq<string>>)

  /** The JSON body the endpoint answers with. */
  datatype Response = Response(score: real, notes: seq<string>)

  /** `Math.max(0, Math.min(100, Number(localScore) || 0))`: the client's score clamped to [0, 100]. */
  function SanitisedScore(localScore: Option<Number>): (score: real)
    ensures 0.0 <= score <= 100.0
    ensures localScore.None? || localScore == Some(NotANumber) ==> score == 0.0
    ensures localScore.Some? && localScore.value.Finite? && 0.0 <= localScore.value.value <= 100.0
            ==> score == localScore.value.value
    ensures localScore.Some? && localScore.value.Finite? && localScore.value.value < 0.0 ==> score == 0.0
    ensures localScore.Some? && localScore.value.Finite? && localScore.value.value > 100.0 ==> score == 100.0
  {
    match localScore.GetOr(Finite(0.0))
    case Finite(x) => Clamp(0.0, 100.0, x)
    case NotANumber => 0.0
  }

  /** `Array.isArray(localNotes) ? localNotes.slice(0, 8) : []` */
  function SanitisedNotes(localNotes: Option<seq<string>>): (notes: seq<string>)
    ensures |notes| <= 8
    ensures localNotes.None? ==> notes == []
    ensures localNotes.Some? ==> notes <= localNotes.value && |notes| == Min(8, |localNotes.value|)
  {
    match localNotes
    case Some(ns) => Take(ns, 8)
    case None => []
  }

  /** `Math.max(0, Math.min(100, Math.round(ai.score)))`: the model's score, rounded and clamped. */
  function ModelScore(x: real): (score: real)
    ensures 0.0 <= score <= 100.0
    ensures score == score.Floor as real
    ensures 0.0 <= x <= 100.0 ==> x - 0.5 < score <= x + 0.5
    ensures x <= 0.0 ==> score == 0.0
    ensures x >= 100.0 ==> score == 100.0
  {
    ClampInt(0, 100, Round(x)) as real
  }

  /** `process.env.OPENAI_API_KEY` is set and not empty. */
  predicate HasKey(apiKey: Option<string>) {
    apiKey.Some? && apiKey.value != ""
  }

  /**
   * The handler. `apiKey` is the environment variable; `reply` is the model's
   * parsed answer, `None` when the call failed, the text was not JSON, or
   * parsing gave `null`. The model's score is kept only when it is a number
   * and its notes only when they are an array, each independently of the
   * other; anything else leaves the sanitised client values in place.
   */
  method Grade(req: Request, apiKey: Option<string>, reply: Option<ModelReply>) returns (resp: Response)
    ensures 0.0 <= resp.score <= 100.0
    ensures |resp.notes| <= 8
    ensures !HasKey(apiKey) ==> resp == Response(SanitisedScore(req.localScore), SanitisedNotes(req.localNotes))
    ensures reply.None? ==> resp == Response(SanitisedScore(req.localScore), SanitisedNotes(req.localNotes))
    ensures resp.score == if HasKey(apiKey) && reply.Some? && reply.value.score.Some?
                          then ModelScore(reply.value.score.value)
                          else SanitisedScore(req.localScore)
    ensures resp.notes == if HasKey(apiKey) && reply.Some? && reply.value.notes.Some?
                          then Take(reply.value.notes.value, 6)
                          else SanitisedNotes(req.localNotes)
  {
    var score := SanitisedScore(req.localScore);
    var notes := SanitisedNotes(req.localNotes);
    if !HasKey(apiKey) {
      return Response(score, notes);
    }
    if reply.Some? {
      var ai := reply.value;
      if ai.score.Some? {
        score := ModelScore(ai.score.value);
      }
      if ai.notes.Some? {
        notes := Take(ai.notes.value, 6);
      }
    }
    resp := Response(score, notes);
  }
}
