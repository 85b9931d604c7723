/**
 * The training-plan endpoint around its model call: the early-return gating
 * of a request (method, rate limit, API key, parameters) and the structural
 * check of the plan the model returned. Both are decision procedures over
 * plain data; the rate limit is the only state they touch.
 */
module PlanApi {
  import opened Basics
  import opened JsValues
  import opened RateLimit

  // ---------------------------------------------------------------------------
  // Request gating
  // ---------------------------------------------------------------------------

  /**
   * What the handler reads of a request: the method, the forwarded-for header
   * ("" when absent), the socket address, and the parsed JSON body.
   */
  datatype Request = Request(httpMethod: string, forwardedFor: string, remoteAddress: Option<string>, body: JsValue)

  /** Where the gating ends: an early response, or the go-ahead to call the model with this key. */
  datatype GateResult =
    | Preflight                  // 200, empty
    | MethodNotAllowed           // 405
    | RateLimited                // 429
    | ApiKeyRequired             // 400
    | InvalidApiKeyFormat        // 400
    | MissingParameters          // 400
    | InternalError              // 500, a TypeError caught by the handler
    | Proceed(apiKey: string)

  /** The HTTP status of an early response; the go-ahead has none yet and maps to 0. */
  function GateStatus(g: GateResult): (status: int)
    ensures status == 200 <==> g.Preflight?
    ensures status == 405 <==> g.MethodNotAllowed?
    ensures status == 429 <==> g.RateLimited?
    ensures status == 400 <==> g.ApiKeyRequired? || g.InvalidApiKeyFormat? || g.MissingParameters?
    ensures status == 500 <==> g.InternalError?
  {
    match g
    case Preflight => 200
    case MethodNotAllowed => 405
    case RateLimited => 429
    case ApiKeyRequired => 400
    case InvalidApiKeyFormat => 400
    case MissingParameters => 400
    case InternalError => 500
    case Proceed(_) => 0
  }

  /** The client address: the forwarded-for header, else the socket address, else 'unknown'. */
  function ClientIp(req: Request): (ip: string)
    ensures ip != []
    ensures req.forwardedFor != [] ==> ip == req.forwardedFor
  {
    if req.forwardedFor != [] then req.forwardedFor
    else if req.remoteAddress.Some? && req.remoteAddress.value != [] then req.remoteAddress.value
    else "unknown"
  }

  const PlanParameters: seq<string> := ["age", "gender", "height", "weight", "level", "goal", "frequency", "equipment"]

  /** Every plan parameter of the body is truthy. */
  predicate HasAllParameters(body: JsValue)
  {
    forall i :: 0 <= i < |PlanParameters| ==> Truthy(OptionalProp(body, PlanParameters[i]))
  }

  /**
   * The checks after the rate limit: destructuring a null or undefined body
   * throws; the key is the body's `key` or else the server's configured key;
   * a key that is not a string has no startsWith and throws too.
   */
  function GateBody(body: JsValue, serverKey: JsValue): (g: GateResult)
    ensures g.Proceed? <==>
              && !(body.Undefined? || body.Null?)
              && Or(OptionalProp(body, "key"), serverKey).Str?
              && StartsWith(Or(OptionalProp(body, "key"), serverKey).s, "AIza")
              && HasAllParameters(body)
    ensures g.Proceed? ==> g.apiKey == Or(OptionalProp(body, "key"), serverKey).s && |g.apiKey| >= 4
    ensures g.ApiKeyRequired? <==> !(body.Undefined? || body.Null?) && !Truthy(Or(OptionalProp(body, "key"), serverKey))
    ensures var key := Or(OptionalProp(body, "key"), serverKey);
            g.InvalidApiKeyFormat? <==> !(body.Undefined? || body.Null?) && key.Str? && Truthy(key) && !StartsWith(key.s, "AIza")
    ensures var key := Or(OptionalProp(body, "key"), serverKey);
            g.MissingParameters? <==>
              !(body.Undefined? || body.Null?) && key.Str? && StartsWith(key.s, "AIza") && !HasAllParameters(body)
    ensures var key := Or(OptionalProp(body, "key"), serverKey);
            g.InternalError? <==> (body.Undefined? || body.Null?) || (Truthy(key) && !key.Str?)
  {
    if body.Undefined? || body.Null? then InternalError
    else
      var apiKey := Or(OptionalProp(body, "key"), serverKey);
      if !Truthy(apiKey) then ApiKeyRequired
      else if !apiKey.Str? then InternalError
      else if !StartsWith(apiKey.s, "AIza") then InvalidApiKeyFormat
      else if !HasAllParameters(body) then MissingParameters
      else Proceed(apiKey.s)
  }

  /**
   * The whole gate on the rate-limit store: OPTIONS and non-POST requests
   * return before the limiter is consulted; a refused request stops at 429.
   */
  function Gate(requests: map<string, seq<int>>, req: Request, serverKey: JsValue, now: int)
    : (r: (GateResult, map<string, seq<int>>))
    ensures r.0.Preflight? <==> req.httpMethod == "OPTIONS"
    ensures r.0.MethodNotAllowed? <==> req.httpMethod != "OPTIONS" && req.httpMethod != "POST"
    ensures req.httpMethod != "POST" ==> r.1 == requests
    ensures req.httpMethod == "POST" ==> r.1 == RateLimitStep(requests, ClientIp(req), now).1
    ensures r.0.RateLimited? <==> req.httpMethod == "POST" && !RateLimitStep(requests, ClientIp(req), now).0
    ensures req.httpMethod == "POST" && RateLimitStep(requests, ClientIp(req), now).0 ==>
              r.0 == GateBody(req.body, serverKey)
  {
    if req.httpMethod == "OPTIONS" then (Preflight, requests)
    else if req.httpMethod != "POST" then (MethodNotAllowed, requests)
    else
      var (allowed, after) := RateLimitStep(requests, ClientIp(req), now);
      if !allowed then (RateLimited, after)
      else (GateBody(req.body, serverKey), after)
  }

  /** A request that reaches the model call passed every check, in the handler's order. */
  lemma ProceedPassedEveryCheck(requests: map<string, seq<int>>, req: Request, serverKey: JsValue, now: int)
    requires Gate(requests, req, serverKey, now).0.Proceed?
    ensures req.httpMethod == "POST"
    ensures |InWindow(Stored(requests, ClientKey(ClientIp(req))), now)| < RateLimitMaxRequests
    ensures StartsWith(Gate(requests, req, serverKey, now).0.apiKey, "AIza")
    ensures HasAllParameters(req.body)
  {
  }

  /** The handler up to the model call, with the limiter it shares across requests. */
  method HandleRequest(limiter: RateLimiter, req: Request, serverKey: JsValue, now: int) returns (g: GateResult)
    modifies limiter
    ensures (g, limiter.requests) == Gate(old(limiter.requests), req, serverKey, now)
  {
    if req.httpMethod == "OPTIONS" {
      return Preflight;
    }
    if req.httpMethod != "POST" {
      return MethodNotAllowed;
    }
    var clientIp := ClientIp(req);
    var allowed := limiter.CheckRateLimit(clientIp, now);
    if !allowed {
      return RateLimited;
    }
    g := GateBody(req.body, serverKey);
  }

  // ---------------------------------------------------------------------------
  // Plan structure
  // ---------------------------------------------------------------------------

  /** The outcome of the structure check (each error is a 500 response). */
  datatype PlanVerdict =
    | PlanAccepted
    | InvalidPlanStructure
    | InvalidDayStructure
    | InvalidExerciseStructure
    | PlanThrows                // reading a field of a null day or exercise

  function PlanStatus(v: PlanVerdict): (status: int)
    ensures status == 200 <==> v.PlanAccepted?
    ensures status == 200 || status == 500
  {
    if v.PlanAccepted? then 200 else 500
  }

  predicate Nullish(v: JsValue)
  {
    v.Undefined? || v.Null?
  }

  /** The verdict on one exercise; None lets the loop go on. */
  function ExerciseVerdict(ex: JsValue): Option<PlanVerdict>
  {
    if Nullish(ex) then Some(PlanThrows)
    else if !Truthy(OptionalProp(ex, "name")) || !Truthy(OptionalProp(ex, "sets")) || !Truthy(OptionalProp(ex, "reps"))
    then Some(InvalidExerciseStructure)
    else None
  }

  /** The first failing exercise, in array order. */
  function ExercisesVerdict(exs: seq<JsValue>): (r: Option<PlanVerdict>)
    ensures r.Some? ==> r.value == PlanThrows || r.value == InvalidExerciseStructure
  {
    if exs == [] then None
    else if ExerciseVerdict(exs[0]).Some? then ExerciseVerdict(exs[0])
    else ExercisesVerdict(exs[1..])
  }

  /** The verdict on one day: its own fields first, then its exercises. */
  function DayVerdict(day: JsValue): (r: Option<PlanVerdict>)
    ensures r.Some? ==> r.value != PlanAccepted
  {
    if Nullish(day) then Some(PlanThrows)
    else
      var exercises := OptionalProp(day, "exercises");
      if !Truthy(OptionalProp(day, "day")) || !Truthy(OptionalProp(day, "focus")) || !Truthy(exercises) || !exercises.Arr?
      then Some(InvalidDayStructure)
      else ExercisesVerdict(exercises.elems)
  }

  /** The first failing day, in array order. */
  function DaysVerdict(days: seq<JsValue>): (r: Option<PlanVerdict>)
    ensures r.Some? ==> r.value != PlanAccepted
  {
    if days == [] then None
    else if DayVerdict(days[0]).Some? then DayVerdict(days[0])
    else DaysVerdict(days[1..])
  }

  /** The structure check of the handler, as the first error it meets. */
  function PlanCheck(result: JsValue): PlanVerdict
  {
    if Nullish(result) then PlanThrows
    else
      var days := OptionalProp(result, "days");
      if !Truthy(days) || !days.Arr? || days.elems == [] then InvalidPlanStructure
      else if DaysVerdict(days.elems).Some? then DaysVerdict(days.elems).value
      else PlanAccepted
  }

  /** The validation loops of the handler, returning at the first error. */
  method ValidatePlan(result: JsValue) returns (v: PlanVerdict)
    ensures v == PlanCheck(result)
  {
    if result.Undefined? || result.Null? {
      return PlanThrows;
    }
    var days := OptionalProp(result, "days");
    if !Truthy(days) || !days.Arr? || |days.elems| == 0 {
      return InvalidPlanStructure;
    }
    var i := 0;
    while i < |days.elems|
      invariant 0 <= i <= |days.elems|
      invariant DaysVerdict(days.elems) == DaysVerdict(days.elems[i..])
    {
      var day := days.elems[i];
      assert days.elems[i..][0] == day && days.elems[i..][1..] == days.elems[i + 1..];
      if day.Undefined? || day.Null? {
        return PlanThrows;
      }
      var exercises := OptionalProp(day, "exercises");
      if !Truthy(OptionalProp(day, "day")) || !Truthy(OptionalProp(day, "focus")) || !Truthy(exercises) || !exercises.Arr? {
        return InvalidDayStructure;
      }
      var j := 0;
      while j < |exercises.elems|
        invariant 0 <= j <= |exercises.elems|
        invariant ExercisesVerdict(exercises.elems) == ExercisesVerdict(exercises.elems[j..])
      {
        var ex := exercises.elems[j];
        assert exercises.elems[j..][0] == ex && exercises.elems[j..][1..] == exercises.elems[j + 1..];
        if ex.Undefined? || ex.Null? {
          return PlanThrows;
        }
        if !Truthy(OptionalProp(ex, "name")) || !Truthy(OptionalProp(ex, "sets")) || !Truthy(OptionalProp(ex, "reps")) {
          return InvalidExerciseStructure;
        }
        j := j + 1;
      }
      i := i + 1;
    }
    return PlanAccepted;
  }

  // The shape the check accepts, stated on the data alone.

  /** A truthy field of an object. */
  predicate HasTruthy(v: JsValue, key: string)
  {
    v.Obj? && key in v.fields && Truthy(v.fields[key])
  }

  predicate WellFormedExercise(ex: JsValue)
  {
    HasTruthy(ex, "name") && HasTruthy(ex, "sets") && HasTruthy(ex, "reps")
  }

  predicate WellFormedDay(day: JsValue)
  {
    && HasTruthy(day, "day") && HasTruthy(day, "focus")
    && "exercises" in day.fields && day.fields["exercises"].Arr?
    && forall j :: 0 <= j < |day.fields["exercises"].elems| ==> WellFormedExercise(day.fields["exercises"].elems[j])
  }

  /** A non-empty array of days, each with a name, a focus and an array of complete exercises. */
  predicate WellFormedPlan(result: JsValue)
  {
    && result.Obj? && "days" in result.fields && result.fields["days"].Arr? && result.fields["days"].elems != []
    && forall i :: 0 <= i < |result.fields["days"].elems| ==> WellFormedDay(result.fields["days"].elems[i])
  }

  lemma ExerciseVerdictNone(ex: JsValue)
    ensures ExerciseVerdict(ex).None? <==> WellFormedExercise(ex)
  {
  }

  lemma {:induction false} ExercisesVerdictNone(exs: seq<JsValue>)
    ensures ExercisesVerdict(exs).None? <==> forall j :: 0 <= j < |exs| ==> WellFormedExercise(exs[j])
  {
    if exs != [] {
      ExerciseVerdictNone(exs[0]);
      ExercisesVerdictNone(exs[1..]);
      assert forall j :: 1 <= j < |exs| ==> exs[j] == exs[1..][j - 1];
    }
  }

  lemma DayVerdictNone(day: JsValue)
    ensures DayVerdict(day).None? <==> WellFormedDay(day)
  {
    if day.Obj? && "exercises" in day.fields && day.fields["exercises"].Arr? {
      ExercisesVerdictNone(day.fields["exercises"].elems);
    }
  }

  lemma {:induction false} DaysVerdictNone(days: seq<JsValue>)
    ensures DaysVerdict(days).None? <==> forall i :: 0 <= i < |days| ==> WellFormedDay(days[i])
  {
    if days != [] {
      DayVerdictNone(days[0]);
      DaysVerdictNone(days[1..]);
      assert forall i :: 1 <= i < |days| ==> days[i] == days[1..][i - 1];
    }
  }

  /** The handler accepts a plan exactly when it has the well-formed shape. */
  lemma PlanCheckAccepts(result: JsValue)
    ensures PlanCheck(result) == PlanAccepted <==> WellFormedPlan(result)
  {
    if result.Obj? && "days" in result.fields && result.fields["days"].Arr? {
      DaysVerdictNone(result.fields["days"].elems);
    }
  }
}
