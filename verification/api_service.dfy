/** The API access layer: the request each service operation sends, the way a
    response is normalised into a body or an `ApiError`, and how failures reach
    the caller. The network is an input: a `Transport` is either the response
    the server gave or a connection that never completed. */
module ApiService {
  import opened Base
  import opened JsValue
  import JsText
  import JsNumber

  /** The message of an `ApiError` whose body has no truthy `detail`. */
  const Fallback: string := "Error en la petición"

  /** The number of recommendations asked for when the caller gives none. */
  const DefaultCount: int := 5

  /** A non-2xx response, normalised. */
  datatype ApiError = ApiError(message: string, status: int, data: Value)
  {
    /** Every `ApiError` reports this `name`. */
    const name: string := "ApiError"
  }

  /** What an operation can reject with. */
  datatype Thrown =
    | ApiFailure(apiError: ApiError)
      /** `response.json()` on a body that is not JSON text. */
    | SyntaxError
      /** Reading `detail` of an error body that is JSON `null`, or turning a
          `detail` with an own `toString` field into the message. */
    | TypeError
      /** `fetch` itself rejected: DNS, refused connection, CORS. */
    | NetworkError

  /** A received HTTP response. `json` is what `JSON.parse` makes of `text`,
      `None` when the text is not JSON; `JSON.parse` never yields `undefined`. */
  datatype Response = Response(status: int, contentType: Option<string>, text: string, json: Option<Value>)
  {
    /** `response.ok`. */
    predicate Ok()
    {
      200 <= status <= 299
    }
  }

  datatype Transport = Delivered(response: Response) | Unreachable

  /** The three independently deployed backends, each behind its own base URL. */
  datatype Service = Recommender | Classifier | SalesPrediction

  datatype Verb = Get | Post

  /** A file chosen in the browser. */
  datatype File = File(name: string, bytes: seq<bv8>)

  datatype Payload =
    | NoPayload
      /** A `Content-Type: application/json` body, as the value it serialises. */
    | JsonPayload(json: Value)
      /** A multipart form with one file field. */
    | FormData(field: string, file: File)

  datatype Request = Request(service: Service, verb: Verb, path: string, payload: Payload)

  /** One call of an operation: what was sent and what the returned promise settles to. */
  datatype Exchange = Exchange(request: Request, outcome: Result<Value, Thrown>)

  /** The body is read as JSON when a `content-type` header is present, non-empty
      and contains `application/json`. */
  predicate IsJson(contentType: Option<string>)
  {
    contentType.Some? && contentType.value != "" && JsText.Includes(contentType.value, "application/json")
  }

  /** The body an error carries a usable message in. */
  predicate HasTruthyDetail(data: Value)
  {
    data.Obj? && "detail" in data.fields && Truthy(data.fields["detail"])
  }

  /** `handleResponse`: read the body as JSON or text, return it unchanged when
      the status is 2xx, otherwise reject with an `ApiError` built from it. */
  function HandleResponse(r: Response): (res: Result<Value, Thrown>)
    ensures res.Success? <==> r.Ok() && (IsJson(r.contentType) ==> r.json.Some?)
    ensures res.Success? && IsJson(r.contentType) ==> res.value == r.json.value
    ensures res.Success? && !IsJson(r.contentType) ==> res.value == Str(r.text)
    ensures IsJson(r.contentType) && r.json.None? ==> res == Failure(SyntaxError)
    ensures !r.Ok() && !IsJson(r.contentType) ==>
      res == Failure(ApiFailure(ApiError(Fallback, r.status, Str(r.text))))
    ensures !r.Ok() && IsJson(r.contentType) && r.json == Some(Null) ==> res == Failure(TypeError)
    ensures !r.Ok() && IsJson(r.contentType) && r.json.Some? && r.json.value !in {Null, Undefined} ==>
      var d := r.json.value;
      if HasTruthyDetail(d) && ToStringThrows(d.fields["detail"]) then res == Failure(TypeError)
      else
        && res.Failure? && res.error.ApiFailure?
        && res.error.apiError.status == r.status
        && res.error.apiError.data == d
        && res.error.apiError.message ==
             (if HasTruthyDetail(d) then ToString(d.fields["detail"]).value else Fallback)
  {
    var isJson := IsJson(r.contentType);
    if isJson && r.json.None? then Failure(SyntaxError)
    else
      var data := if isJson then r.json.value else Str(r.text);
      if r.Ok() then Success(data)
      else
        match Property(data, "detail")
        case None => Failure(TypeError)
        case Some(detail) =>
          match ToString(Or(detail, Str(Fallback)))
          case None => Failure(TypeError)
          case Some(message) => Failure(ApiFailure(ApiError(message, r.status, data)))
  }

  /** A JSON error body whose `detail` is a non-empty string yields exactly that
      string as the message. */
  lemma DetailBecomesMessage(r: Response, detail: string)
    requires !r.Ok() && IsJson(r.contentType)
    requires r.json.Some? && r.json.value.Obj? && "detail" in r.json.value.fields
    requires r.json.value.fields["detail"] == Str(detail) && detail != ""
    ensures HandleResponse(r) == Failure(ApiFailure(ApiError(detail, r.status, r.json.value)))
  {
  }

  /** A JSON error body whose `detail` is an object with its own `toString`
      field makes building the `ApiError` throw: the rejection is a
      `TypeError`, not an `ApiError`. */
  lemma ShadowedToStringRejects(r: Response, detail: map<string, Value>)
    requires !r.Ok() && IsJson(r.contentType)
    requires r.json.Some? && r.json.value.Obj? && "detail" in r.json.value.fields
    requires r.json.value.fields["detail"] == Obj(detail) && "toString" in detail
    ensures HandleResponse(r) == Failure(TypeError)
  {
  }

  /** What every operation's promise settles to: the normalised response, or
      the transport failure rethrown as it was caught. No failure is turned
      into a success. */
  function Outcome(t: Transport): (res: Result<Value, Thrown>)
    ensures t.Unreachable? ==> res == Failure(NetworkError)
    ensures t.Delivered? ==> res == HandleResponse(t.response)
    ensures res.Success? ==> t.Delivered? && t.response.Ok()
  {
    match t
    case Unreachable => Failure(NetworkError)
    case Delivered(r) => HandleResponse(r)
  }

  /** A field of a JSON object request body, `undefined` when absent. */
  function BodyField(req: Request, key: string): Value
  {
    if req.payload.JsonPayload? && req.payload.json.Obj? && key in req.payload.json.fields
    then req.payload.json.fields[key]
    else Undefined
  }

  /** The keys of a JSON object request body, empty for any other payload. */
  function BodyKeys(req: Request): set<string>
  {
    if req.payload.JsonPayload? && req.payload.json.Obj? then req.payload.json.fields.Keys else {}
  }

  /** `getValidData`. */
  function GetValidData(t: Transport): (x: Exchange)
    ensures x.request == Request(Recommender, Get, "/valid-data", NoPayload)
    ensures x.outcome == Outcome(t)
  {
    Exchange(Request(Recommender, Get, "/valid-data", NoPayload), Outcome(t))
  }

  /** An integer after `JSON.stringify`: `NaN` is sent as `null`. */
  function IntField(n: Option<int>): Value
  {
    match n
    case Some(k) => Num(k)
    case None => Null
  }

  /** `predictSales(store, dept, date)`: a JSON POST of exactly the fields
      `store` and `dept`, parsed with `parseInt`, and `date` as given. */
  function PredictSales(store: string, dept: string, date: string, t: Transport): (x: Exchange)
    ensures x.request.service == SalesPrediction && x.request.verb == Post
    ensures x.request.path == "/predict-sales"
    ensures BodyKeys(x.request) == {"store", "dept", "date"}
    ensures BodyField(x.request, "date") == Str(date)
    ensures forall n :: JsNumber.ParseInt(store) == Some(n) <==> BodyField(x.request, "store") == Num(n)
    ensures forall n :: JsNumber.ParseInt(dept) == Some(n) <==> BodyField(x.request, "dept") == Num(n)
    ensures JsNumber.ParseInt(store).None? <==> BodyField(x.request, "store") == Null
    ensures JsNumber.ParseInt(dept).None? <==> BodyField(x.request, "dept") == Null
    ensures x.outcome == Outcome(t)
  {
    var body := map[
      "store" := IntField(JsNumber.ParseInt(store)),
      "dept" := IntField(JsNumber.ParseInt(dept)),
      "date" := Str(date)];
    Exchange(Request(SalesPrediction, Post, "/predict-sales", JsonPayload(Obj(body))), Outcome(t))
  }

  /** The store and department a selector offers, as the decimal text it holds,
      reach the prediction service as the same integers. */
  lemma PredictSalesSendsSelection(store: int, dept: int, date: string, t: Transport)
    ensures BodyField(PredictSales(JsNumber.IntToString(store), JsNumber.IntToString(dept), date, t).request, "store") == Num(store)
    ensures BodyField(PredictSales(JsNumber.IntToString(store), JsNumber.IntToString(dept), date, t).request, "dept") == Num(dept)
  {
    JsNumber.ParseIntToString(store);
    JsNumber.ParseIntToString(dept);
  }

  /** `classifyImage(file)`: the file under the multipart field `file`. */
  function ClassifyImage(file: File, t: Transport): (x: Exchange)
    ensures x.request.service == Classifier && x.request.verb == Post
    ensures x.request.path == "/classify-image"
    ensures x.request.payload == FormData("file", file)
    ensures x.outcome == Outcome(t)
  {
    Exchange(Request(Classifier, Post, "/classify-image", FormData("file", file)), Outcome(t))
  }

  /** The `params` object of `getRecommendations`; a property the caller
      leaves out is `Undefined`. */
  datatype RecParams = RecParams(userId: Value, productHistory: Value, nRecommendations: Value)

  /** The default `params = {}`. */
  const NoParams: RecParams := RecParams(Undefined, Undefined, Undefined)

  /** `getRecommendations(params)`: one uniform JSON body in which a falsy user
      id or history becomes `null` and a falsy count becomes 5. */
  function GetRecommendations(p: RecParams, t: Transport): (x: Exchange)
    ensures x.request.service == Recommender && x.request.verb == Post
    ensures x.request.path == "/recommend"
    ensures BodyKeys(x.request) == {"user_id", "product_history", "n_recommendations"}
    ensures BodyField(x.request, "user_id") == (if Truthy(p.userId) then p.userId else Null)
    ensures BodyField(x.request, "product_history") == (if Truthy(p.productHistory) then p.productHistory else Null)
    ensures BodyField(x.request, "n_recommendations") ==
      (if Truthy(p.nRecommendations) then p.nRecommendations else Num(DefaultCount))
    ensures Truthy(BodyField(x.request, "n_recommendations"))
    ensures x.outcome == Outcome(t)
  {
    var body := map[
      "user_id" := Or(p.userId, Null),
      "product_history" := Or(p.productHistory, Null),
      "n_recommendations" := Or(p.nRecommendations, Num(DefaultCount))];
    Exchange(Request(Recommender, Post, "/recommend", JsonPayload(Obj(body))), Outcome(t))
  }

  /** A parameter default `n = 5`: applies only when the argument is `undefined`. */
  function DefaultCountArg(n: Value): Value
  {
    if n == Undefined then Num(DefaultCount) else n
  }

  /** `getRecommendationsByUser(userId, n = 5)`. */
  function GetRecommendationsByUser(userId: Value, n: Value, t: Transport): (x: Exchange)
    ensures x.request.path == "/recommend"
    ensures BodyField(x.request, "user_id") == (if Truthy(userId) then userId else Null)
    ensures BodyField(x.request, "product_history") == Null
    ensures BodyField(x.request, "n_recommendations") == (if Truthy(n) then n else Num(DefaultCount))
    ensures x.outcome == Outcome(t)
  {
    GetRecommendations(RecParams(userId, Undefined, DefaultCountArg(n)), t)
  }

  /** `getRecommendationsByHistory(productHistory, n = 5)`. */
  function GetRecommendationsByHistory(productHistory: Value, n: Value, t: Transport): (x: Exchange)
    ensures x.request.path == "/recommend"
    ensures BodyField(x.request, "user_id") == Null
    ensures BodyField(x.request, "product_history") == (if Truthy(productHistory) then productHistory else Null)
    ensures BodyField(x.request, "n_recommendations") == (if Truthy(n) then n else Num(DefaultCount))
    ensures x.outcome == Outcome(t)
  {
    GetRecommendations(RecParams(Undefined, productHistory, DefaultCountArg(n)), t)
  }

  /** `getPopularRecommendations(n = 5)`. */
  function GetPopularRecommendations(n: Value, t: Transport): (x: Exchange)
    ensures x.request.path == "/recommend"
    ensures BodyField(x.request, "user_id") == Null
    ensures BodyField(x.request, "product_history") == Null
    ensures BodyField(x.request, "n_recommendations") == (if Truthy(n) then n else Num(DefaultCount))
    ensures x.outcome == Outcome(t)
  {
    GetRecommendations(RecParams(Undefined, Undefined, DefaultCountArg(n)), t)
  }

  /** The three mode wrappers send the same body `getRecommendations` would
      for the matching params object; the wrappers' own default of 5 changes
      nothing, since `|| 5` already covers `undefined`. */
  lemma ModesAreRecommendations(userId: Value, history: Value, n: Value, t: Transport)
    ensures GetRecommendationsByUser(userId, n, t) == GetRecommendations(RecParams(userId, Undefined, n), t)
    ensures GetRecommendationsByHistory(history, n, t) == GetRecommendations(RecParams(Undefined, history, n), t)
    ensures GetPopularRecommendations(n, t) == GetRecommendations(RecParams(Undefined, Undefined, n), t)
  {
  }

  /** Calling `getRecommendations()` with no argument asks for the five most
      popular products: no user, no history, the default count, the same call
      as `getPopularRecommendations()`. */
  lemma NoParamsArePopular(t: Transport)
    ensures BodyField(GetRecommendations(NoParams, t).request, "user_id") == Null
    ensures BodyField(GetRecommendations(NoParams, t).request, "product_history") == Null
    ensures BodyField(GetRecommendations(NoParams, t).request, "n_recommendations") == Num(DefaultCount)
    ensures GetRecommendations(NoParams, t) == GetPopularRecommendations(Undefined, t)
  {
  }

  /** `healthCheck`. */
  function HealthCheck(t: Transport): (x: Exchange)
    ensures x.request == Request(Recommender, Get, "/", NoPayload)
    ensures x.outcome == Outcome(t)
  {
    Exchange(Request(Recommender, Get, "/", NoPayload), Outcome(t))
  }
}
