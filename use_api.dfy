/**
 * The `useApi` request hook: a loading flag, the last extracted payload, sticky
 * paging metadata and the fingerprint of the last argument tuple. One call is
 * split into its two halves around the `await`: `CallApi` (argument rules,
 * de-duplication, issuing the request) and `Complete` (the awaited outcome,
 * normalisation, error policy and the `finally` block).
 */
module UseApi {
  import opened Wrappers
  import opened JsValues

  /** The route pushed when a network-failure error arrives. */
  const ErrorNetworkRoute: string := "/error-network"

  /** The `status` value that marks a network failure. */
  const NetworkFailureStatus: int := 999

  /** The hook's refs and its closure variable `prevParamsJson`. */
  datatype HookState = HookState(apiData: JsValue, apiPaging: JsValue, isLoading: bool, prevParamsJson: string)

  function InitialState(): HookState {
    HookState(Null, Null, false, "")
  }

  /** The arguments of a call: its own when it has any, else the initial ones. */
  function EffectiveParams(params: seq<JsValue>, initialParams: seq<JsValue>): (r: seq<JsValue>)
    ensures |params| > 0 ==> r == params
    ensures |params| == 0 ==> r == initialParams
  {
    if |params| > 0 then params else initialParams
  }

  /** `params[0] instanceof FormData`; an empty tuple's first element is `undefined`. */
  predicate FirstIsFormData(params: seq<JsValue>) {
    |params| > 0 && params[0].FormData?
  }

  /** The synchronous half of a call: the new state and the arguments sent, if any. */
  datatype Begun = Begun(state: HookState, issued: Option<seq<JsValue>>)

  /**
   * The part of `callApi` before the `await`. `stringify` stands for
   * `JSON.stringify` on an argument tuple.
   */
  function BeginCall(s: HookState, params: seq<JsValue>, initialParams: seq<JsValue>,
                     stringify: seq<JsValue> -> string): (r: Begun)
    ensures var cur := EffectiveParams(params, initialParams);
            r.issued.None? <==> !FirstIsFormData(cur) && stringify(cur) == s.prevParamsJson
    ensures r.issued.None? ==> r.state == s
    ensures r.issued.Some? ==> r.issued.value == EffectiveParams(params, initialParams) && r.state.isLoading
    ensures r.state.apiData == s.apiData && r.state.apiPaging == s.apiPaging
    ensures var cur := EffectiveParams(params, initialParams);
            r.state.prevParamsJson == if FirstIsFormData(cur) then s.prevParamsJson else stringify(cur)
  {
    var cur := EffectiveParams(params, initialParams);
    if !FirstIsFormData(cur) && stringify(cur) == s.prevParamsJson then
      Begun(s, None)
    else
      var fingerprint := if FirstIsFormData(cur) then s.prevParamsJson else stringify(cur);
      Begun(s.(prevParamsJson := fingerprint, isLoading := true), Some(cur))
  }

  /** How the awaited `apiFunction(...)` promise settled. */
  datatype Settled = Fulfilled(res: JsValue) | Rejected(error: JsValue)

  /** What the caller's `await callApi(...)` sees. */
  datatype CallResult = Skipped | Resolved(value: JsValue) | Thrown(error: JsValue)

  /** The asynchronous half of a call: the new state, the result and the routes pushed. */
  datatype Completed = Completed(state: HookState, result: CallResult, pushes: seq<string>)

  /** `error && typeof error === 'object' && 'status' in error && error.status === 999`. */
  predicate IsNetworkError(error: JsValue) {
    error.Obj? && "status" in error.props && error.props["status"] == Num(NetworkFailureStatus)
  }

  /** `list ?? data ?? body` for the response body `body`. */
  function Normalize(body: JsValue): (r: JsValue)
    ensures !Nullish(GetProp(body, "list")) ==> r == GetProp(body, "list")
    ensures Nullish(GetProp(body, "list")) && !Nullish(GetProp(body, "data")) ==> r == GetProp(body, "data")
    ensures Nullish(GetProp(body, "list")) && Nullish(GetProp(body, "data")) ==> r == body
  {
    Coalesce(Coalesce(GetProp(body, "list"), GetProp(body, "data")), body)
  }

  /** The `try` / `catch` / `finally` after the `await`. */
  function CompleteCall(s: HookState, outcome: Settled): (r: Completed)
    ensures !r.state.isLoading
    ensures r.state.prevParamsJson == s.prevParamsJson
    ensures outcome.Rejected? ==> r.result == Thrown(outcome.error)
    ensures outcome.Rejected? ==> r.state.apiData == s.apiData && r.state.apiPaging == s.apiPaging
    ensures outcome.Rejected? && IsNetworkError(outcome.error) ==> r.pushes == [ErrorNetworkRoute]
    ensures outcome.Fulfilled? || !IsNetworkError(outcome.error) ==> r.pushes == []
    ensures outcome.Fulfilled? ==> r.result == Resolved(OptionalGet(outcome.res, "data"))
    ensures outcome.Fulfilled? ==>
              var body := OptionalGet(outcome.res, "data");
              && r.state.apiData == (if Truthy(body) then Normalize(body) else s.apiData)
              && r.state.apiPaging == (if Truthy(body) && Truthy(GetProp(body, "paging"))
                                       then GetProp(body, "paging") else s.apiPaging)
  {
    match outcome
    case Fulfilled(res) =>
      var body := OptionalGet(res, "data");
      var paging := GetProp(body, "paging");
      var s1 := if Truthy(body)
                then s.(apiData := Normalize(body), apiPaging := if Truthy(paging) then paging else s.apiPaging)
                else s;
      Completed(s1.(isLoading := false), Resolved(body), [])
    case Rejected(error) =>
      Completed(s.(isLoading := false), Thrown(error), if IsNetworkError(error) then [ErrorNetworkRoute] else [])
  }

  /**
   * One `useApi(apiFunction, initialParams, callOnInit)` instance. `requests`
   * records the argument tuples passed to `apiFunction`, `pushes` the routes
   * given to `router.push`.
   */
  class ApiHook {
    const initialParams: seq<JsValue>
    const stringify: seq<JsValue> -> string
    var apiData: JsValue
    var apiPaging: JsValue
    var isLoading: bool
    var prevParamsJson: string
    var requests: seq<seq<JsValue>>
    var pushes: seq<string>

    function State(): HookState
      reads this
    {
      HookState(apiData, apiPaging, isLoading, prevParamsJson)
    }

    /** Construction; with `callOnInit` the first call is begun and not awaited. */
    constructor (initialParams: seq<JsValue>, stringify: seq<JsValue> -> string, callOnInit: bool)
      ensures this.initialParams == initialParams && this.stringify == stringify
      ensures !callOnInit ==> State() == InitialState() && requests == []
      ensures callOnInit ==> State() == BeginCall(InitialState(), initialParams, initialParams, stringify).state
      ensures callOnInit ==>
                requests == OptionToSeq(BeginCall(InitialState(), initialParams, initialParams, stringify).issued)
      ensures pushes == []
    {
      this.initialParams := initialParams;
      this.stringify := stringify;
      var s := InitialState();
      var issued: Option<seq<JsValue>> := None;
      if callOnInit {
        var b := BeginCall(s, initialParams, initialParams, stringify);
        s, issued := b.state, b.issued;
      }
      apiData, apiPaging, isLoading, prevParamsJson := s.apiData, s.apiPaging, s.isLoading, s.prevParamsJson;
      requests := OptionToSeq(issued);
      pushes := [];
    }

    /**
     * `callApi(...params)` up to the `await`. `issued` is false when the call
     * returned at once, as a duplicate.
     */
    method CallApi(params: seq<JsValue>) returns (issued: bool)
      modifies this
      ensures var b := BeginCall(old(State()), params, initialParams, stringify);
              && State() == b.state
              && issued == b.issued.Some?
              && requests == old(requests) + OptionToSeq(b.issued)
      ensures pushes == old(pushes)
    {
      var currentParams := if |params| > 0 then params else initialParams;
      if !FirstIsFormData(currentParams) {
        var paramsJson := stringify(currentParams);
        if paramsJson == prevParamsJson {
          return false;
        }
        prevParamsJson := paramsJson;
      }
      isLoading := true;
      requests := requests + [currentParams];
      issued := true;
    }

    /** The rest of `callApi` once the awaited request has settled with `outcome`. */
    method Complete(outcome: Settled) returns (result: CallResult)
      modifies this
      ensures var c := CompleteCall(old(State()), outcome);
              && State() == c.state
              && result == c.result
              && pushes == old(pushes) + c.pushes
      ensures requests == old(requests)
    {
      match outcome {
        case Fulfilled(res) =>
          var body := OptionalGet(res, "data");
          if Truthy(body) {
            apiData := Normalize(body);
            var paging := GetProp(body, "paging");
            if Truthy(paging) {
              apiPaging := paging;
            }
          }
          result := Resolved(body);
        case Rejected(error) =>
          if IsNetworkError(error) {
            pushes := pushes + [ErrorNetworkRoute];
          }
          result := Thrown(error);
      }
      isLoading := false;
    }
  }

  function OptionToSeq<T>(o: Option<T>): seq<T> {
    match o
    case Some(v) => [v]
    case None => []
  }

  /**
   * Once a call with non-`FormData` arguments has been issued, repeating the
   * same call is suppressed, whether the first has settled or not and however
   * it settled: the fingerprint is recorded before the request is sent.
   */
  lemma RepeatedCallSuppressed(s: HookState, params: seq<JsValue>, initialParams: seq<JsValue>,
                               stringify: seq<JsValue> -> string, outcome: Settled)
    requires !FirstIsFormData(EffectiveParams(params, initialParams))
    ensures var s1 := BeginCall(s, params, initialParams, stringify).state;
            BeginCall(s1, params, initialParams, stringify) == Begun(s1, None)
    ensures var s1 := BeginCall(s, params, initialParams, stringify).state;
            var s2 := CompleteCall(s1, outcome).state;
            BeginCall(s2, params, initialParams, stringify) == Begun(s2, None)
  {
  }

  /** A call whose first argument is a `FormData` always proceeds. */
  lemma FormDataAlwaysProceeds(s: HookState, params: seq<JsValue>, initialParams: seq<JsValue>,
                               stringify: seq<JsValue> -> string)
    requires FirstIsFormData(EffectiveParams(params, initialParams))
    ensures var b := BeginCall(s, params, initialParams, stringify);
            b.issued.Some? && b.state.prevParamsJson == s.prevParamsJson && b.state.isLoading
  {
  }

  /**
   * A `list` payload with paging metadata: `apiData` becomes the list and
   * `apiPaging` the metadata.
   */
  lemma ListAndPagingExample(s: HookState)
    ensures var list := Arr([Num(1), Num(2), Num(3)]);
            var paging := Obj(map["page" := Num(1)]);
            var res := Obj(map["data" := Obj(map["list" := list, "paging" := paging])]);
            var c := CompleteCall(s, Fulfilled(res));
            c.state.apiData == list && c.state.apiPaging == paging && !c.state.isLoading
  {
  }

  /** A `data` payload without paging: `apiData` becomes it and `apiPaging` stays. */
  lemma DataWithoutPagingExample(s: HookState)
    ensures var item := Obj(map["id" := Num(5)]);
            var res := Obj(map["data" := Obj(map["data" := item])]);
            var c := CompleteCall(s, Fulfilled(res));
            c.state.apiData == item && c.state.apiPaging == s.apiPaging
  {
  }

  /** A `status: 999` rejection pushes the network-error route once and is rethrown. */
  lemma NetworkErrorExample(s: HookState)
    ensures var error := Obj(map["status" := Num(999), "message" := Str("offline")]);
            var c := CompleteCall(s, Rejected(error));
            c.pushes == [ErrorNetworkRoute] && c.result == Thrown(error) && !c.state.isLoading
  {
  }
}
