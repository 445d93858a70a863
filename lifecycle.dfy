/** What one request through `Fetchly` resolves to and which lifecycle hooks it fires:
    the classification of a completed response or a thrown value into a `FetchlyResult`,
    and the order of the `onRequest`, `onSuccess`/`onError` and `onInternalError` pairs.
    The host `fetch` and the body decoders are given as a `HostOutcome`. */
module Lifecycle {
  import opened Nullish
  import opened Enums
  import opened Types
  import opened Pipeline

  // ---------------------------------------------------------------- classification

  /** `response.ok`: the status lies in the range 200 to 299, as the "ok status" of
      section 2.2.3 of the WHATWG Fetch Standard defines it. */
  predicate IsOk(status: int)
  {
    200 <= status <= 299
  }

  /** How many of `data`, `error` and `internalError` a result carries. */
  function Carried(r: FetchlyResult): nat
  {
    (if r.data.Some? then 1 else 0) + (if r.error.Some? then 1 else 0) + (if r.internalError.Some? then 1 else 0)
  }

  /** The shape every result the client resolves with has. At most one of `data`, `error`
      and `internalError` is set; none is when the body or the thrown value was `null`. */
  predicate WellFormed(r: FetchlyResult)
  {
    && (r.status == Success <==> r.errorType.None?)
    && (r.hasError <==> r.status == Error)
    && (r.data.Some? ==> r.status == Success)
    && (r.error.Some? ==> r.errorType == Some(API))
    && (r.internalError.Some? ==> r.status == Error)
    && (r.errorType == Some(Network) ==> r.statusCode == 0)
    && (r.status == Success ==> IsOk(r.statusCode))
    && Carried(r) <= 1
  }

  /** The result for a response that arrived and decoded to `body`. */
  function CompletedResult(status: int, statusText: string, body: Payload): (r: FetchlyResult)
    ensures WellFormed(r)
    ensures r.status == Success <==> IsOk(status)
    ensures !r.hasError <==> IsOk(status)
    ensures r.errorType.None? <==> IsOk(status)
    ensures !IsOk(status) ==> r.errorType == Some(API)
    ensures r.data.Some? <==> IsOk(status) && !body.JsonNull?
    ensures r.error.Some? <==> !IsOk(status) && !body.JsonNull?
    ensures r.data.Some? ==> r.data.value == body
    ensures r.error.Some? ==> r.error.value == body
    ensures r.internalError.None?
    ensures Carried(r) == 1 <==> !body.JsonNull?
    ensures r.statusCode == status && r.statusText == statusText
  {
    var ok := IsOk(status);
    FetchlyResult(
      if ok then PayloadField(body) else None,
      if ok then Success else Error,
      status, statusText,
      !ok,
      if ok then None else Some(API),
      if ok then None else PayloadField(body),
      None)
  }

  /** The result the `catch` block builds for a thrown value. */
  function ThrownResult(t: Thrown): (r: FetchlyResult)
    ensures WellFormed(r)
    ensures r.status == Error && r.hasError && r.data.None? && r.error.None?
    ensures r.internalError.Some? <==> !t.ThrownNull?
    ensures r.internalError.Some? ==> r.internalError.value == t
    ensures Carried(r) == 1 <==> !t.ThrownNull?
    ensures t.TypeErrorKind? ==> r.errorType == Some(Network) && r.statusCode == 0 && r.statusText == "Network Error"
    ensures t.ResponseLike? ==> r.errorType == Some(API) && r.statusCode == t.status && r.statusText == t.statusText
    ensures t.Other? || t.ThrownNull? ==>
      r.errorType == Some(Internal) && r.statusCode == 500 && r.statusText == "Internal Error"
  {
    var (kind, code, text) :=
      match t
      case TypeErrorKind(_) => (Network, 0, "Network Error")
      case ResponseLike(s, st) => (API, s, st)
      case _ => (Internal, 500, "Internal Error");
    FetchlyResult(None, Error, code, text, true, Some(kind), None, ThrownField(t))
  }

  /** A thrown `Response` is an API error even when its own status is ok, so a result
      may carry an ok status code with status Error. */
  lemma ThrownOkResponseIsError()
    ensures var r := ThrownResult(ResponseLike(200, "OK"));
      r.status == Error && r.statusCode == 200 && IsOk(r.statusCode) && r.errorType == Some(API)
  {
  }

  // ---------------------------------------------------------------- hooks

  /** The hook of kind `kind` that `o` carries. */
  function HookOf(o: Options, kind: HookKind): Option<Hook>
  {
    match kind
    case OnRequest => o.onRequest
    case OnSuccess => o.onSuccess
    case OnError => o.onError
    case OnInternalError => o.onInternalError
  }

  /** `this?.hook?.()` then `options?.hook?.()`: each hook present fires, and a throw from
      the instance hook stops the call-site hook from firing. Returns the events and what
      was thrown, if anything. */
  function FirePair(kind: HookKind, inst: Option<Hook>, call: Option<Hook>): (seq<Event>, Option<Thrown>)
  {
    if inst.Some? && inst.value.Throws? then ([Event(kind, Instance)], Some(inst.value.thrown))
    else
      var first := if inst.Some? then [Event(kind, Instance)] else [];
      if call.Some? then (first + [Event(kind, CallSite)], if call.value.Throws? then Some(call.value.thrown) else None)
      else (first, None)
  }

  /** The events of a pair whose hooks all return. */
  function Defined(kind: HookKind, inst: Option<Hook>, call: Option<Hook>): seq<Event>
  {
    (if inst.Some? then [Event(kind, Instance)] else []) + (if call.Some? then [Event(kind, CallSite)] else [])
  }

  /** A hook that throws. */
  predicate Throwing(h: Option<Hook>)
  {
    h.Some? && h.value.Throws?
  }

  /** A pair fires its defined hooks, instance first, up to and including the first that
      throws, and reports that hook's thrown value. */
  lemma FirePairSpec(kind: HookKind, inst: Option<Hook>, call: Option<Hook>)
    ensures var (ev, thrown) := FirePair(kind, inst, call);
      && (!Throwing(inst) && !Throwing(call) ==> ev == Defined(kind, inst, call) && thrown.None?)
      && (Throwing(inst) ==> ev == [Event(kind, Instance)] && thrown == Some(inst.value.thrown))
      && (!Throwing(inst) && Throwing(call) ==> ev == Defined(kind, inst, call) && thrown == Some(call.value.thrown))
      && (thrown.Some? <==> Throwing(inst) || Throwing(call))
      && |ev| <= 2
      && (forall i :: 0 <= i < |ev| ==> ev[i].kind == kind)
      && (forall i :: 0 <= i < |ev| && ev[i].tier == Instance ==> i == 0 && inst.Some?)
      && (forall i :: 0 <= i < |ev| && ev[i].tier == CallSite ==> i == |ev| - 1 && call.Some?)
  {
  }

  // ---------------------------------------------------------------- one request

  /** The `catch` block: the `onInternalError` pair fires after everything fired `before`;
      it sits outside the `try`, so a throw from it rejects the call. */
  function Catch(inst: Options, call: Options, t: Thrown, before: seq<Event>): (FetchOutcome, seq<Event>)
  {
    var (ev, thrown) := FirePair(OnInternalError, HookOf(inst, OnInternalError), HookOf(call, OnInternalError));
    if thrown.Some? then (Rejected(thrown.value), before + ev) else (Resolved(ThrownResult(t)), before + ev)
  }

  /** The format whose decoder reads a completed response. */
  function FormatFor(inst: Options, call: Options, contentType: Option<string>): ResponseFormat
  {
    DecoderFor(SelectFormat(Coalesce(call.responseFormat, inst.responseFormat), contentType))
  }

  /** The pair `response.ok` selects: `onSuccess` for an ok status, `onError` otherwise. */
  function ResponseKind(status: int): HookKind
  {
    if IsOk(status) then OnSuccess else OnError
  }

  /** The rest of the `try` block once the response decoded to `v`: the `onSuccess` or
      `onError` pair fires after `before`, and unless one of its hooks throws the call
      resolves with the completed result. */
  function Respond(inst: Options, call: Options, status: int, statusText: string, v: Payload, before: seq<Event>)
    : (FetchOutcome, seq<Event>)
  {
    var kind := ResponseKind(status);
    var (ev, thrown) := FirePair(kind, HookOf(inst, kind), HookOf(call, kind));
    if thrown.Some? then Catch(inst, call, thrown.value, before + ev)
    else (Resolved(CompletedResult(status, statusText, v)), before + ev)
  }

  /** The outcome of one request and the hooks it fires, in firing order: the `onRequest`
      pair, the host call, decoding, the `onSuccess` or `onError` pair by `response.ok`,
      and the `onInternalError` pair on any throw inside the `try`. */
  function Run(inst: Options, call: Options, host: HostOutcome): (FetchOutcome, seq<Event>)
  {
    var (ev1, t1) := FirePair(OnRequest, HookOf(inst, OnRequest), HookOf(call, OnRequest));
    if t1.Some? then Catch(inst, call, t1.value, ev1)
    else match host
      case Threw(t) => Catch(inst, call, t, ev1)
      case Completed(status, statusText, contentType, decode) =>
        match decode(FormatFor(inst, call, contentType))
        case ParseFailed(t) => Catch(inst, call, t, ev1)
        case Parsed(v) => Respond(inst, call, status, statusText, v, ev1)
  }

  /** The position of a hook kind in the firing order. */
  function Phase(kind: HookKind): nat
  {
    match kind
    case OnRequest => 0
    case OnSuccess => 1
    case OnError => 1
    case OnInternalError => 2
  }

  /** Events are in phase order, at most one of `onSuccess`/`onError` fires, and within a
      kind the instance hook precedes the call-site hook. */
  ghost predicate Ordered(trace: seq<Event>)
  {
    && (forall i, j :: 0 <= i < j < |trace| ==> Phase(trace[i].kind) <= Phase(trace[j].kind))
    && (forall i, j :: 0 <= i < j < |trace| && Phase(trace[i].kind) == 1 && Phase(trace[j].kind) == 1 ==> trace[i].kind == trace[j].kind)
    && (forall i, j :: 0 <= i < j < |trace| && trace[i].kind == trace[j].kind ==>
          trace[i].tier == Instance && trace[j].tier == CallSite)
  }

  /** Every event in the trace is a hook that is defined at its tier. */
  ghost predicate FiredOnlyDefined(inst: Options, call: Options, trace: seq<Event>)
  {
    forall i :: 0 <= i < |trace| ==>
      HookOf(if trace[i].tier == Instance then inst else call, trace[i].kind).Some?
  }

  lemma PairOrdered(kind: HookKind, inst: Options, call: Options)
    ensures Ordered(FirePair(kind, HookOf(inst, kind), HookOf(call, kind)).0)
    ensures FiredOnlyDefined(inst, call, FirePair(kind, HookOf(inst, kind), HookOf(call, kind)).0)
    ensures forall e :: e in FirePair(kind, HookOf(inst, kind), HookOf(call, kind)).0 ==> e.kind == kind
  {
    FirePairSpec(kind, HookOf(inst, kind), HookOf(call, kind));
  }

  /** Concatenating two ordered traces of increasing phase keeps them ordered. */
  lemma {:induction false} AppendOrdered(a: seq<Event>, b: seq<Event>, pa: nat, pb: nat)
    requires Ordered(a) && Ordered(b) && pa < pb
    requires forall e :: e in a ==> Phase(e.kind) <= pa
    requires forall e :: e in b ==> Phase(e.kind) >= pb
    ensures Ordered(a + b)
  {
    var c := a + b;
    forall i, j | 0 <= i < j < |c| ensures Phase(c[i].kind) <= Phase(c[j].kind)
    {
      if j < |a| { assert c[i] == a[i] && c[j] == a[j]; }
      else if i >= |a| { assert c[i] == b[i - |a|] && c[j] == b[j - |a|]; }
      else { assert c[i] == a[i] && a[i] in a && c[j] == b[j - |a|] && b[j - |a|] in b; }
    }
    forall i, j | 0 <= i < j < |c| && Phase(c[i].kind) == 1 && Phase(c[j].kind) == 1
      ensures c[i].kind == c[j].kind
    {
      if j < |a| { assert c[i] == a[i] && c[j] == a[j]; }
      else if i >= |a| { assert c[i] == b[i - |a|] && c[j] == b[j - |a|]; }
    }
    forall i, j | 0 <= i < j < |c| && c[i].kind == c[j].kind
      ensures c[i].tier == Instance && c[j].tier == CallSite
    {
      if j < |a| { assert c[i] == a[i] && c[j] == a[j]; }
      else if i >= |a| { assert c[i] == b[i - |a|] && c[j] == b[j - |a|]; }
    }
  }

  lemma AppendDefined(inst: Options, call: Options, a: seq<Event>, b: seq<Event>)
    requires FiredOnlyDefined(inst, call, a) && FiredOnlyDefined(inst, call, b)
    ensures FiredOnlyDefined(inst, call, a + b)
  {
    forall i | 0 <= i < |a + b|
      ensures HookOf(if (a + b)[i].tier == Instance then inst else call, (a + b)[i].kind).Some?
    {
      if i < |a| { assert (a + b)[i] == a[i]; } else { assert (a + b)[i] == b[i - |a|]; }
    }
  }

  /** The `catch` block keeps an ordered trace ordered and fires only defined hooks. */
  lemma CatchOrdered(inst: Options, call: Options, t: Thrown, before: seq<Event>)
    requires Ordered(before) && FiredOnlyDefined(inst, call, before)
    requires forall e :: e in before ==> Phase(e.kind) <= 1
    ensures Ordered(Catch(inst, call, t, before).1)
    ensures FiredOnlyDefined(inst, call, Catch(inst, call, t, before).1)
  {
    var ev := FirePair(OnInternalError, HookOf(inst, OnInternalError), HookOf(call, OnInternalError)).0;
    PairOrdered(OnInternalError, inst, call);
    AppendOrdered(before, ev, 1, 2);
    AppendDefined(inst, call, before, ev);
  }

  /** Hooks fire in phase order, instance before call site, and only hooks that are defined fire. */
  lemma RunOrdered(inst: Options, call: Options, host: HostOutcome)
    ensures Ordered(Run(inst, call, host).1)
    ensures FiredOnlyDefined(inst, call, Run(inst, call, host).1)
  {
    var (ev1, t1) := FirePair(OnRequest, HookOf(inst, OnRequest), HookOf(call, OnRequest));
    PairOrdered(OnRequest, inst, call);
    if t1.Some? {
      CatchOrdered(inst, call, t1.value, ev1);
    } else if host.Threw? {
      CatchOrdered(inst, call, host.thrown, ev1);
    } else if host.decode(FormatFor(inst, call, host.contentType)).ParseFailed? {
      CatchOrdered(inst, call, host.decode(FormatFor(inst, call, host.contentType)).thrown, ev1);
    } else {
      var kind := ResponseKind(host.status);
      var (ev2, t2) := FirePair(kind, HookOf(inst, kind), HookOf(call, kind));
      PairOrdered(kind, inst, call);
      AppendOrdered(ev1, ev2, 0, 1);
      AppendDefined(inst, call, ev1, ev2);
      if t2.Some? {
        forall e | e in ev1 + ev2 ensures Phase(e.kind) <= 1 { }
        CatchOrdered(inst, call, t2.value, ev1 + ev2);
      }
    }
  }

  /** No hook of `o` throws. */
  predicate NoThrowingHooks(o: Options)
  {
    !Throwing(o.onRequest) && !Throwing(o.onSuccess) && !Throwing(o.onError) && !Throwing(o.onInternalError)
  }

  /** When the response decodes and none of the hooks that run throws (the `onRequest`
      pair and the pair the status selects; the others are never called), the call resolves
      with the completed result, and the trace is the defined `onRequest` hooks followed by
      the defined hooks of exactly one of `onSuccess` (ok) and `onError` (not ok). */
  lemma RunCompletedQuietly(inst: Options, call: Options, host: HostOutcome)
    requires !Throwing(inst.onRequest) && !Throwing(call.onRequest)
    requires host.Completed? && host.decode(FormatFor(inst, call, host.contentType)).Parsed?
    requires !Throwing(HookOf(inst, ResponseKind(host.status))) && !Throwing(HookOf(call, ResponseKind(host.status)))
    ensures var kind := ResponseKind(host.status);
      && Run(inst, call, host).0
         == Resolved(CompletedResult(host.status, host.statusText, host.decode(FormatFor(inst, call, host.contentType)).value))
      && Run(inst, call, host).1
         == Defined(OnRequest, inst.onRequest, call.onRequest) + Defined(kind, HookOf(inst, kind), HookOf(call, kind))
  {
    FirePairSpec(OnRequest, inst.onRequest, call.onRequest);
    var kind := ResponseKind(host.status);
    FirePairSpec(kind, HookOf(inst, kind), HookOf(call, kind));
  }

  /** When no `onRequest` hook throws and the host call or the decoder throws `t`, the
      defined `onRequest` hooks fire, then the `onInternalError` pair, and neither
      `onSuccess` nor `onError`. Unless an `onInternalError` hook throws, both of them fire
      and the call resolves with the classification of `t`. */
  lemma RunThrewQuietly(inst: Options, call: Options, host: HostOutcome, t: Thrown)
    requires !Throwing(inst.onRequest) && !Throwing(call.onRequest)
    requires host == Threw(t) || (host.Completed? && host.decode(FormatFor(inst, call, host.contentType)) == ParseFailed(t))
    ensures Run(inst, call, host).1
         == Defined(OnRequest, inst.onRequest, call.onRequest)
            + FirePair(OnInternalError, inst.onInternalError, call.onInternalError).0
    ensures !Throwing(inst.onInternalError) && !Throwing(call.onInternalError) ==>
      && Run(inst, call, host).0 == Resolved(ThrownResult(t))
      && Run(inst, call, host).1
         == Defined(OnRequest, inst.onRequest, call.onRequest)
            + Defined(OnInternalError, inst.onInternalError, call.onInternalError)
  {
    FirePairSpec(OnRequest, inst.onRequest, call.onRequest);
    FirePairSpec(OnInternalError, inst.onInternalError, call.onInternalError);
  }

  /** Something inside the `try` block throws, so the `catch` block runs: an `onRequest`
      hook, the host call, the decoder, or the `onSuccess`/`onError` hook the status selects. */
  predicate CatchEntered(inst: Options, call: Options, host: HostOutcome)
  {
    || Throwing(inst.onRequest) || Throwing(call.onRequest)
    || host.Threw?
    || host.decode(FormatFor(inst, call, host.contentType)).ParseFailed?
    || Throwing(HookOf(inst, ResponseKind(host.status))) || Throwing(HookOf(call, ResponseKind(host.status)))
  }

  /** A throwing `onRequest` hook, at either tier, means the host is never consulted. The
      defined `onRequest` hooks fire up to the one that throws, then the `onInternalError`
      pair; unless one of those throws, the call resolves with the classification of what
      the `onRequest` hook threw, the instance hook's throw when both would. */
  lemma RunRequestHookThrows(inst: Options, call: Options, h1: HostOutcome, h2: HostOutcome)
    requires Throwing(inst.onRequest) || Throwing(call.onRequest)
    ensures Run(inst, call, h1) == Run(inst, call, h2)
    ensures var fired := if Throwing(inst.onRequest) then [Event(OnRequest, Instance)]
                         else Defined(OnRequest, inst.onRequest, call.onRequest);
      Run(inst, call, h1).1 == fired + FirePair(OnInternalError, inst.onInternalError, call.onInternalError).0
    ensures var t := if Throwing(inst.onRequest) then inst.onRequest.value.thrown else call.onRequest.value.thrown;
      var fired := if Throwing(inst.onRequest) then [Event(OnRequest, Instance)]
                   else Defined(OnRequest, inst.onRequest, call.onRequest);
      !Throwing(inst.onInternalError) && !Throwing(call.onInternalError) ==>
        && Run(inst, call, h1).0 == Resolved(ThrownResult(t))
        && Run(inst, call, h1).1 == fired + Defined(OnInternalError, inst.onInternalError, call.onInternalError)
  {
    FirePairSpec(OnRequest, inst.onRequest, call.onRequest);
    FirePairSpec(OnInternalError, inst.onInternalError, call.onInternalError);
  }

  /** A throwing `onSuccess` or `onError` hook, after the response arrived and decoded,
      sends the call into the `catch` block: the defined `onRequest` hooks, the selected
      pair up to the hook that throws, then the `onInternalError` pair fire. Unless one of
      those throws, the call resolves with the classification of that hook's throw (a
      `TypeError` from `onSuccess` is a Network error with status code 0), and the response
      itself is lost. */
  lemma RunResponseHookThrows(inst: Options, call: Options, host: HostOutcome)
    requires !Throwing(inst.onRequest) && !Throwing(call.onRequest)
    requires host.Completed? && host.decode(FormatFor(inst, call, host.contentType)).Parsed?
    requires Throwing(HookOf(inst, ResponseKind(host.status))) || Throwing(HookOf(call, ResponseKind(host.status)))
    ensures var kind := ResponseKind(host.status);
      var fired := if Throwing(HookOf(inst, kind)) then [Event(kind, Instance)]
                   else Defined(kind, HookOf(inst, kind), HookOf(call, kind));
      Run(inst, call, host).1 == Defined(OnRequest, inst.onRequest, call.onRequest) + fired
                                 + FirePair(OnInternalError, inst.onInternalError, call.onInternalError).0
    ensures var kind := ResponseKind(host.status);
      var t := if Throwing(HookOf(inst, kind)) then HookOf(inst, kind).value.thrown else HookOf(call, kind).value.thrown;
      !Throwing(inst.onInternalError) && !Throwing(call.onInternalError) ==>
        Run(inst, call, host).0 == Resolved(ThrownResult(t))
  {
    var kind := ResponseKind(host.status);
    FirePairSpec(OnRequest, inst.onRequest, call.onRequest);
    FirePairSpec(kind, HookOf(inst, kind), HookOf(call, kind));
    FirePairSpec(OnInternalError, inst.onInternalError, call.onInternalError);
  }

  /** The call rejects exactly when the `catch` block runs and an `onInternalError` hook
      throws; it rejects with the instance hook's throw, or with the call-site hook's when
      the instance hook does not throw. When the `catch` block does not run, the call
      resolves with the completed result. Every resolved result is well formed. */
  lemma RunOutcome(inst: Options, call: Options, host: HostOutcome)
    ensures Run(inst, call, host).0.Resolved? ==> WellFormed(Run(inst, call, host).0.result)
    ensures (Run(inst, call, host).0.Rejected?)
      <==> (CatchEntered(inst, call, host) && (Throwing(inst.onInternalError) || Throwing(call.onInternalError)))
    ensures CatchEntered(inst, call, host) && Throwing(inst.onInternalError) ==>
      Run(inst, call, host).0 == Rejected(inst.onInternalError.value.thrown)
    ensures CatchEntered(inst, call, host) && !Throwing(inst.onInternalError) && Throwing(call.onInternalError) ==>
      Run(inst, call, host).0 == Rejected(call.onInternalError.value.thrown)
    ensures !CatchEntered(inst, call, host) ==>
      host.Completed? && host.decode(FormatFor(inst, call, host.contentType)).Parsed? &&
      Run(inst, call, host).0
        == Resolved(CompletedResult(host.status, host.statusText, host.decode(FormatFor(inst, call, host.contentType)).value))
  {
    FirePairSpec(OnRequest, inst.onRequest, call.onRequest);
    FirePairSpec(OnInternalError, inst.onInternalError, call.onInternalError);
    if host.Completed? {
      var kind := ResponseKind(host.status);
      FirePairSpec(kind, HookOf(inst, kind), HookOf(call, kind));
    }
  }

  /** A network failure reported by the host as a `TypeError` resolves as a Network error
      with status code 0, and a 404 response decoded to `body` as an API error carrying it. */
  lemma RunExamples(inst: Options, call: Options, ct: Option<string>, decode: ResponseFormat -> Decoded, body: Payload)
    requires NoThrowingHooks(inst) && NoThrowingHooks(call)
    requires decode(FormatFor(inst, call, ct)) == Parsed(body)
    ensures var r := Run(inst, call, Threw(TypeErrorKind("Failed to fetch"))).0;
      r.Resolved? && r.result.errorType == Some(Network) && r.result.statusCode == 0
      && r.result.statusText == "Network Error" && r.result.hasError
    ensures var r := Run(inst, call, Completed(404, "Not Found", ct, decode)).0;
      r.Resolved? && r.result.errorType == Some(API) && r.result.statusCode == 404
      && r.result.error == PayloadField(body) && r.result.data.None? && r.result.status == Error
      && r.result.statusText == "Not Found" && r.result.hasError && r.result.internalError.None?
  {
    RunThrewQuietly(inst, call, Threw(TypeErrorKind("Failed to fetch")), TypeErrorKind("Failed to fetch"));
    RunCompletedQuietly(inst, call, Completed(404, "Not Found", ct, decode));
  }
}
