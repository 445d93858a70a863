/** The `Fetchly` client: an object holding instance defaults that `configure` replaces,
    and `_fetch` with its verb wrappers, which build one request from the defaults and
    the call-site options, hand it to the host and turn what comes back into a result
    while firing the lifecycle hooks. */
module Client {
  import opened Nullish
  import opened Records
  import opened ParamsQuery
  import opened Enums
  import opened Types
  import opened Pipeline
  import opened Lifecycle

  class Fetchly {
    var baseURL: Option<string>
    var headers: Option<Entries<string>>
    var params: Option<Entries<Values.Scalar>>
    var timeout: Option<int>
    var mode: Option<string>
    var cache: Option<string>
    var credentials: Option<string>
    var redirect: Option<string>
    var referrer: Option<string>
    var referrerPolicy: Option<string>
    var responseFormat: Option<ResponseFormat>
    var next: Option<NextConfig>
    var showLogs: bool
    var onRequest: Option<Hook>
    var onSuccess: Option<Hook>
    var onError: Option<Hook>
    var onInternalError: Option<Hook>

    /** The instance fields read as an options record. */
    function InstanceOptions(): Options
      reads this
    {
      Options(baseURL, headers, params, timeout, mode, cache, credentials, redirect, referrer,
        referrerPolicy, responseFormat, next, Some(showLogs), onRequest, onSuccess, onError, onInternalError)
    }

    /** Every field `configure` defaults holds a value. */
    ghost predicate Valid()
      reads this
    {
      Defaulted(InstanceOptions())
    }

    constructor(options: Options)
      ensures InstanceOptions() == Configured(options)
      ensures Valid()
    {
      new;
      Configure(options);
    }

    /** Replaces every field: omitted fields with defaulted values get their default,
        the others the given value, absent or not. */
    method Configure(options: Options)
      modifies this
      ensures InstanceOptions() == Configured(options)
      ensures Valid()
    {
      SetTarget(options);
      SetRequestDefaults(options);
      SetPolicy(options);
      SetResponseHandling(options);
      SetHooks(options);
    }

    /** The fields that shape the URL, taken verbatim. */
    method SetTarget(options: Options)
      modifies this`baseURL, this`headers, this`params
      ensures baseURL == options.baseURL && headers == options.headers && params == options.params
    {
      baseURL := options.baseURL;
      headers := options.headers;
      params := options.params;
    }

    /** Timeout, mode, cache and credentials, each defaulted when omitted. */
    method SetRequestDefaults(options: Options)
      modifies this`timeout, this`mode, this`cache, this`credentials
      ensures timeout == Some(options.timeout.GetOr(30000))
      ensures mode == Some(options.mode.GetOr("same-origin"))
      ensures cache == Some(options.cache.GetOr("default"))
      ensures credentials == Some(options.credentials.GetOr("same-origin"))
    {
      timeout := Some(options.timeout.GetOr(30000));
      mode := Some(options.mode.GetOr("same-origin"));
      cache := Some(options.cache.GetOr("default"));
      credentials := Some(options.credentials.GetOr("same-origin"));
    }

    /** Redirect and referrer settings, each defaulted when omitted. */
    method SetPolicy(options: Options)
      modifies this`redirect, this`referrer, this`referrerPolicy
      ensures redirect == Some(options.redirect.GetOr("follow"))
      ensures referrer == Some(options.referrer.GetOr("about:client"))
      ensures referrerPolicy == Some(options.referrerPolicy.GetOr("no-referrer"))
    {
      redirect := Some(options.redirect.GetOr("follow"));
      referrer := Some(options.referrer.GetOr("about:client"));
      referrerPolicy := Some(options.referrerPolicy.GetOr("no-referrer"));
    }

    /** Response format and `next` verbatim, `showLogs` defaulted to false. */
    method SetResponseHandling(options: Options)
      modifies this`responseFormat, this`next, this`showLogs
      ensures responseFormat == options.responseFormat && next == options.next
      ensures showLogs == options.showLogs.GetOr(false)
    {
      responseFormat := options.responseFormat;
      next := options.next;
      showLogs := options.showLogs.GetOr(false);
    }

    /** The four lifecycle hooks, verbatim. */
    method SetHooks(options: Options)
      modifies this`onRequest, this`onSuccess, this`onError, this`onInternalError
      ensures onRequest == options.onRequest && onSuccess == options.onSuccess
      ensures onError == options.onError && onInternalError == options.onInternalError
    {
      onRequest := options.onRequest;
      onSuccess := options.onSuccess;
      onError := options.onError;
      onInternalError := options.onInternalError;
    }

    /** `this?.hook?.()` then `options?.hook?.()`, appending to `trace` each hook that fires;
        a throw ends the pair and is returned. */
    static method CallHooks(kind: HookKind, first: Option<Hook>, second: Option<Hook>, trace: seq<Event>)
      returns (trace': seq<Event>, thrown: Option<Thrown>)
      ensures trace' == trace + FirePair(kind, first, second).0
      ensures thrown == FirePair(kind, first, second).1
    {
      trace' := trace;
      thrown := None;
      if first.Some? {
        trace' := trace' + [Event(kind, Instance)];
        if first.value.Throws? {
          thrown := Some(first.value.thrown);
          return;
        }
      }
      if second.Some? {
        trace' := trace' + [Event(kind, CallSite)];
        if second.value.Throws? {
          thrown := Some(second.value.thrown);
        }
      }
    }

    /** The URL and the request options `_fetch` builds before calling the host: the
        record with its `??`-merged fields, then `body` and `next` set on it in place. */
    method RequestFor(url: string, verb: Method, options: Options, body: Body, json: string)
      returns (fullUrl: string, config: RequestConfig)
      ensures fullUrl == FullUrl(InstanceOptions(), url, options)
      ensures config == ConfigFor(InstanceOptions(), verb, options, body, json)
    {
      var queryString :=
        if params.Some? || options.params.Some? then StringifyParams(Merge(params.GetOr([]), options.params.GetOr([])))
        else "";
      var base := Coalesce(options.baseURL, baseURL).GetOr("");
      fullUrl := base + url + queryString;

      var callNext := options.next.GetOr(NextConfig(None, None));
      var instNext := next.GetOr(NextConfig(None, None));
      var nextConfig := NextConfig(Coalesce(callNext.revalidate, instNext.revalidate), Coalesce(callNext.tags, instNext.tags));

      var fetchOptions := RequestConfig(
        verb,
        Merge(headers.GetOr([]), options.headers.GetOr([])),
        Coalesce(options.mode, mode),
        Coalesce(options.credentials, credentials),
        Coalesce(options.redirect, redirect),
        Coalesce(options.referrer, referrer),
        Coalesce(options.referrerPolicy, referrerPolicy),
        options.timeout.GetOr(timeout.GetOr(3000)),
        Coalesce(options.cache, cache),
        None, None);
      if BodyTruthy(body) {
        fetchOptions := fetchOptions.(body := Some(if body.Form? then FormBody(body.id) else JsonText(json)));
      }
      if verb == GET {
        fetchOptions := fetchOptions.(next := Some(nextConfig));
      }
      config := fetchOptions;
    }

    /** The `responseFormat` local: the explicit format, or else the one the if-chain over
        the `Content-Type` header assigns; then the decoder the `switch` runs on it. */
    static method DecoderOf(explicit: Option<ResponseFormat>, contentType: Option<string>)
      returns (decoder: ResponseFormat)
      ensures decoder == DecoderFor(SelectFormat(explicit, contentType))
    {
      var format := explicit;
      if format.None? && contentType.Some? {
        var ct := contentType.value;
        if Contains(ct, "application/json") {
          format := Some(JSON);
        } else if Contains(ct, "text") {
          format := Some(Text);
        } else if Contains(ct, "blob") {
          format := Some(Blob);
        } else if Contains(ct, "form-data") {
          format := Some(FormData);
        } else if Contains(ct, "array-buffer") {
          format := Some(ArrayBuffer);
        }
      }
      match format
      case Some(f) => decoder := f;
      case None => decoder := JSON;
    }

    /** The `catch` block for `error`: classify it, fire the `onInternalError` pair after
        `trace`, and resolve with the error result unless one of those hooks throws. */
    method HandleThrown(options: Options, error: Thrown, trace: seq<Event>)
      returns (outcome: FetchOutcome, trace': seq<Event>)
      ensures (outcome, trace') == Catch(InstanceOptions(), options, error, trace)
    {
      var errorType := Internal;
      var statusCode := 500;
      var statusText := "Internal Error";
      if error.TypeErrorKind? {
        errorType := Network;
        statusCode := 0;
        statusText := "Network Error";
      } else if error.ResponseLike? {
        errorType := API;
        statusCode := error.status;
        statusText := error.statusText;
      }
      var rethrown: Option<Thrown>;
      trace', rethrown := CallHooks(OnInternalError, onInternalError, options.onInternalError, trace);
      if rethrown.Some? {
        outcome := Rejected(rethrown.value);
      } else {
        outcome := Resolved(FetchlyResult(None, Error, statusCode, statusText, true, Some(errorType), None, ThrownField(error)));
      }
    }

    /** The rest of the `try` block once the response decoded to `parsedResponse`: the
        `onError` or `onSuccess` pair by `response.ok`, then the record it returns. */
    method HandleResponse(options: Options, status: int, statusText: string, parsedResponse: Payload, trace: seq<Event>)
      returns (outcome: FetchOutcome, trace': seq<Event>)
      ensures (outcome, trace') == Respond(InstanceOptions(), options, status, statusText, parsedResponse, trace)
    {
      var ok := IsOk(status);
      var caught: Option<Thrown>;
      if !ok {
        trace', caught := CallHooks(OnError, onError, options.onError, trace);
      } else {
        trace', caught := CallHooks(OnSuccess, onSuccess, options.onSuccess, trace);
      }
      if caught.Some? {
        outcome, trace' := HandleThrown(options, caught.value, trace');
      } else {
        outcome := Resolved(FetchlyResult(
          if ok then PayloadField(parsedResponse) else None,
          if ok then Success else Error,
          status, statusText,
          !ok,
          if ok then None else Some(API),
          if ok then None else PayloadField(parsedResponse),
          None));
      }
    }

    /** `_fetch(url, method, options, body)` against the host outcome `host`, where `json` is
        what `JSON.stringify(body)` returns. Yields the URL and request handed to the host,
        how the call settles, and the hooks fired in order. */
    method Fetch(url: string, verb: Method, options: Options, body: Body, json: string, host: HostOutcome)
      returns (fullUrl: string, config: RequestConfig, outcome: FetchOutcome, trace: seq<Event>)
      ensures fullUrl == FullUrl(InstanceOptions(), url, options)
      ensures config == ConfigFor(InstanceOptions(), verb, options, body, json)
      ensures (outcome, trace) == Run(InstanceOptions(), options, host)
      ensures Valid() ==> config.timeout == options.timeout.GetOr(timeout.value)
    {
      ghost var inst := InstanceOptions();
      fullUrl, config := RequestFor(url, verb, options, body, json);
      ConfigLayering(inst, verb, options, body, json);

      // the `try` block
      var caught: Option<Thrown>;
      trace, caught := CallHooks(OnRequest, onRequest, options.onRequest, []);
      assert HookOf(inst, OnRequest) == onRequest && HookOf(options, OnRequest) == options.onRequest;
      assert [] + FirePair(OnRequest, onRequest, options.onRequest).0 == FirePair(OnRequest, onRequest, options.onRequest).0;
      if caught.Some? {
        outcome, trace := HandleThrown(options, caught.value, trace);
        return;
      }
      match host
      case Threw(t) =>
        outcome, trace := HandleThrown(options, t, trace);
      case Completed(status, statusText, contentType, decode) =>
        var decoder := DecoderOf(Coalesce(options.responseFormat, responseFormat), contentType);
        assert decoder == FormatFor(inst, options, contentType);
        match decode(decoder)
        case ParseFailed(t) =>
          outcome, trace := HandleThrown(options, t, trace);
        case Parsed(parsedResponse) =>
          outcome, trace := HandleResponse(options, status, statusText, parsedResponse, trace);
    }

    /** `get(url, options)`: no body, `next` attached. */
    method Get(url: string, options: Options, host: HostOutcome)
      returns (fullUrl: string, config: RequestConfig, outcome: FetchOutcome, trace: seq<Event>)
      ensures fullUrl == FullUrl(InstanceOptions(), url, options)
      ensures config == ConfigFor(InstanceOptions(), GET, options, Primitive(Values.Undefined), "")
      ensures config.httpMethod == GET && config.body.None? && config.next == Some(NextFor(InstanceOptions(), options))
      ensures (outcome, trace) == Run(InstanceOptions(), options, host)
    {
      fullUrl, config, outcome, trace := Fetch(url, GET, options, Primitive(Values.Undefined), "", host);
    }

    /** `post(url, body, options)`: the body sent when truthy, no `next`. */
    method Post(url: string, body: Body, json: string, options: Options, host: HostOutcome)
      returns (fullUrl: string, config: RequestConfig, outcome: FetchOutcome, trace: seq<Event>)
      ensures fullUrl == FullUrl(InstanceOptions(), url, options)
      ensures config == ConfigFor(InstanceOptions(), POST, options, body, json)
      ensures config.httpMethod == POST && config.next.None? && (config.body.Some? <==> BodyTruthy(body))
      ensures (outcome, trace) == Run(InstanceOptions(), options, host)
    {
      fullUrl, config, outcome, trace := Fetch(url, POST, options, body, json, host);
    }

    /** `put(url, body, options)`: the body sent when truthy, no `next`. */
    method Put(url: string, body: Body, json: string, options: Options, host: HostOutcome)
      returns (fullUrl: string, config: RequestConfig, outcome: FetchOutcome, trace: seq<Event>)
      ensures fullUrl == FullUrl(InstanceOptions(), url, options)
      ensures config == ConfigFor(InstanceOptions(), PUT, options, body, json)
      ensures config.httpMethod == PUT && config.next.None? && (config.body.Some? <==> BodyTruthy(body))
      ensures (outcome, trace) == Run(InstanceOptions(), options, host)
    {
      fullUrl, config, outcome, trace := Fetch(url, PUT, options, body, json, host);
    }

    /** `delete(url, options)`: no body, no `next`. */
    method Delete(url: string, options: Options, host: HostOutcome)
      returns (fullUrl: string, config: RequestConfig, outcome: FetchOutcome, trace: seq<Event>)
      ensures fullUrl == FullUrl(InstanceOptions(), url, options)
      ensures config == ConfigFor(InstanceOptions(), DELETE, options, Primitive(Values.Undefined), "")
      ensures config.httpMethod == DELETE && config.body.None? && config.next.None?
      ensures (outcome, trace) == Run(InstanceOptions(), options, host)
    {
      fullUrl, config, outcome, trace := Fetch(url, DELETE, options, Primitive(Values.Undefined), "", host);
    }
  }
}
