/** The request pipeline of the `Fetchly` client as pure functions: the defaults that
    `configure` installs, the `??`-layered merge of call-site over instance options, URL
    assembly, decoder selection by content type, classification of the outcome into a
    `FetchlyResult`, and the order in which lifecycle hooks fire. The class in module
    Client runs these steps imperatively and is proved to agree with them. */
module Pipeline {
  import opened Nullish
  import opened Values
  import opened Records
  import opened ParamsQuery
  import opened Enums
  import opened Types

  // ---------------------------------------------------------------- configure

  /** The instance defaults after `configure({})`. */
  const HardDefaults := Options(
    None, None, None, Some(30000), Some("same-origin"), Some("default"), Some("same-origin"),
    Some("follow"), Some("about:client"), Some("no-referrer"), None, None, Some(false),
    None, None, None, None)

  /** The instance defaults `configure(options)` installs: given fields as given, hard
      defaults for the omitted fields that have one, and every other field verbatim. */
  function Configured(o: Options): Options
  {
    o.(timeout := Coalesce(o.timeout, HardDefaults.timeout),
       mode := Coalesce(o.mode, HardDefaults.mode),
       cache := Coalesce(o.cache, HardDefaults.cache),
       credentials := Coalesce(o.credentials, HardDefaults.credentials),
       redirect := Coalesce(o.redirect, HardDefaults.redirect),
       referrer := Coalesce(o.referrer, HardDefaults.referrer),
       referrerPolicy := Coalesce(o.referrerPolicy, HardDefaults.referrerPolicy),
       showLogs := Coalesce(o.showLogs, HardDefaults.showLogs))
  }

  /** Every field `configure` defaults is present. */
  predicate Defaulted(o: Options)
  {
    && o.timeout.Some? && o.mode.Some? && o.cache.Some? && o.credentials.Some?
    && o.redirect.Some? && o.referrer.Some? && o.referrerPolicy.Some? && o.showLogs.Some?
  }

  /** What `configure` installs, field by field. */
  lemma ConfiguredFields(o: Options)
    ensures Defaulted(Configured(o))
    ensures Configured(o).timeout == Some(o.timeout.GetOr(30000))
    ensures Configured(o).mode == Some(o.mode.GetOr("same-origin"))
    ensures Configured(o).cache == Some(o.cache.GetOr("default"))
    ensures Configured(o).credentials == Some(o.credentials.GetOr("same-origin"))
    ensures Configured(o).redirect == Some(o.redirect.GetOr("follow"))
    ensures Configured(o).referrer == Some(o.referrer.GetOr("about:client"))
    ensures Configured(o).referrerPolicy == Some(o.referrerPolicy.GetOr("no-referrer"))
    ensures Configured(o).showLogs == Some(o.showLogs.GetOr(false))
    ensures Configured(o).baseURL == o.baseURL && Configured(o).headers == o.headers
    ensures Configured(o).params == o.params && Configured(o).responseFormat == o.responseFormat
    ensures Configured(o).next == o.next
    ensures Configured(o).onRequest == o.onRequest && Configured(o).onSuccess == o.onSuccess
    ensures Configured(o).onError == o.onError && Configured(o).onInternalError == o.onInternalError
  {
  }

  /** `configure({})` installs the hard defaults and forgets every earlier value. */
  lemma ConfiguredEmpty()
    ensures Configured(EmptyOptions) == HardDefaults
  {
  }

  /** Configuring with what `configure` installed changes nothing. */
  lemma ConfiguredIdempotent(o: Options)
    ensures Configured(Configured(o)) == Configured(o)
  {
  }

  // ---------------------------------------------------------------- merging

  /** `options?.next?.revalidate ?? this.next?.revalidate`, and the same for `tags`. */
  function NextFor(inst: Options, call: Options): NextConfig
  {
    var ci := if call.next.Some? then call.next.value else NextConfig(None, None);
    var ii := if inst.next.Some? then inst.next.value else NextConfig(None, None);
    NextConfig(Coalesce(ci.revalidate, ii.revalidate), Coalesce(ci.tags, ii.tags))
  }

  /** `options?.timeout ?? this.timeout ?? 3000`. */
  function EffectiveTimeout(inst: Options, call: Options): int
  {
    call.timeout.GetOr(inst.timeout.GetOr(3000))
  }

  /** `body instanceof FormData ? body : JSON.stringify(body)`, where `json` is the text
      `JSON.stringify(body)` returns. */
  function EncodeBody(body: Body, json: string): SentBody
  {
    if body.Form? then FormBody(body.id) else JsonText(json)
  }

  /** The request options the client hands to `fetch`: pass-through fields call-site over
      instance, headers merged, a body only for a truthy `body`, `next` only on GET. */
  function ConfigFor(inst: Options, verb: Method, call: Options, body: Body, json: string): RequestConfig
  {
    RequestConfig(
      verb,
      Merge(inst.headers.GetOr([]), call.headers.GetOr([])),
      Coalesce(call.mode, inst.mode),
      Coalesce(call.credentials, inst.credentials),
      Coalesce(call.redirect, inst.redirect),
      Coalesce(call.referrer, inst.referrer),
      Coalesce(call.referrerPolicy, inst.referrerPolicy),
      EffectiveTimeout(inst, call),
      Coalesce(call.cache, inst.cache),
      if BodyTruthy(body) then Some(EncodeBody(body, json)) else None,
      if verb == GET then Some(NextFor(inst, call)) else None)
  }

  /** The query-string suffix: the merged parameters stringified when either side has a
      parameter object, and nothing otherwise. */
  function QueryString(inst: Options, call: Options): string
  {
    if inst.params.Some? || call.params.Some?
    then StringifyParams(Merge(inst.params.GetOr([]), call.params.GetOr([])))
    else ""
  }

  /** `options?.baseURL ?? this.baseURL ?? ''`. */
  function BaseUrl(inst: Options, call: Options): string
  {
    Coalesce(call.baseURL, inst.baseURL).GetOr("")
  }

  /** The URL requested: base, then the URL as given, then the query string, with no
      normalisation in between. */
  function FullUrl(inst: Options, url: string, call: Options): string
  {
    BaseUrl(inst, call) + url + QueryString(inst, call)
  }

  /** Every pass-through field is the call-site value when there is one and the instance
      value otherwise; on a configured instance the timeout fallback of 3000 is never used. */
  lemma ConfigLayering(inst: Options, verb: Method, call: Options, body: Body, json: string)
    ensures var c := ConfigFor(inst, verb, call, body, json);
      && c.httpMethod == verb
      && (call.mode.Some? ==> c.mode == call.mode) && (call.mode.None? ==> c.mode == inst.mode)
      && (call.cache.Some? ==> c.cache == call.cache) && (call.cache.None? ==> c.cache == inst.cache)
      && (call.credentials.Some? ==> c.credentials == call.credentials)
      && (call.credentials.None? ==> c.credentials == inst.credentials)
      && (call.redirect.Some? ==> c.redirect == call.redirect) && (call.redirect.None? ==> c.redirect == inst.redirect)
      && (call.referrer.Some? ==> c.referrer == call.referrer) && (call.referrer.None? ==> c.referrer == inst.referrer)
      && (call.referrerPolicy.Some? ==> c.referrerPolicy == call.referrerPolicy)
      && (call.referrerPolicy.None? ==> c.referrerPolicy == inst.referrerPolicy)
      && (Defaulted(inst) ==> c.mode.Some? && c.cache.Some? && c.credentials.Some? && c.redirect.Some?)
      && (Defaulted(inst) ==> c.referrer.Some? && c.referrerPolicy.Some?)
      && (call.timeout.Some? ==> c.timeout == call.timeout.value)
      && (call.timeout.None? && inst.timeout.Some? ==> c.timeout == inst.timeout.value)
      && (call.timeout.None? && inst.timeout.None? ==> c.timeout == 3000)
      && (inst.timeout.Some? ==> c.timeout == call.timeout.GetOr(inst.timeout.value))
  {
  }

  /** Headers are the key-wise union of instance and call-site headers, the call-site value
      winning on a shared key and instance keys keeping their order. */
  lemma HeadersMerged(inst: Options, verb: Method, call: Options, body: Body, json: string)
    requires UniqueKeys(inst.headers.GetOr([])) && UniqueKeys(call.headers.GetOr([]))
    ensures var h := ConfigFor(inst, verb, call, body, json).headers;
      && UniqueKeys(h)
      && (forall k :: Lookup(h, k) == Coalesce(Lookup(call.headers.GetOr([]), k), Lookup(inst.headers.GetOr([]), k)))
      && |h| >= |inst.headers.GetOr([])|
      && (forall i :: 0 <= i < |inst.headers.GetOr([])| ==> h[i].0 == inst.headers.GetOr([])[i].0)
  {
    MergeSpec(inst.headers.GetOr([]), call.headers.GetOr([]));
  }

  /** A body is sent exactly when `body` is truthy; a `FormData` goes as it is, anything
      else as its JSON text. `next` is attached exactly on GET, each field call-site first. */
  lemma BodyAndNext(inst: Options, verb: Method, call: Options, body: Body, json: string)
    ensures var c := ConfigFor(inst, verb, call, body, json);
      && (c.body.Some? <==> BodyTruthy(body))
      && (c.body.Some? && body.Form? ==> c.body.value == FormBody(body.id))
      && (c.body.Some? && !body.Form? ==> c.body.value == JsonText(json))
      && (c.next.Some? <==> verb == GET)
      && (c.next.Some? && call.next.Some? && call.next.value.revalidate.Some? ==>
            c.next.value.revalidate == call.next.value.revalidate)
      && (c.next.Some? && (call.next.None? || call.next.value.revalidate.None?) ==>
            c.next.value.revalidate == (if inst.next.Some? then inst.next.value.revalidate else None))
      && (c.next.Some? && call.next.Some? && call.next.value.tags.Some? ==> c.next.value.tags == call.next.value.tags)
      && (c.next.Some? && (call.next.None? || call.next.value.tags.None?) ==>
            c.next.value.tags == (if inst.next.Some? then inst.next.value.tags else None))
  {
  }

  /** The query string is empty exactly when neither side has a parameter object, and then
      the URL is base plus URL; otherwise it starts with `?`. */
  lemma UrlShape(inst: Options, url: string, call: Options)
    ensures var q := QueryString(inst, call);
      && FullUrl(inst, url, call) == BaseUrl(inst, call) + url + q
      && (q == "" <==> inst.params.None? && call.params.None?)
      && (q != "" ==> q[0] == '?')
      && (call.baseURL.Some? ==> BaseUrl(inst, call) == call.baseURL.value)
      && (call.baseURL.None? && inst.baseURL.Some? ==> BaseUrl(inst, call) == inst.baseURL.value)
      && (call.baseURL.None? && inst.baseURL.None? ==> BaseUrl(inst, call) == "")
  {
  }

  /** Reading the query of the URL back gives the emitted merged parameters in order: a
      parameter the call site passes replaces the instance's value in place. */
  lemma QueryMergesParams(inst: Options, call: Options, key: string)
    requires inst.params.Some? || call.params.Some?
    requires UniqueKeys(inst.params.GetOr([])) && UniqueKeys(call.params.GetOr([]))
    requires QuerySafe(inst.params.GetOr([])) && QuerySafe(call.params.GetOr([]))
    ensures var merged := Merge(inst.params.GetOr([]), call.params.GetOr([]));
      && ParseQuery(QueryString(inst, call)) == AsText(Filtered(merged))
      && Lookup(merged, key) == Coalesce(Lookup(call.params.GetOr([]), key), Lookup(inst.params.GetOr([]), key))
  {
    var a, b := inst.params.GetOr([]), call.params.GetOr([]);
    MergeSpec(a, b);
    var merged := Merge(a, b);
    forall i | 0 <= i < |merged|
      ensures '&' !in merged[i].0 && '=' !in merged[i].0 && '&' !in ToString(merged[i].1)
    {
      assert merged[i] in merged;
      if merged[i] in a {
        var j :| 0 <= j < |a| && a[j] == merged[i];
      } else {
        var j :| 0 <= j < |b| && b[j] == merged[i];
      }
    }
    ParseStringify(merged);
  }

  // ---------------------------------------------------------------- decoder selection

  /** `s.includes(sub)`. */
  function Contains(s: string, sub: string): bool
  {
    if |sub| > |s| then false else s[..|sub|] == sub || Contains(s[1..], sub)
  }

  /** `sub` stands in `s` at position `i`. */
  predicate OccursAt(s: string, sub: string, i: int)
  {
    0 <= i && i + |sub| <= |s| && s[i..i + |sub|] == sub
  }

  /** `includes` is substring search. */
  lemma {:induction false} ContainsIff(s: string, sub: string)
    ensures Contains(s, sub) <==> exists i :: OccursAt(s, sub, i)
    decreases |s|
  {
    if |sub| > |s| {
      forall i | 0 <= i ensures !OccursAt(s, sub, i) { }
    } else if s[..|sub|] == sub {
      assert OccursAt(s, sub, 0);
    } else {
      assert |s| > 0;
      ContainsIff(s[1..], sub);
      if Contains(s[1..], sub) {
        var i :| OccursAt(s[1..], sub, i);
        assert s[i + 1..i + 1 + |sub|] == s[1..][i..i + |sub|];
        assert OccursAt(s, sub, i + 1);
      }
      forall i | OccursAt(s, sub, i) ensures OccursAt(s[1..], sub, i - 1) {
        assert i != 0;
        assert s[1..][i - 1..i - 1 + |sub|] == s[i..i + |sub|];
      }
    }
  }

  /** A string contains each of its prefixes. */
  lemma ContainsPrefix(p: string, rest: string)
    ensures Contains(p + rest, p)
  {
    assert (p + rest)[..|p|] == p;
  }

  /** The content-type fragments the client looks for, in the order it tries them. */
  const SniffTable: seq<(string, ResponseFormat)> :=
    [("application/json", JSON), ("text", Text), ("blob", Blob), ("form-data", FormData), ("array-buffer", ArrayBuffer)]

  /** The if-chain over the `Content-Type` header: absent header or no match gives none. */
  function Sniff(contentType: Option<string>): Option<ResponseFormat>
  {
    if contentType.None? then None
    else
      var ct := contentType.value;
      if Contains(ct, "application/json") then Some(JSON)
      else if Contains(ct, "text") then Some(Text)
      else if Contains(ct, "blob") then Some(Blob)
      else if Contains(ct, "form-data") then Some(FormData)
      else if Contains(ct, "array-buffer") then Some(ArrayBuffer)
      else None
  }

  /** The format of the first table row whose fragment the header contains. */
  function FirstMatch(ct: string, table: seq<(string, ResponseFormat)>): Option<ResponseFormat>
  {
    if table == [] then None
    else if Contains(ct, table[0].0) then Some(table[0].1)
    else FirstMatch(ct, table[1..])
  }

  /** First-match search gives row `i`'s format exactly when row `i` matches and no earlier row does. */
  lemma {:induction false} FirstMatchSpec(ct: string, table: seq<(string, ResponseFormat)>)
    ensures FirstMatch(ct, table).None? <==> forall i :: 0 <= i < |table| ==> !Contains(ct, table[i].0)
    ensures forall i :: 0 <= i < |table| && Contains(ct, table[i].0) && (forall j :: 0 <= j < i ==> !Contains(ct, table[j].0))
              ==> FirstMatch(ct, table) == Some(table[i].1)
    ensures FirstMatch(ct, table).Some? ==>
              exists i :: 0 <= i < |table| && Contains(ct, table[i].0)
                && FirstMatch(ct, table) == Some(table[i].1) && forall j :: 0 <= j < i ==> !Contains(ct, table[j].0)
  {
    if table != [] {
      var rest := table[1..];
      FirstMatchSpec(ct, rest);
      forall i | 0 < i < |table| ensures table[i] == rest[i - 1] { }
      if !Contains(ct, table[0].0) && FirstMatch(ct, rest).Some? {
        var i :| 0 <= i < |rest| && Contains(ct, rest[i].0) && FirstMatch(ct, rest) == Some(rest[i].1)
              && forall j :: 0 <= j < i ==> !Contains(ct, rest[j].0);
        assert forall j :: 0 <= j < i + 1 ==> !Contains(ct, table[j].0) by {
          forall j | 0 <= j < i + 1 ensures !Contains(ct, table[j].0) {
            if j > 0 { assert table[j] == rest[j - 1]; }
          }
        }
        assert table[i + 1] == rest[i];
      }
    }
  }

  /** The sniffing if-chain is first-match search over the table, in table order. */
  lemma SniffIsFirstMatch(ct: string)
    ensures Sniff(Some(ct)) == FirstMatch(ct, SniffTable)
  {
    var t4: seq<(string, ResponseFormat)> := [("array-buffer", ArrayBuffer)];
    var t3 := [("form-data", FormData)] + t4;
    var t2 := [("blob", Blob)] + t3;
    var t1 := [("text", Text)] + t2;
    assert SniffTable == [("application/json", JSON)] + t1;
    assert FirstMatch(ct, t4[1..]) == None;
    assert FirstMatch(ct, SniffTable) == if Contains(ct, "application/json") then Some(JSON) else FirstMatch(ct, t1);
    assert FirstMatch(ct, t1) == if Contains(ct, "text") then Some(Text) else FirstMatch(ct, t2);
    assert FirstMatch(ct, t2) == if Contains(ct, "blob") then Some(Blob) else FirstMatch(ct, t3);
    assert FirstMatch(ct, t3) == if Contains(ct, "form-data") then Some(FormData) else FirstMatch(ct, t4);
    assert FirstMatch(ct, t4) == if Contains(ct, "array-buffer") then Some(ArrayBuffer) else None;
  }

  /** Sniffing picks row `i`'s format exactly when the header contains row `i`'s fragment
      and none of the fragments before it; with no header, or no match, it picks none. */
  lemma SniffOrder(contentType: Option<string>, i: nat)
    requires i < |SniffTable|
    ensures contentType.None? ==> Sniff(contentType) == None
    ensures contentType.Some? ==>
      (Sniff(contentType) == Some(SniffTable[i].1) <==>
        (Contains(contentType.value, SniffTable[i].0)
         && forall j :: 0 <= j < i ==> !Contains(contentType.value, SniffTable[j].0)))
    ensures contentType.Some? ==>
      (Sniff(contentType).None? <==> forall j :: 0 <= j < |SniffTable| ==> !Contains(contentType.value, SniffTable[j].0))
  {
    if contentType.Some? {
      var ct := contentType.value;
      SniffIsFirstMatch(ct);
      FirstMatchSpec(ct, SniffTable);
      if Sniff(contentType) == Some(SniffTable[i].1) {
        var k :| 0 <= k < |SniffTable| && Contains(ct, SniffTable[k].0)
              && FirstMatch(ct, SniffTable) == Some(SniffTable[k].1)
              && forall j :: 0 <= j < k ==> !Contains(ct, SniffTable[j].0);
        assert SniffTable[k].1 == SniffTable[i].1;
        assert k == i;
      }
    }
  }

  /** `options?.responseFormat ?? this.responseFormat`, sniffed from the header when neither is set. */
  function SelectFormat(explicit: Option<ResponseFormat>, contentType: Option<string>): Option<ResponseFormat>
  {
    if explicit.Some? then explicit else Sniff(contentType)
  }

  /** The `switch` over the selected format: its decoder, or the JSON decoder by default. */
  function DecoderFor(format: Option<ResponseFormat>): ResponseFormat
  {
    format.GetOr(JSON)
  }

  /** An explicit format is used without looking at the header; otherwise the sniffed one,
      and JSON when sniffing finds nothing. */
  lemma DecoderChoice(explicit: Option<ResponseFormat>, contentType: Option<string>)
    ensures explicit.Some? ==> DecoderFor(SelectFormat(explicit, contentType)) == explicit.value
    ensures explicit.None? && Sniff(contentType).Some? ==> DecoderFor(SelectFormat(explicit, contentType)) == Sniff(contentType).value
    ensures explicit.None? && Sniff(contentType).None? ==> DecoderFor(SelectFormat(explicit, contentType)) == JSON
  {
  }

  /** A JSON header with parameters selects the JSON decoder. */
  lemma SniffJsonWithCharset()
    ensures Sniff(Some("application/json; charset=utf-8")) == Some(JSON)
  {
    assert "application/json; charset=utf-8" == "application/json" + "; charset=utf-8";
    ContainsPrefix("application/json", "; charset=utf-8");
  }

  /** A plain-text header selects the text decoder; a missing header falls to the JSON default. */
  lemma SniffTextAndMissing()
    ensures Sniff(Some("text/plain")) == Some(Text)
    ensures DecoderFor(SelectFormat(None, None)) == JSON
  {
    assert !Contains("text/plain", "application/json");
    assert "text/plain" == "text" + "/plain";
    ContainsPrefix("text", "/plain");
  }
}
