/** `stringifyParams`: turns a flat parameter object into the query-string suffix the
    client appends to a URL, `?k1=v1&k2=v2`, with no percent-encoding. */
module ParamsQuery {
  import opened Values
  import opened Records
  import opened QueryText

  /** The filter of the stringifier: a value is emitted unless it is `null`,
      `undefined`, the empty string or `NaN`. */
  predicate Emitted(v: Scalar)
  {
    !(v.Null? || v.Undefined? || v == Str("") || v.NaN?)
  }

  /** `Object.keys(params).filter(...)`, paired with the values. */
  function Filtered(params: Entries<Scalar>): Entries<Scalar>
  {
    if params == [] then []
    else (if Emitted(params[0].1) then [params[0]] else []) + Filtered(params[1..])
  }

  /** `` `${key}=${params[key]}` `` for one property. */
  function Render(key: string, v: Scalar): string
  {
    key + "=" + ToString(v)
  }

  /** `.map((key) => `${key}=${params[key]}`)`. */
  function RenderAll(params: Entries<Scalar>): (r: seq<string>)
    ensures |r| == |params|
    ensures forall i :: 0 <= i < |params| ==> r[i] == Render(params[i].0, params[i].1)
  {
    if params == [] then [] else [Render(params[0].0, params[0].1)] + RenderAll(params[1..])
  }

  /** The query-string suffix: always starts with `?`. */
  function StringifyParams(params: Entries<Scalar>): (r: string)
    ensures |r| >= 1 && r[0] == '?'
  {
    "?" + Join(RenderAll(Filtered(params)), '&')
  }

  /** How a receiver reads a query back: without the leading `?`, cut at every `&`,
      each piece cut at its first `=`. Nothing is percent-decoded. */
  function ParseQuery(q: string): seq<(string, string)>
  {
    var body := if |q| > 0 && q[0] == '?' then q[1..] else q;
    if body == "" then [] else CutAll(Split(body, '&'))
  }

  function CutAll(pieces: seq<string>): (r: seq<(string, string)>)
    ensures |r| == |pieces|
    ensures forall i :: 0 <= i < |pieces| ==> r[i] == Cut(pieces[i], '=')
  {
    if pieces == [] then [] else [Cut(pieces[0], '=')] + CutAll(pieces[1..])
  }

  /** Each property as the text it contributes: its key and its value converted to a string. */
  function AsText(params: Entries<Scalar>): (r: seq<(string, string)>)
    ensures |r| == |params|
    ensures forall i :: 0 <= i < |params| ==> r[i] == (params[i].0, ToString(params[i].1))
  {
    if params == [] then [] else [(params[0].0, ToString(params[0].1))] + AsText(params[1..])
  }

  /** Keys without `&` or `=`, and values whose text has no `&`: the parameters that the
      unencoded format can carry without ambiguity. */
  predicate QuerySafe(params: Entries<Scalar>)
  {
    forall i :: 0 <= i < |params| ==>
      '&' !in params[i].0 && '=' !in params[i].0 && '&' !in ToString(params[i].1)
  }

  /** The filter keeps exactly the emitted properties of the input. */
  lemma {:induction false} FilteredMembers(params: Entries<Scalar>)
    ensures forall x :: x in Filtered(params) <==> x in params && Emitted(x.1)
  {
    if params != [] {
      FilteredMembers(params[1..]);
      assert params == [params[0]] + params[1..];
    }
  }

  /** The filter keeps input order: filtering distributes over concatenation. */
  lemma {:induction false} FilteredAppend(a: Entries<Scalar>, b: Entries<Scalar>)
    ensures Filtered(a + b) == Filtered(a) + Filtered(b)
  {
    if a == [] {
      assert a + b == b;
    } else {
      var head := if Emitted(a[0].1) then [a[0]] else [];
      assert (a + b)[0] == a[0] && (a + b)[1..] == a[1..] + b;
      calc {
        Filtered(a + b);
        head + Filtered(a[1..] + b);
        { FilteredAppend(a[1..], b); }
        head + (Filtered(a[1..]) + Filtered(b));
        (head + Filtered(a[1..])) + Filtered(b);
        Filtered(a) + Filtered(b);
      }
    }
  }

  /** Nothing survives the filter exactly when every value is one it drops. */
  lemma {:induction false} FilteredEmpty(params: Entries<Scalar>)
    ensures Filtered(params) == [] <==> forall i :: 0 <= i < |params| ==> !Emitted(params[i].1)
  {
    if params != [] {
      FilteredEmpty(params[1..]);
      forall i | 0 < i < |params| ensures params[i] == params[1..][i - 1] { }
    }
  }

  lemma FilteredSafe(params: Entries<Scalar>)
    requires QuerySafe(params)
    ensures QuerySafe(Filtered(params))
  {
    FilteredMembers(params);
    forall i | 0 <= i < |Filtered(params)|
      ensures '&' !in Filtered(params)[i].0 && '=' !in Filtered(params)[i].0
      ensures '&' !in ToString(Filtered(params)[i].1)
    {
      assert Filtered(params)[i] in params;
    }
  }

  /** Rendering a safe property puts no `&` in the piece, and the piece is never empty. */
  lemma RenderedPieces(params: Entries<Scalar>)
    requires QuerySafe(params)
    ensures forall p :: p in RenderAll(params) ==> '&' !in p && p != ""
  {
    forall p | p in RenderAll(params) ensures '&' !in p && p != "" {
      var i :| 0 <= i < |params| && RenderAll(params)[i] == p;
      assert p == params[i].0 + "=" + ToString(params[i].1);
    }
  }

  /** Reading the query back gives every emitted property, in input order, as
      `(key, String(value))`: the stringifier and the reader are inverse on safe input. */
  lemma ParseStringify(params: Entries<Scalar>)
    requires QuerySafe(params)
    ensures ParseQuery(StringifyParams(params)) == AsText(Filtered(params))
  {
    var kept := Filtered(params);
    FilteredSafe(params);
    var pieces := RenderAll(kept);
    RenderedPieces(kept);
    JoinEmpty(pieces, '&');
    var q := StringifyParams(params);
    assert q[1..] == Join(pieces, '&');
    if |pieces| > 0 {
      SplitJoin(pieces, '&');
      forall i | 0 <= i < |kept| ensures Cut(pieces[i], '=') == (kept[i].0, ToString(kept[i].1)) {
        CutJoin(kept[i].0, ToString(kept[i].1), '=');
        assert pieces[i] == kept[i].0 + ['='] + ToString(kept[i].1);
      }
    }
  }

  /** The keys of the textual form are the keys of the properties. */
  lemma TextKeys(e: Entries<Scalar>, key: string)
    ensures key in KeysOf(AsText(e)) <==> exists x :: x in e && x.0 == key
  {
    KeysOfSpec(AsText(e), key);
    if key in KeysOf(AsText(e)) {
      var j :| 0 <= j < |AsText(e)| && AsText(e)[j].0 == key;
      assert e[j] in e && e[j].0 == key;
    }
    forall x | x in e && x.0 == key ensures key in KeysOf(AsText(e)) {
      var j :| 0 <= j < |e| && e[j] == x;
      assert AsText(e)[j].0 == key;
    }
  }

  /** A key occurs in the query exactly when the input gives it an emitted value. */
  lemma KeyOccursIff(params: Entries<Scalar>, key: string)
    requires QuerySafe(params)
    ensures key in KeysOf(ParseQuery(StringifyParams(params)))
        <==> exists i :: 0 <= i < |params| && params[i].0 == key && Emitted(params[i].1)
  {
    var kept := Filtered(params);
    ParseStringify(params);
    TextKeys(kept, key);
    FilteredMembers(params);
    if exists x :: x in kept && x.0 == key {
      var x :| x in kept && x.0 == key;
      var i :| 0 <= i < |params| && params[i] == x;
      assert params[i].0 == key && Emitted(params[i].1);
    }
    forall i | 0 <= i < |params| && params[i].0 == key && Emitted(params[i].1)
      ensures exists x :: x in kept && x.0 == key
    {
      assert params[i] in kept;
    }
  }

  /** Booleans and numbers, `false` and `0` among them, and non-empty strings are never dropped. */
  lemma KeptKinds(params: Entries<Scalar>, i: int)
    requires 0 <= i < |params|
    requires params[i].1.Bool? || params[i].1.Int? || (params[i].1.Str? && params[i].1.s != "")
    ensures params[i] in Filtered(params)
  {
    FilteredMembers(params);
    assert params[i] in params;
  }

  /** The output is the bare `?` exactly when the filter leaves nothing. */
  lemma BareQuestionMarkIff(params: Entries<Scalar>)
    ensures StringifyParams(params) == "?" <==> forall i :: 0 <= i < |params| ==> !Emitted(params[i].1)
  {
    var pieces := RenderAll(Filtered(params));
    forall p | p in pieces ensures p != "" {
      var i :| 0 <= i < |pieces| && pieces[i] == p;
    }
    JoinEmpty(pieces, '&');
    FilteredEmpty(params);
    assert StringifyParams(params) == "?" <==> Join(pieces, '&') == "";
  }

  /** On safe input there is one `&` between consecutive emitted pairs and no other. */
  lemma AmpersandCount(params: Entries<Scalar>)
    requires QuerySafe(params)
    ensures Count(StringifyParams(params), '&') == if Filtered(params) == [] then 0 else |Filtered(params)| - 1
  {
    var pieces := RenderAll(Filtered(params));
    FilteredSafe(params);
    RenderedPieces(Filtered(params));
    CountAppend("?", Join(pieces, '&'), '&');
    if pieces != [] {
      CountJoin(pieces, '&');
    }
  }

  /** A property whose value passes the filter is never dropped: all-emitted input survives whole. */
  lemma {:induction false} FilteredAllEmitted(params: Entries<Scalar>)
    requires forall i :: 0 <= i < |params| ==> Emitted(params[i].1)
    ensures Filtered(params) == params
  {
    if params != [] {
      FilteredAllEmitted(params[1..]);
      assert [params[0]] + params[1..] == params;
    }
  }

  lemma JoinFour(a: string, b: string, c: string, d: string)
    ensures Join([a, b, c, d], '&') == a + "&" + (b + "&" + (c + "&" + d))
  {
    assert [a, b, c, d][1..] == [b, c, d] && [b, c, d][1..] == [c, d] && [c, d][1..] == [d];
    assert Join([d], '&') == d;
    assert Join([c, d], '&') == c + "&" + d;
    assert Join([b, c, d], '&') == b + "&" + (c + "&" + d);
  }

  /** Four properties that all pass the filter become four pairs joined by `&`. */
  lemma StringifyFourEmitted(a: (string, Scalar), b: (string, Scalar), c: (string, Scalar), d: (string, Scalar))
    requires Emitted(a.1) && Emitted(b.1) && Emitted(c.1) && Emitted(d.1)
    ensures StringifyParams([a, b, c, d])
         == "?" + (Render(a.0, a.1) + "&" + (Render(b.0, b.1) + "&" + (Render(c.0, c.1) + "&" + Render(d.0, d.1))))
  {
    var ps := [a, b, c, d];
    assert forall i :: 0 <= i < |ps| ==> Emitted(ps[i].1);
    FilteredAllEmitted(ps);
    var rs := RenderAll(ps);
    assert rs == [Render(a.0, a.1), Render(b.0, b.1), Render(c.0, c.1), Render(d.0, d.1)];
    JoinFour(rs[0], rs[1], rs[2], rs[3]);
  }

  /** The pairs of the documentation example, rendered. */
  lemma DocumentedRenders()
    ensures Render("q", Str("apple")) == "q=apple" && Render("category", Str("fruits")) == "category=fruits"
    ensures Render("price", Int(10)) == "price=10" && Render("inStock", Bool(true)) == "inStock=true"
  {
    assert IntToString(10) == "10";
  }

  /** The rendered pairs of the documentation example, joined. */
  lemma DocumentedText()
    ensures "?" + ("q=apple" + "&" + ("category=fruits" + "&" + ("price=10" + "&" + "inStock=true")))
         == "?q=apple&category=fruits" + "&price=10&inStock=true"
  {
    assert "price=10" + "&" + "inStock=true" == "price=10&inStock=true";
    assert "?" + ("q=apple" + "&" + "category=fruits") == "?q=apple&category=fruits";
  }

  /** The example in the documentation comment of the stringifier. */
  lemma DocumentedExample()
    ensures StringifyParams([("q", Str("apple")), ("category", Str("fruits")), ("price", Int(10)), ("inStock", Bool(true))])
         == "?q=apple&category=fruits" + "&price=10&inStock=true"
  {
    StringifyFourEmitted(("q", Str("apple")), ("category", Str("fruits")), ("price", Int(10)), ("inStock", Bool(true)));
    DocumentedRenders();
    DocumentedText();
  }

  /** The pairs of the pagination query, rendered. */
  lemma PaginationRenders()
    ensures Render("page", Int(1)) == "page=1" && Render("per_page", Int(10)) == "per_page=10"
    ensures Render("sort_by", Str("title")) == "sort_by=title" && Render("order_by", Str("asc")) == "order_by=asc"
  {
    assert IntToString(1) == "1" && IntToString(10) == "10";
  }

  /** The rendered pairs of the pagination query, joined. */
  lemma PaginationText()
    ensures "?" + ("page=1" + "&" + ("per_page=10" + "&" + ("sort_by=title" + "&" + "order_by=asc")))
         == "?page=1&per_page=10" + "&sort_by=title&order_by=asc"
  {
    assert "sort_by=title" + "&" + "order_by=asc" == "sort_by=title&order_by=asc";
    assert "?" + ("page=1" + "&" + "per_page=10") == "?page=1&per_page=10";
  }

  /** The pagination parameters of the package test. */
  lemma PaginationExample()
    ensures StringifyParams([("page", Int(1)), ("per_page", Int(10)), ("sort_by", Str("title")), ("order_by", Str("asc"))])
         == "?page=1&per_page=10" + "&sort_by=title&order_by=asc"
  {
    StringifyFourEmitted(("page", Int(1)), ("per_page", Int(10)), ("sort_by", Str("title")), ("order_by", Str("asc")));
    PaginationRenders();
    PaginationText();
  }

  /** Values the filter drops contribute nothing wherever they stand. */
  lemma {:induction false} FilteredSkipsDropped(a: Entries<Scalar>, dropped: Entries<Scalar>, b: Entries<Scalar>)
    requires forall i :: 0 <= i < |dropped| ==> !Emitted(dropped[i].1)
    ensures Filtered(a + dropped + b) == Filtered(a) + Filtered(b)
  {
    FilteredAppend(a + dropped, b);
    FilteredAppend(a, dropped);
    FilteredEmpty(dropped);
  }

  /** Three kept properties around a run of dropped ones become three pairs joined by `&`. */
  lemma StringifyAroundDropped(x: (string, Scalar), dropped: Entries<Scalar>, y: (string, Scalar), z: (string, Scalar))
    requires Emitted(x.1) && Emitted(y.1) && Emitted(z.1)
    requires forall i :: 0 <= i < |dropped| ==> !Emitted(dropped[i].1)
    ensures StringifyParams([x] + dropped + [y, z])
         == "?" + (Render(x.0, x.1) + "&" + (Render(y.0, y.1) + "&" + Render(z.0, z.1)))
  {
    FilteredSkipsDropped([x], dropped, [y, z]);
    FilteredAllEmitted([x]);
    FilteredAllEmitted([y, z]);
    assert Filtered([x] + dropped + [y, z]) == [x, y, z];
    var rs := RenderAll([x, y, z]);
    assert rs == [Render(x.0, x.1), Render(y.0, y.1), Render(z.0, z.1)];
    assert rs[1..] == [rs[1], rs[2]] && rs[1..][1..] == [rs[2]];
    assert Join([rs[2]], '&') == rs[2];
    assert Join([rs[1], rs[2]], '&') == rs[1] + "&" + rs[2];
    assert Join(rs, '&') == rs[0] + "&" + (rs[1] + "&" + rs[2]);
  }

  /** The kept pairs of the filter example, rendered. */
  lemma FilterRenders()
    ensures Render("a", Int(1)) == "a=1" && Render("f", Bool(false)) == "f=false" && Render("g", Int(0)) == "g=0"
  {
    assert IntToString(1) == "1" && IntToString(0) == "0";
  }

  /** Every dropped kind of value is dropped; `false` and `0` are kept. */
  lemma FilterExample()
    ensures StringifyParams([("a", Int(1)), ("b", Null), ("c", Undefined), ("d", Str("")), ("e", NaN), ("f", Bool(false)), ("g", Int(0))])
         == "?a=1&f=false&g=0"
  {
    var dropped := [("b", Null), ("c", Undefined), ("d", Str("")), ("e", NaN)];
    assert [("a", Int(1))] + dropped + [("f", Bool(false)), ("g", Int(0))]
        == [("a", Int(1)), ("b", Null), ("c", Undefined), ("d", Str("")), ("e", NaN), ("f", Bool(false)), ("g", Int(0))];
    StringifyAroundDropped(("a", Int(1)), dropped, ("f", Bool(false)), ("g", Int(0)));
    FilterRenders();
    assert "?" + ("a=1" + "&" + ("f=false" + "&" + "g=0")) == "?a=1&f=false&g=0";
  }
}
