/** The imperative side of ja3.go: extension objects, the map they are taken from, and the spec factory. */
module Ja3Factory {
  import opened Common
  import opened Decimal
  import opened Ja3
  import Text
  import TrustAnchors

  /** An extension object; identity matters, since utls fills objects in while it builds a ClientHello. */
  class Extension {
    const body: Body

    constructor (body: Body)
      ensures this.body == body
    {
      this.body := body;
    }
  }

  type ExtMap = map<nat, Extension>

  /** getExtensionBaseMap: what is in the map from the start. */
  function BaseEntries(): seq<Body> {
    [ServerName, StatusRequest, Sct, Padding, ExtendedMasterSecret, SessionTicket, PreSharedKey, Generic(42, []),
     Cookie, PskModes, NextProtoNeg, Renegotiation]
  }

  /** What is added for the text and the options, in the order it is added. */
  function AddedEntries(curves: seq<nat>, points: seq<nat>, o: Options): seq<Body> {
    [Curves(curves)]
    + (if |o.certCompression| != 0 then [CompressCert(o.certCompression)] else [])
    + [KeyShares(o.keyShares), Points(points), GreaseEch(o.echSuites, o.echPayloads), Versions(o.versions),
       Signatures(o.signatures)]
    + [Delegated(o.delegated), Alpn(o.alpn), AlpsOld(o.alps), AlpsNew(o.alps)]
    + (if |o.anchors| > 0 then [Generic(TRUST_ANCHORS, o.anchors)] else [])
    + [RecordSizeLimit(o.recordSizeLimit)]
  }

  function Entries(curves: seq<nat>, points: seq<nat>, o: Options): seq<Body> {
    BaseEntries() + AddedEntries(curves, points, o)
  }

  predicate IsBase(b: Body) {
    b in {ServerName, StatusRequest, Sct, Padding, ExtendedMasterSecret, SessionTicket, PreSharedKey, Generic(42, []),
          Cookie, PskModes, NextProtoNeg, Renegotiation}
  }

  lemma InBaseEntries(b: Body)
    ensures b in BaseEntries() <==> IsBase(b)
  {
    var e := BaseEntries();
    assert {e[0], e[1], e[2], e[3], e[4], e[5]}
        == {ServerName, StatusRequest, Sct, Padding, ExtendedMasterSecret, SessionTicket};
    assert {e[6], e[7], e[8], e[9], e[10], e[11]}
        == {PreSharedKey, Generic(42, []), Cookie, PskModes, NextProtoNeg, Renegotiation};
  }

  predicate IsAdded(b: Body, curves: seq<nat>, points: seq<nat>, o: Options) {
    || b in {Curves(curves), KeyShares(o.keyShares), Points(points), GreaseEch(o.echSuites, o.echPayloads),
             Versions(o.versions)}
    || b in {Signatures(o.signatures), Delegated(o.delegated), Alpn(o.alpn), AlpsOld(o.alps), AlpsNew(o.alps)}
    || b == RecordSizeLimit(o.recordSizeLimit)
    || (|o.certCompression| != 0 && b == CompressCert(o.certCompression))
    || (|o.anchors| > 0 && b == Generic(TRUST_ANCHORS, o.anchors))
  }

  lemma InAddedEntries(b: Body, curves: seq<nat>, points: seq<nat>, o: Options)
    ensures b in AddedEntries(curves, points, o) <==> IsAdded(b, curves, points, o)
  {
    var p := [KeyShares(o.keyShares), Points(points), GreaseEch(o.echSuites, o.echPayloads), Versions(o.versions),
              Signatures(o.signatures)];
    var q := [Delegated(o.delegated), Alpn(o.alpn), AlpsOld(o.alps), AlpsNew(o.alps)];
    assert p[0] in p && p[1] in p && p[2] in p && p[3] in p && p[4] in p;
    assert q[0] in q && q[1] in q && q[2] in q && q[3] in q;
  }

  lemma StoredExactly(b: Body, curves: seq<nat>, points: seq<nat>, o: Options)
    ensures Stored(WireId(b), curves, points, o) == Some(b) <==> IsBase(b) || IsAdded(b, curves, points, o)
  {
  }

  lemma InBoth(b: Body, base: seq<Body>, added: seq<Body>)
    ensures b in base + added <==> b in base || b in added
  {
  }

  /** The entries are exactly what is stored by id: each under its own id, one for an id, none missing. */
  lemma {:induction false} EntriesAreStored(b: Body, curves: seq<nat>, points: seq<nat>, o: Options)
    ensures b in Entries(curves, points, o) <==> Stored(WireId(b), curves, points, o) == Some(b)
  {
    InBaseEntries(b);
    InAddedEntries(b, curves, points, o);
    InBoth(b, BaseEntries(), AddedEntries(curves, points, o));
    StoredExactly(b, curves, points, o);
  }

  /** The map with one new object for each entry. */
  method MapOf(bodies: seq<Body>) returns (m: ExtMap)
    ensures forall b :: b in bodies ==> WireId(b) in m
    ensures forall id :: id in m ==> fresh(m[id]) && m[id].body in bodies && WireId(m[id].body) == id
  {
    m := map[];
    for k := 0 to |bodies|
      invariant forall i :: 0 <= i < k ==> WireId(bodies[i]) in m
      invariant forall id :: id in m ==> fresh(m[id]) && m[id].body in bodies && WireId(m[id].body) == id
    {
      var e := new Extension(bodies[k]);
      m := m[WireId(bodies[k]) := e];
    }
  }

  /** Everything stored is in the map, under its own id and with the right content. */
  ghost predicate Agrees(m: ExtMap, curves: seq<nat>, points: seq<nat>, o: Options) {
    && (forall id :: id in m ==> Stored(id, curves, points, o) == Some(m[id].body))
    && (forall id :: Stored(id, curves, points, o).Some? ==> id in m)
  }

  method ExtensionMap(curves: seq<nat>, points: seq<nat>, o: Options) returns (m: ExtMap)
    ensures Agrees(m, curves, points, o) && forall id :: id in m ==> fresh(m[id])
  {
    var entries := Entries(curves, points, o);
    m := MapOf(entries);
    forall id | id in m
      ensures Stored(id, curves, points, o) == Some(m[id].body)
    {
      EntriesAreStored(m[id].body, curves, points, o);
    }
    forall id | Stored(id, curves, points, o).Some?
      ensures id in m
    {
      EntriesAreStored(Stored(id, curves, points, o).value, curves, points, o);
    }
  }

  method ParseNumbers(tokens: seq<string>, max: nat) returns (r: Result<seq<nat>>)
    ensures r == Numbers(tokens, max)
  {
    var ns: seq<nat> := [];
    for k := 0 to |tokens|
      invariant Numbers(tokens[..k], max) == Ok(ns)
    {
      assert tokens[..k + 1][..k] == tokens[..k];
      var n := ParseUint(tokens[k], max);
      if n.None? {
        NumbersFail(tokens, k + 1, max);
        return Err(BadNumber(tokens[k]));
      }
      ns := ns + [n.value];
    }
    assert tokens[..|tokens|] == tokens;
    r := Ok(ns);
  }

  /** The first failure is the one reported. */
  lemma {:induction false} NumbersFail(tokens: seq<string>, k: nat, max: nat)
    requires k <= |tokens| && !Numbers(tokens[..k], max).Ok?
    ensures Numbers(tokens, max) == Numbers(tokens[..k], max)
  {
    var n := |tokens| - 1;
    if k <= n {
      assert tokens[..n][..k] == tokens[..k];
      NumbersFail(tokens[..n], k, max);
    } else {
      assert tokens[..k] == tokens;
    }
  }

  lemma {:induction false} ListedFail(tokens: seq<string>, k: nat, curves: seq<nat>, points: seq<nat>, o: Options)
    requires k <= |tokens| && !Listed(tokens[..k], curves, points, o).Ok?
    ensures Listed(tokens, curves, points, o) == Listed(tokens[..k], curves, points, o)
  {
    var n := |tokens| - 1;
    if k <= n {
      assert tokens[..n][..k] == tokens[..k];
      ListedFail(tokens[..n], k, curves, points, o);
    } else {
      assert tokens[..k] == tokens;
    }
  }

  function Bodies(es: seq<Extension>): (r: seq<Body>)
    ensures |r| == |es|
  {
    seq(|es|, i requires 0 <= i < |es| => es[i].body)
  }

  /** GREASE extensions are objects of their own; any other id is one object however often it is listed. */
  ghost predicate Shares(es: seq<Extension>) {
    forall i, j :: 0 <= i < j < |es| ==>
      (es[i] == es[j] <==> WireId(es[i].body) == WireId(es[j].body) && WireId(es[i].body) != GREASE)
  }

  method ListExtensions(m: ExtMap, tokens: seq<string>, curves: seq<nat>, points: seq<nat>, o: Options)
      returns (r: Result<seq<Body>>, es: seq<Extension>)
    requires Agrees(m, curves, points, o)
    ensures r == Listed(tokens, curves, points, o)
    ensures r.Ok? ==> r.value == Bodies(es) && Shares(es)
    ensures r.Ok? ==> forall i :: 0 <= i < |es| ==> fresh(es[i]) || es[i] in m.Values
  {
    es := [];
    for k := 0 to |tokens|
      invariant Listed(tokens[..k], curves, points, o) == Ok(Bodies(es))
      invariant Shares(es)
      invariant forall i :: 0 <= i < |es| ==> if es[i].body == Grease then fresh(es[i]) else From(m, es[i])
    {
      assert tokens[..k + 1][..k] == tokens[..k];
      var id := ParseUint(tokens[k], MAX16);
      if id.None? {
        ListedFail(tokens, k + 1, curves, points, o);
        return Err(BadNumber(tokens[k])), es;
      }
      if id.value == GREASE {
        var e := new Extension(Grease);
        assert Bodies(es + [e]) == Bodies(es) + [e.body];
        es := es + [e];
      } else if id.value in m {
        assert From(m, m[id.value]);
        assert Bodies(es + [m[id.value]]) == Bodies(es) + [m[id.value].body];
        es := es + [m[id.value]];
      } else {
        ListedFail(tokens, k + 1, curves, points, o);
        r := Err(if id.value == TRUST_ANCHORS then AnchorsMissing else UnknownExtension(tokens[k]));
        return;
      }
    }
    assert tokens[..|tokens|] == tokens;
    r := Ok(Bodies(es));
  }

  ghost predicate From(m: ExtMap, e: Extension) {
    WireId(e.body) in m && m[WireId(e.body)] == e
  }

  /** stringToSpec: the ClientHello of the specification, on objects that no earlier ClientHello holds. */
  method StringToSpec(ja3: string, o: Options) returns (r: Result<Hello>, es: seq<Extension>)
    ensures r == Parse(ja3, o)
    ensures r.Ok? ==> r.value.extensions == Bodies(es) && Shares(es) && forall i :: 0 <= i < |es| ==> fresh(es[i])
  {
    es := [];
    var fields := Text.Split(ja3, ',');
    if |fields| < 5 {
      return Panic, [];
    }
    var curves := ParseNumbers(OptionalTokens(fields[3]), MAX16);
    if !curves.Ok? {
      return Err(ErrorOf(curves)), [];
    }
    var points := ParseNumbers(OptionalTokens(fields[4]), MAX8);
    if !points.Ok? {
      return Err(ErrorOf(points)), [];
    }
    var m := ExtensionMap(curves.value, points.value, o);
    var extensions;
    extensions, es := ListExtensions(m, Text.Split(fields[2], '-'), curves.value, points.value, o);
    if !extensions.Ok? {
      return Err(ErrorOf(extensions)), es;
    }
    var ciphers := ParseNumbers(Text.Split(fields[1], '-'), MAX16);
    if !ciphers.Ok? {
      return Err(ErrorOf(ciphers)), es;
    }
    r := Ok(Hello(ciphers.value, extensions.value));
  }

  // ----- The factory

  /** The closure GetSpecFactoryFromJa3String returns: what it captures. */
  class Factory {
    const ja3: string
    const options: Options

    constructor (ja3: string, options: Options)
      ensures this.ja3 == ja3 && this.options == options
    {
      this.ja3, this.options := ja3, options;
    }

    /** Any number of calls: every trust_anchors extension of every spec carries the payload drawn for the factory. */
    method Specs(calls: nat) returns (hellos: seq<Result<Hello>>)
      ensures |hellos| == calls && forall c :: 0 <= c < calls ==> hellos[c] == Parse(ja3, options)
      ensures forall c, b :: 0 <= c < calls && hellos[c].Ok? && b in hellos[c].value.extensions ==>
                WireId(b) == TRUST_ANCHORS ==> b == Generic(TRUST_ANCHORS, options.anchors) && |options.anchors| > 0
    {
      hellos := [];
      for c := 0 to calls
        invariant |hellos| == c && forall i :: 0 <= i < c ==> hellos[i] == Parse(ja3, options)
      {
        var r, es := StringToSpec(ja3, options);
        hellos := hellos + [r];
      }
      if Parse(ja3, options).Ok? {
        AnchorsOfSpec(ja3, options);
      }
    }
  }

  lemma AnchorsOfSpec(ja3: string, o: Options)
    requires Parse(ja3, o).Ok?
    ensures forall b :: b in Parse(ja3, o).value.extensions && WireId(b) == TRUST_ANCHORS ==>
              b == Generic(TRUST_ANCHORS, o.anchors) && |o.anchors| > 0
  {
    var f := Text.Split(ja3, ',');
    var curves, points := Numbers(OptionalTokens(f[3]), MAX16).value, Numbers(OptionalTokens(f[4]), MAX8).value;
    ListedMeans(Text.Split(f[2], '-'), curves, points, o);
  }

  /**
  GetSpecFactoryFromJa3String: the anchor order is drawn here, once. Without a capture there are no anchors; with
  one, the factory exists exactly when the capture is well formed, and its anchors are the captured ones reordered.
  */
  method SpecFactory(ja3: string, o: Options, capture: string, random: nat -> nat) returns (f: Factory?)
    ensures f == null <==> capture != "" && forall rs :: !TrustAnchors.Captures(capture, rs)
    ensures f != null ==> f.ja3 == ja3 && f.options == o.(anchors := f.options.anchors)
    ensures f != null && capture == "" ==> f.options.anchors == []
    ensures f != null && capture != "" ==>
      exists rs ::
        && TrustAnchors.Captures(capture, rs)
        && TrustAnchors.IsReordering(f.options.anchors, rs, TrustAnchors.Draws(|rs|, random))
  {
    var anchors: Bytes := [];
    if capture != "" {
      var payload := TrustAnchors.BuildTrustAnchorsPayload(capture, random);
      if payload.None? {
        return null;
      }
      anchors := payload.value;
    }
    f := new Factory(ja3, o.(anchors := anchors));
  }
}
