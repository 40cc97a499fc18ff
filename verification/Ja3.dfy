/** ja3.go: from a JA3 text to a ClientHello, and back by a JA3 printer. */
module Ja3 {
  import opened Common
  import opened Decimal
  import Text

  const GREASE := 0x0a0a
  const TRUST_ANCHORS := 0xca34
  const MAX16 := 0xffff
  const MAX8 := 0xff

  /** The settings beside the JA3 text, already mapped to their code points. */
  datatype Options = Options(
    signatures: seq<nat>,
    delegated: seq<nat>,
    versions: seq<nat>,
    keyShares: seq<nat>,
    echSuites: seq<nat>,
    echPayloads: seq<nat>,
    alpn: seq<string>,
    alps: seq<string>,
    certCompression: seq<nat>,
    recordSizeLimit: nat,
    anchors: Bytes)

  /** What an extension object holds. */
  datatype Body =
    | Grease
    | ServerName
    | StatusRequest
    | Curves(curves: seq<nat>)
    | Points(formats: seq<nat>)
    | Signatures(schemes: seq<nat>)
    | Alpn(protocols: seq<string>)
    | Sct
    | Padding
    | ExtendedMasterSecret
    | CompressCert(algorithms: seq<nat>)
    | RecordSizeLimit(limit: nat)
    | Delegated(schemes: seq<nat>)
    | SessionTicket
    | PreSharedKey
    | Generic(id: nat, data: Bytes)
    | Versions(versions: seq<nat>)
    | Cookie
    | PskModes
    | KeyShares(shares: seq<nat>)
    | NextProtoNeg
    | AlpsOld(protocols: seq<string>)
    | AlpsNew(protocols: seq<string>)
    | GreaseEch(suites: seq<nat>, payloads: seq<nat>)
    | Renegotiation

  /** The id an extension goes on the wire with. */
  function WireId(b: Body): nat {
    match b
    case Grease => GREASE
    case ServerName => 0
    case StatusRequest => 5
    case Curves(_) => 10
    case Points(_) => 11
    case Signatures(_) => 13
    case Alpn(_) => 16
    case Sct => 18
    case Padding => 21
    case ExtendedMasterSecret => 23
    case CompressCert(_) => 27
    case RecordSizeLimit(_) => 28
    case Delegated(_) => 34
    case SessionTicket => 35
    case PreSharedKey => 41
    case Generic(id, _) => id
    case Versions(_) => 43
    case Cookie => 44
    case PskModes => 45
    case KeyShares(_) => 51
    case NextProtoNeg => 13172
    case AlpsOld(_) => 17513
    case AlpsNew(_) => 17613
    case GreaseEch(_, _) => 65037
    case Renegotiation => 65281
  }

  /** The entries of the extension map: by id, what is stored under it. */
  function Stored(id: nat, curves: seq<nat>, points: seq<nat>, o: Options): (r: Option<Body>)
    ensures r.Some? ==> WireId(r.value) == id && id != GREASE
  {
    match id
    case 0 => Some(ServerName)
    case 5 => Some(StatusRequest)
    case 10 => Some(Curves(curves))
    case 11 => Some(Points(points))
    case 13 => Some(Signatures(o.signatures))
    case 16 => Some(Alpn(o.alpn))
    case 18 => Some(Sct)
    case 21 => Some(Padding)
    case 23 => Some(ExtendedMasterSecret)
    case 27 => if |o.certCompression| != 0 then Some(CompressCert(o.certCompression)) else None
    case 28 => Some(RecordSizeLimit(o.recordSizeLimit))
    case 34 => Some(Delegated(o.delegated))
    case 35 => Some(SessionTicket)
    case 41 => Some(PreSharedKey)
    case 42 => Some(Generic(42, []))
    case 43 => Some(Versions(o.versions))
    case 44 => Some(Cookie)
    case 45 => Some(PskModes)
    case 51 => Some(KeyShares(o.keyShares))
    case 13172 => Some(NextProtoNeg)
    case 17513 => Some(AlpsOld(o.alps))
    case 17613 => Some(AlpsNew(o.alps))
    case 65037 => Some(GreaseEch(o.echSuites, o.echPayloads))
    case 65281 => Some(Renegotiation)
    case _ => if id == TRUST_ANCHORS && |o.anchors| > 0 then Some(Generic(TRUST_ANCHORS, o.anchors)) else None
  }

  function BodyOf(id: nat, curves: seq<nat>, points: seq<nat>, o: Options): (r: Option<Body>)
    ensures r.Some? ==> WireId(r.value) == id
  {
    if id == GREASE then Some(Grease) else Stored(id, curves, points, o)
  }

  datatype Error = BadNumber(token: string) | AnchorsMissing | UnknownExtension(token: string)

  datatype Result<+T> = Panic | Err(error: Error) | Ok(value: T)

  datatype Hello = Hello(ciphers: seq<nat>, extensions: seq<Body>)

  // ----- The parser

  /** Tokens read as numbers, or the first that is none. */
  function Numbers(tokens: seq<string>, max: nat): Result<seq<nat>> {
    if tokens == [] then Ok([])
    else
      var n := |tokens| - 1;
      var init := Numbers(tokens[..n], max);
      if !init.Ok? then init
      else if ParseUint(tokens[n], max).None? then Err(BadNumber(tokens[n]))
      else Ok(init.value + [ParseUint(tokens[n], max).value])
  }

  /** Tokens read as extensions, or the first failure. */
  function Listed(tokens: seq<string>, curves: seq<nat>, points: seq<nat>, o: Options): Result<seq<Body>> {
    if tokens == [] then Ok([])
    else
      var n := |tokens| - 1;
      var init := Listed(tokens[..n], curves, points, o);
      if !init.Ok? then init
      else if ParseUint(tokens[n], MAX16).None? then Err(BadNumber(tokens[n]))
      else
        var id := ParseUint(tokens[n], MAX16).value;
        var b := BodyOf(id, curves, points, o);
        if b.Some? then Ok(init.value + [b.value])
        else if id == TRUST_ANCHORS then Err(AnchorsMissing)
        else Err(UnknownExtension(tokens[n]))
  }

  /** The tokens of a field that may be left empty. */
  function OptionalTokens(field: string): seq<string> {
    var tokens := Text.Split(field, '-');
    if |tokens| == 1 && tokens[0] == "" then [] else tokens
  }

  function Parse(ja3: string, o: Options): Result<Hello> {
    var fields := Text.Split(ja3, ',');
    if |fields| < 5 then Panic
    else
      var curves := Numbers(OptionalTokens(fields[3]), MAX16);
      if !curves.Ok? then Err(ErrorOf(curves))
      else
        var points := Numbers(OptionalTokens(fields[4]), MAX8);
        if !points.Ok? then Err(ErrorOf(points))
        else
          var extensions := Listed(Text.Split(fields[2], '-'), curves.value, points.value, o);
          if !extensions.Ok? then Err(ErrorOf(extensions))
          else
            var ciphers := Numbers(Text.Split(fields[1], '-'), MAX16);
            if !ciphers.Ok? then Err(ErrorOf(ciphers)) else Ok(Hello(ciphers.value, extensions.value))
  }

  function ErrorOf<T>(r: Result<T>): Error {
    if r.Err? then r.error else BadNumber("")
  }

  // ----- The printer

  function PrintAll(ns: seq<nat>): (r: seq<string>)
    ensures |r| == |ns|
  {
    seq(|ns|, i requires 0 <= i < |ns| => PrintUint(ns[i]))
  }

  function Print(ns: seq<nat>): string {
    Text.Join(PrintAll(ns), '-')
  }

  function Ids(extensions: seq<Body>): (r: seq<nat>)
    ensures |r| == |extensions|
  {
    seq(|extensions|, i requires 0 <= i < |extensions| => WireId(extensions[i]))
  }

  /** The curves a ClientHello offers: those of its supported_groups extension. */
  function OfferedCurves(extensions: seq<Body>): seq<nat> {
    if extensions == [] then []
    else if extensions[0].Curves? then extensions[0].curves
    else OfferedCurves(extensions[1..])
  }

  function OfferedPoints(extensions: seq<Body>): seq<nat> {
    if extensions == [] then []
    else if extensions[0].Points? then extensions[0].formats
    else OfferedPoints(extensions[1..])
  }

  /** The JA3 text of a ClientHello. */
  function PrintHello(version: string, h: Hello): string {
    var curves, points := OfferedCurves(h.extensions), OfferedPoints(h.extensions);
    Text.Join([version, Print(h.ciphers), Print(Ids(h.extensions)), Print(curves), Print(points)], ',')
  }

  // ----- Fields

  predicate AllCanonical(tokens: seq<string>) {
    forall i :: 0 <= i < |tokens| ==> IsCanonical(tokens[i])
  }

  lemma {:induction false} NumbersMeans(tokens: seq<string>, max: nat)
    ensures Numbers(tokens, max).Ok? <==> forall i :: 0 <= i < |tokens| ==> ParseUint(tokens[i], max).Some?
    ensures Numbers(tokens, max).Ok? ==>
              && |Numbers(tokens, max).value| == |tokens|
              && forall i :: 0 <= i < |tokens| ==> ParseUint(tokens[i], max) == Some(Numbers(tokens, max).value[i])
  {
    if tokens != [] {
      NumbersMeans(tokens[..|tokens| - 1], max);
    }
  }

  lemma {:induction false} ListedMeans(tokens: seq<string>, curves: seq<nat>, points: seq<nat>, o: Options)
    requires Listed(tokens, curves, points, o).Ok?
    ensures var bodies := Listed(tokens, curves, points, o).value;
            && |bodies| == |tokens|
            && forall i :: 0 <= i < |tokens| ==>
                 && ParseUint(tokens[i], MAX16) == Some(WireId(bodies[i]))
                 && BodyOf(WireId(bodies[i]), curves, points, o) == Some(bodies[i])
  {
    if tokens != [] {
      ListedMeans(tokens[..|tokens| - 1], curves, points, o);
    }
  }

  predicate IsListable(token: string, o: Options) {
    ParseUint(token, MAX16).Some? && BodyOf(ParseUint(token, MAX16).value, [], [], o).Some?
  }

  lemma {:induction false} ListedExactlyWhen(tokens: seq<string>, curves: seq<nat>, points: seq<nat>, o: Options)
    ensures Listed(tokens, curves, points, o).Ok? <==> forall i :: 0 <= i < |tokens| ==> IsListable(tokens[i], o)
  {
    if tokens != [] {
      ListedExactlyWhen(tokens[..|tokens| - 1], curves, points, o);
    }
  }

  /** The extensions there are: some always, compress_certificate and trust_anchors if configured, and GREASE. */
  predicate IsKnown(id: nat, o: Options) {
    || id in {0, 5, 10, 11, 13, 16, 18, 21, 23, 28, 34, 35, 41, 42, 43, 44, 45, 51, 13172, 17513, 17613, 65037, 65281}
    || (id == 27 && o.certCompression != []) || (id == 51764 && o.anchors != []) || id == 2570
  }

  lemma ListableIsKnown(token: string, o: Options)
    ensures IsListable(token, o) <==> ParseUint(token, 65535).Some? && IsKnown(ParseUint(token, 65535).value, o)
  {
  }

  /** A field of numbers up to max that may be left empty. */
  predicate IsOptionalField(field: string, max: nat) {
    field == "" || forall t :: t in Text.Split(field, '-') ==> ParseUint(t, max).Some?
  }

  lemma OptionalMeans(field: string, max: nat)
    ensures (forall t :: t in OptionalTokens(field) ==> ParseUint(t, max).Some?) <==> IsOptionalField(field, max)
  {
    Text.JoinSplit(field, '-');
  }

  /**
  Which texts are accepted: ciphers and curves are 16-bit numbers, point formats 8-bit numbers, and extensions known;
  curves and point formats may be missing. With fewer than five fields the parser panics instead of returning an error.
  */
  lemma {:induction false} AcceptedExactlyWhen(ja3: string, o: Options)
    ensures var f := Text.Split(ja3, ',');
            Parse(ja3, o).Panic? <==> |f| < 5
    ensures var f := Text.Split(ja3, ',');
            Parse(ja3, o).Ok? <==>
              && |f| >= 5
              && (forall t :: t in Text.Split(f[1], '-') ==> ParseUint(t, 65535).Some?)
              && (forall t :: t in Text.Split(f[2], '-') ==>
                    ParseUint(t, 65535).Some? && IsKnown(ParseUint(t, 65535).value, o))
              && IsOptionalField(f[3], 65535) && IsOptionalField(f[4], 255)
  {
    var f := Text.Split(ja3, ',');
    if |f| >= 5 {
      var curves, points := Numbers(OptionalTokens(f[3]), MAX16), Numbers(OptionalTokens(f[4]), MAX8);
      NumbersMeans(Text.Split(f[1], '-'), MAX16);
      NumbersMeans(OptionalTokens(f[3]), MAX16);
      NumbersMeans(OptionalTokens(f[4]), MAX8);
      OptionalMeans(f[3], MAX16);
      OptionalMeans(f[4], MAX8);
      if curves.Ok? && points.Ok? {
        ListedExactlyWhen(Text.Split(f[2], '-'), curves.value, points.value, o);
        forall t | t in Text.Split(f[2], '-')
          ensures IsListable(t, o) <==> ParseUint(t, 65535).Some? && IsKnown(ParseUint(t, 65535).value, o)
        {
          ListableIsKnown(t, o);
        }
      }
    }
  }

  /** The reported failure of a list of numbers is that of the first token that is none. */
  lemma {:induction false} FirstBadNumber(tokens: seq<string>, max: nat)
    requires !Numbers(tokens, max).Ok?
    ensures exists k :: 0 <= k < |tokens| && Numbers(tokens, max) == Err(BadNumber(tokens[k]))
              && ParseUint(tokens[k], max).None? && forall i :: 0 <= i < k ==> ParseUint(tokens[i], max).Some?
  {
    var n := |tokens| - 1;
    if Numbers(tokens[..n], max).Ok? {
      NumbersMeans(tokens[..n], max);
      assert forall i :: 0 <= i < n ==> tokens[i] == tokens[..n][i];
    } else {
      FirstBadNumber(tokens[..n], max);
      var init := tokens[..n];
      var k :| 0 <= k < n && Numbers(init, max) == Err(BadNumber(init[k]))
               && ParseUint(init[k], max).None? && forall i :: 0 <= i < k ==> ParseUint(init[i], max).Some?;
      assert forall i :: 0 <= i <= k ==> tokens[i] == tokens[..n][i];
    }
  }

  /** What is wrong with a token of the extension field. */
  function Objection(token: string, o: Options): Option<Error> {
    if ParseUint(token, 65535).None? then Some(BadNumber(token))
    else if IsKnown(ParseUint(token, 65535).value, o) then None
    else if ParseUint(token, 65535) == Some(51764) then Some(AnchorsMissing)
    else Some(UnknownExtension(token))
  }

  lemma ObjectionMeans(token: string, o: Options)
    ensures IsListable(token, o) <==> Objection(token, o).None?
  {
    ListableIsKnown(token, o);
  }

  /** The reported failure of the extension field is the objection to the first token that has one. */
  lemma {:induction false} FirstObjection(tokens: seq<string>, curves: seq<nat>, points: seq<nat>, o: Options)
    requires !Listed(tokens, curves, points, o).Ok?
    ensures exists k :: 0 <= k < |tokens| && Objection(tokens[k], o).Some?
              && Listed(tokens, curves, points, o) == Err(Objection(tokens[k], o).value)
              && forall i :: 0 <= i < k ==> Objection(tokens[i], o).None?
  {
    var n := |tokens| - 1;
    var init := tokens[..n];
    if Listed(init, curves, points, o).Ok? {
      ListedExactlyWhen(init, curves, points, o);
      forall i | 0 <= i < n
        ensures Objection(tokens[i], o).None?
      {
        ObjectionMeans(init[i], o);
      }
      ObjectionMeans(tokens[n], o);
      ListedExactlyWhen(tokens, curves, points, o);
      assert Objection(tokens[n], o).Some?;
    } else {
      FirstObjection(init, curves, points, o);
      var k :| 0 <= k < n && Objection(init[k], o).Some?
               && Listed(init, curves, points, o) == Err(Objection(init[k], o).value)
               && forall i :: 0 <= i < k ==> Objection(init[i], o).None?;
      assert forall i :: 0 <= i <= k ==> tokens[i] == init[i];
    }
  }

  /** Fields are read in the order curves, point formats, extensions, ciphers, and the first failure is reported. */
  lemma {:induction false} FailsInOrder(ja3: string, o: Options)
    requires |Text.Split(ja3, ',')| >= 5
    ensures var f := Text.Split(ja3, ',');
            var curves, points := Numbers(OptionalTokens(f[3]), 65535), Numbers(OptionalTokens(f[4]), 255);
            && (curves.Err? ==> Parse(ja3, o) == Err(curves.error))
            && (curves.Ok? && points.Err? ==> Parse(ja3, o) == Err(points.error))
            && (curves.Ok? && points.Ok? ==>
                  var extensions := Listed(Text.Split(f[2], '-'), curves.value, points.value, o);
                  && (extensions.Err? ==> Parse(ja3, o) == Err(extensions.error))
                  && (extensions.Ok? && Parse(ja3, o).Err? ==>
                        Parse(ja3, o).error == ErrorOf(Numbers(Text.Split(f[1], '-'), 65535))))
  {
  }

  /** What an extension holds is what was configured for it, or the text's own curves and point formats. */
  predicate HoldsItsOption(b: Body, curves: seq<nat>, points: seq<nat>, o: Options) {
    match b
    case Curves(x) => x == curves
    case Points(x) => x == points
    case Signatures(x) => x == o.signatures
    case Alpn(x) => x == o.alpn
    case CompressCert(x) => x == o.certCompression
    case RecordSizeLimit(x) => x == o.recordSizeLimit
    case Delegated(x) => x == o.delegated
    case Versions(x) => x == o.versions
    case KeyShares(x) => x == o.keyShares
    case AlpsOld(x) => x == o.alps
    case AlpsNew(x) => x == o.alps
    case GreaseEch(suites, payloads) => suites == o.echSuites && payloads == o.echPayloads
    case Generic(id, data) => (id == 42 && data == []) || (id == 51764 && data == o.anchors)
    case _ => true
  }

  /** The ids that the registry has for the extensions without content of their own. */
  lemma RegisteredIds(n: nat, data: Bytes)
    ensures WireId(ServerName) == 0 && WireId(StatusRequest) == 5 && WireId(Sct) == 18 && WireId(Padding) == 21
    ensures WireId(ExtendedMasterSecret) == 23 && WireId(SessionTicket) == 35 && WireId(PreSharedKey) == 41
    ensures WireId(Cookie) == 44 && WireId(PskModes) == 45 && WireId(NextProtoNeg) == 13172
    ensures WireId(Renegotiation) == 65281 && WireId(Grease) == 2570 && WireId(Generic(n, data)) == n
  {
  }

  /** And for those with. */
  lemma RegisteredIdsOf(ns: seq<nat>, ss: seq<string>, n: nat)
    ensures WireId(Curves(ns)) == 10 && WireId(Points(ns)) == 11 && WireId(Signatures(ns)) == 13
    ensures WireId(Alpn(ss)) == 16
    ensures WireId(CompressCert(ns)) == 27 && WireId(RecordSizeLimit(n)) == 28 && WireId(Delegated(ns)) == 34
    ensures WireId(Versions(ns)) == 43 && WireId(KeyShares(ns)) == 51
    ensures WireId(AlpsOld(ss)) == 17513 && WireId(AlpsNew(ss)) == 17613 && WireId(GreaseEch(ns, ns)) == 65037
  {
  }

  lemma BodyHoldsItsOption(id: nat, curves: seq<nat>, points: seq<nat>, o: Options)
    requires BodyOf(id, curves, points, o).Some?
    ensures HoldsItsOption(BodyOf(id, curves, points, o).value, curves, points, o)
  {
  }

  /** Every extension of an accepted text holds what was configured for it, or the numbers of the text's own fields. */
  lemma {:induction false} ExtensionsHoldOptions(ja3: string, o: Options)
    requires Parse(ja3, o).Ok?
    ensures var f := Text.Split(ja3, ',');
            var curves, points := Numbers(OptionalTokens(f[3]), 65535), Numbers(OptionalTokens(f[4]), 255);
            && curves.Ok? && points.Ok?
            && forall b :: b in Parse(ja3, o).value.extensions ==> HoldsItsOption(b, curves.value, points.value, o)
  {
    var f := Text.Split(ja3, ',');
    var curves, points := Numbers(OptionalTokens(f[3]), MAX16).value, Numbers(OptionalTokens(f[4]), MAX8).value;
    ListedMeans(Text.Split(f[2], '-'), curves, points, o);
    forall b | b in Parse(ja3, o).value.extensions
      ensures HoldsItsOption(b, curves, points, o)
    {
      BodyHoldsItsOption(WireId(b), curves, points, o);
    }
  }

  lemma PrintedHasNoSeparator(ns: seq<nat>, sep: char)
    requires !IsDigit(sep)
    ensures forall i :: 0 <= i < |ns| ==> sep !in PrintAll(ns)[i]
  {
  }

  /** Printing parsed tokens gives back the field they were split from exactly if all of them are canonical. */
  lemma PrintParsedTokens(field: string, tokens: seq<string>, ns: seq<nat>, max: nat)
    requires tokens == Text.Split(field, '-') && |ns| == |tokens|
    requires forall i :: 0 <= i < |tokens| ==> ParseUint(tokens[i], max) == Some(ns[i])
    ensures Print(ns) == field <==> AllCanonical(tokens)
  {
    forall i | 0 <= i < |tokens|
      ensures PrintAll(ns)[i] == tokens[i] <==> IsCanonical(tokens[i])
    {
      ParsePrintUint(ns[i], tokens[i], max);
    }
    Text.JoinSplit(field, '-');
    if AllCanonical(tokens) {
      assert PrintAll(ns) == tokens;
    }
    if Print(ns) == field {
      PrintedHasNoSeparator(ns, '-');
      Text.SplitJoin(PrintAll(ns), '-');
    }
  }

  /** The same for a field that may be empty. */
  lemma PrintParsedOptional(field: string, max: nat)
    requires Numbers(OptionalTokens(field), max).Ok?
    ensures Print(Numbers(OptionalTokens(field), max).value) == field <==> AllCanonical(OptionalTokens(field))
  {
    var tokens := Text.Split(field, '-');
    if OptionalTokens(field) == [] {
      Text.JoinSplit(field, '-');
    } else {
      NumbersMeans(tokens, max);
      PrintParsedTokens(field, tokens, Numbers(tokens, max).value, max);
    }
  }

  lemma {:induction false} PrintNothing(ns: seq<nat>)
    ensures Print(ns) == "" <==> ns == []
  {
    if ns != [] {
      var p := PrintAll(ns);
      assert p[0] != "";
    }
  }

  /** The curves offered are the parsed ones if the extension is listed, and none otherwise. */
  lemma {:induction false} Offered(extensions: seq<Body>, curves: seq<nat>, points: seq<nat>, o: Options)
    requires forall i :: 0 <= i < |extensions| ==>
               BodyOf(WireId(extensions[i]), curves, points, o) == Some(extensions[i])
    ensures OfferedCurves(extensions) == if 10 in Ids(extensions) then curves else []
    ensures OfferedPoints(extensions) == if 11 in Ids(extensions) then points else []
  {
    if extensions != [] {
      Offered(extensions[1..], curves, points, o);
      assert Ids(extensions) == [WireId(extensions[0])] + Ids(extensions[1..]);
    }
  }

  // ----- Fidelity

  /**
  Printing the ClientHello made from an accepted text reproduces fields two to five exactly when their tokens are
  canonical decimals, and curves and point formats come with the extension that carries them.
  */
  lemma {:induction false} Fidelity(ja3: string, o: Options)
    requires Parse(ja3, o).Ok?
    ensures var f, h := Text.Split(ja3, ','), Parse(ja3, o).value;
            && (Print(h.ciphers) == f[1] <==> AllCanonical(Text.Split(f[1], '-')))
            && (Print(Ids(h.extensions)) == f[2] <==> AllCanonical(Text.Split(f[2], '-')))
            && (Print(OfferedCurves(h.extensions)) == f[3] <==>
                if 10 in Ids(h.extensions) then AllCanonical(OptionalTokens(f[3])) else f[3] == "")
            && (Print(OfferedPoints(h.extensions)) == f[4] <==>
                if 11 in Ids(h.extensions) then AllCanonical(OptionalTokens(f[4])) else f[4] == "")
  {
    var f, h := Text.Split(ja3, ','), Parse(ja3, o).value;
    var curves, points := Numbers(OptionalTokens(f[3]), MAX16).value, Numbers(OptionalTokens(f[4]), MAX8).value;
    NumbersMeans(Text.Split(f[1], '-'), MAX16);
    PrintParsedTokens(f[1], Text.Split(f[1], '-'), h.ciphers, MAX16);
    ListedMeans(Text.Split(f[2], '-'), curves, points, o);
    PrintParsedTokens(f[2], Text.Split(f[2], '-'), Ids(h.extensions), MAX16);
    PrintParsedOptional(f[3], MAX16);
    PrintParsedOptional(f[4], MAX8);
    Offered(h.extensions, curves, points, o);
    PrintNothing([]);
  }

  // ----- Round trip

  predicate Below(ns: seq<nat>, max: nat) {
    forall i :: 0 <= i < |ns| ==> ns[i] <= max
  }

  lemma {:induction false} NumbersOfPrinted(ns: seq<nat>, max: nat)
    requires Below(ns, max)
    ensures Numbers(PrintAll(ns), max) == Ok(ns)
  {
    if ns != [] {
      var n := |ns| - 1;
      NumbersOfPrinted(ns[..n], max);
      assert PrintAll(ns)[..n] == PrintAll(ns[..n]);
      ParsePrintUint(ns[n], "", max);
      assert ns == ns[..n] + [ns[n]];
    }
  }

  lemma PrintedIdsPrefix(bodies: seq<Body>, n: nat)
    requires n < |bodies|
    ensures PrintAll(Ids(bodies))[..n] == PrintAll(Ids(bodies[..n])) && Ids(bodies)[..n] == Ids(bodies[..n])
    ensures PrintAll(Ids(bodies))[n] == PrintUint(WireId(bodies[n]))
  {
  }

  lemma {:induction false} ListedOfPrinted(bodies: seq<Body>, curves: seq<nat>, points: seq<nat>, o: Options)
    requires Below(Ids(bodies), MAX16)
    requires forall i :: 0 <= i < |bodies| ==> BodyOf(WireId(bodies[i]), curves, points, o) == Some(bodies[i])
    ensures Listed(PrintAll(Ids(bodies)), curves, points, o) == Ok(bodies)
  {
    if bodies != [] {
      var n := |bodies| - 1;
      PrintedIdsPrefix(bodies, n);
      ListedOfPrinted(bodies[..n], curves, points, o);
      assert WireId(bodies[n]) == Ids(bodies)[n];
      ListedOneMore(PrintAll(Ids(bodies)), bodies, curves, points, o);
    }
  }

  lemma ListedOneMore(tokens: seq<string>, bodies: seq<Body>, curves: seq<nat>, points: seq<nat>, o: Options)
    requires bodies != [] && |tokens| == |bodies|
    requires var n := |bodies| - 1;
             && Listed(tokens[..n], curves, points, o) == Ok(bodies[..n])
             && tokens[n] == PrintUint(WireId(bodies[n])) && WireId(bodies[n]) <= MAX16
             && BodyOf(WireId(bodies[n]), curves, points, o) == Some(bodies[n])
    ensures Listed(tokens, curves, points, o) == Ok(bodies)
  {
    var n := |bodies| - 1;
    ParsePrintUint(WireId(bodies[n]), "", MAX16);
    assert bodies == bodies[..n] + [bodies[n]];
  }

  /** Splitting a printed list gives its printed numbers. */
  lemma SplitPrinted(ns: seq<nat>)
    ensures ns != [] ==> Text.Split(Print(ns), '-') == PrintAll(ns)
    ensures OptionalTokens(Print(ns)) == PrintAll(ns)
  {
    PrintedHasNoSeparator(ns, '-');
    if ns != [] {
      Text.SplitJoin(PrintAll(ns), '-');
      assert PrintAll(ns)[0] != "";
    }
  }

  lemma {:induction false} NoCommaInJoin(parts: seq<string>)
    requires forall i :: 0 <= i < |parts| ==> ',' !in parts[i]
    ensures ',' !in Text.Join(parts, '-')
  {
    if |parts| > 1 {
      NoCommaInJoin(parts[1..]);
    }
  }

  lemma NoCommaInPrint(ns: seq<nat>)
    ensures ',' !in Print(ns)
  {
    PrintedHasNoSeparator(ns, ',');
    NoCommaInJoin(PrintAll(ns));
  }

  /** A ClientHello that these options can make. */
  ghost predicate Makeable(h: Hello, curves: seq<nat>, points: seq<nat>, o: Options) {
    && h.ciphers != [] && Below(h.ciphers, MAX16) && h.extensions != [] && Below(Ids(h.extensions), MAX16)
    && Below(curves, MAX16) && Below(points, MAX8)
    && (10 in Ids(h.extensions) || curves == []) && (11 in Ids(h.extensions) || points == [])
    && forall i :: 0 <= i < |h.extensions| ==>
         BodyOf(WireId(h.extensions[i]), curves, points, o) == Some(h.extensions[i])
  }

  /** Every ClientHello that the options can make is made from its own JA3 text. */
  lemma {:induction false} ParsesItsPrint(version: string, h: Hello, curves: seq<nat>, points: seq<nat>, o: Options)
    requires Makeable(h, curves, points, o) && ',' !in version
    ensures Parse(PrintHello(version, h), o) == Ok(h)
  {
    Offered(h.extensions, curves, points, o);
    var ids := Ids(h.extensions);
    var f := [version, Print(h.ciphers), Print(ids), Print(curves), Print(points)];
    NoCommaInPrint(h.ciphers);
    NoCommaInPrint(ids);
    NoCommaInPrint(curves);
    NoCommaInPrint(points);
    Text.SplitJoin(f, ',');
    SplitPrinted(h.ciphers);
    SplitPrinted(ids);
    SplitPrinted(curves);
    SplitPrinted(points);
    NumbersOfPrinted(h.ciphers, MAX16);
    NumbersOfPrinted(curves, MAX16);
    NumbersOfPrinted(points, MAX8);
    ListedOfPrinted(h.extensions, curves, points, o);
  }
}
