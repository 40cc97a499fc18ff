/** profiles/extension_data.go: the trust_anchors payload, its parser, its shuffle and its printer. */
module TrustAnchors {
  import opened Common

  // ----- Hexadecimal captures

  function HexDigit(c: char): (r: Option<nat>)
    ensures r.Some? ==> r.value < 16
  {
    if '0' <= c <= '9' then Some(c as int - '0' as int)
    else if 'a' <= c <= 'f' then Some(c as int - 'a' as int + 10)
    else if 'A' <= c <= 'F' then Some(c as int - 'A' as int + 10)
    else None
  }

  /** hex.DecodeString. */
  function DecodeHex(s: string): (r: Option<Bytes>)
    ensures r.Some? ==> |s| == 2 * |r.value|
  {
    if s == "" then Some([])
    else if |s| == 1 then None
    else
      var hi, lo, rest := HexDigit(s[0]), HexDigit(s[1]), DecodeHex(s[2..]);
      if hi.None? || lo.None? || rest.None? then None
      else Some([hi.value * 16 + lo.value] + rest.value)
  }

  /** The sixteen digits, in either case. */
  lemma HexDigitIs(c: char, n: nat)
    requires n < 16
    ensures HexDigit(c) == Some(n) <==> c == "0123456789abcdef"[n] || c == "0123456789ABCDEF"[n]
  {
  }

  /** Two digits make a byte, the first of them the higher half; anything else is refused. */
  lemma {:induction false} HexMeans(s: string, bytes: Bytes)
    ensures DecodeHex(s) == Some(bytes) <==>
            && |s| == 2 * |bytes|
            && forall i :: 0 <= i < |bytes| ==> IsHexOf(s[2 * i], s[2 * i + 1], bytes[i])
  {
    if |s| >= 2 && |bytes| >= 1 {
      HexMeans(s[2..], bytes[1..]);
      assert bytes == [bytes[0]] + bytes[1..];
      if |s| == 2 * |bytes| {
        HexShift(s, bytes);
      }
      HexHead(s, bytes[0]);
    }
  }

  predicate IsHexOf(hi: char, lo: char, byte: Byte) {
    HexDigit(hi).Some? && HexDigit(lo).Some? && byte == 16 * HexDigit(hi).value + HexDigit(lo).value
  }

  lemma HexHead(s: string, byte: Byte)
    requires |s| >= 2
    ensures DecodeHex(s).Some? <==> HexDigit(s[0]).Some? && HexDigit(s[1]).Some? && DecodeHex(s[2..]).Some?
    ensures DecodeHex(s).Some? ==> (DecodeHex(s).value[0] == byte <==> IsHexOf(s[0], s[1], byte))
    ensures DecodeHex(s).Some? ==> DecodeHex(s).value[1..] == DecodeHex(s[2..]).value
  {
  }

  lemma HexShift(s: string, bytes: Bytes)
    requires |s| == 2 * |bytes| && |bytes| >= 1
    ensures (forall i :: 0 <= i < |bytes| ==> IsHexOf(s[2 * i], s[2 * i + 1], bytes[i])) <==>
            && IsHexOf(s[0], s[1], bytes[0])
            && forall i :: 0 <= i < |bytes[1..]| ==> IsHexOf(s[2..][2 * i], s[2..][2 * i + 1], bytes[1..][i])
  {
    if forall i :: 0 <= i < |bytes[1..]| ==> IsHexOf(s[2..][2 * i], s[2..][2 * i + 1], bytes[1..][i]) {
      forall i | 0 < i < |bytes|
        ensures IsHexOf(s[2 * i], s[2 * i + 1], bytes[i])
      {
        var j := i - 1;
        assert IsHexOf(s[2..][2 * j], s[2..][2 * j + 1], bytes[1..][j]);
      }
    }
    if forall i :: 0 <= i < |bytes| ==> IsHexOf(s[2 * i], s[2 * i + 1], bytes[i]) {
      assert IsHexOf(s[2 * 0], s[2 * 0 + 1], bytes[0]);
      forall i | 0 <= i < |bytes[1..]|
        ensures IsHexOf(s[2..][2 * i], s[2..][2 * i + 1], bytes[1..][i])
      {
        var j := i + 1;
        assert IsHexOf(s[2 * j], s[2 * j + 1], bytes[j]);
      }
    }
  }

  // ----- Records

  /** A record is the 8-bit length with the ID that follows it. */
  predicate IsRecord(r: Bytes) {
    |r| > 0 && r[0] == |r| - 1
  }

  predicate AreRecords(rs: seq<Bytes>) {
    forall i :: 0 <= i < |rs| ==> IsRecord(rs[i])
  }

  function Flatten(rs: seq<Bytes>): Bytes {
    if rs == [] then [] else rs[0] + Flatten(rs[1..])
  }

  /** The payload: a 16-bit list length, then the records. */
  function Payload(rs: seq<Bytes>): Bytes {
    PutUint16(|Flatten(rs)|) + Flatten(rs)
  }

  /** The bytes of a payload: the size, higher byte first, then one record after the other, each with its length. */
  lemma PayloadBytes(rs: seq<Bytes>, r: Bytes, hi: Byte, lo: Byte)
    ensures |Flatten(rs)| == 256 * hi + lo ==> Payload(rs) == [hi, lo] + Flatten(rs)
    ensures Flatten([]) == [] && Flatten(rs + [r]) == Flatten(rs) + r
    ensures IsRecord(r) <==> exists id: Bytes :: |id| < 256 && r == [|id|] + id
  {
    PutUint16Inverts(hi, lo);
    FlattenAppend(rs, [r]);
    FlattenOne(r);
    if IsRecord(r) {
      assert r == [|r[1..]|] + r[1..];
    }
  }

  /** The list that a payload with a matching length field carries. */
  function ListOf(payload: Bytes): Option<Bytes> {
    if |payload| >= 2 && Uint16(payload[0], payload[1]) == |payload| - 2 then Some(payload[2..]) else None
  }

  function SplitList(list: Bytes): Option<seq<Bytes>>
    decreases |list|
  {
    if list == [] then Some([])
    else if 1 + list[0] > |list| then None
    else
      var rest := SplitList(list[1 + list[0]..]);
      if rest.None? then None else Some([list[..1 + list[0]]] + rest.value)
  }

  /** What splitting means: the records in order, and nothing else. */
  lemma {:induction false} SplitFlattens(list: Bytes)
    ensures SplitList(list).Some? ==> AreRecords(SplitList(list).value) && Flatten(SplitList(list).value) == list
    decreases |list|
  {
    if list != [] && 1 + list[0] <= |list| {
      var head, tail := list[..1 + list[0]], list[1 + list[0]..];
      SplitFlattens(tail);
      if SplitList(tail).Some? {
        var rs := SplitList(list).value;
        assert rs[1..] == SplitList(tail).value;
        assert list == head + tail;
      }
    }
  }

  /** Splitting undoes flattening: a list has at most one division into records. */
  lemma {:induction false} FlattenSplits(rs: seq<Bytes>)
    requires AreRecords(rs)
    ensures SplitList(Flatten(rs)) == Some(rs)
  {
    if rs != [] {
      var list := Flatten(rs);
      assert list[0] == rs[0][0] && list[..1 + list[0]] == rs[0] && list[1 + list[0]..] == Flatten(rs[1..]);
      FlattenSplits(rs[1..]);
      assert rs == [rs[0]] + rs[1..];
    }
  }

  lemma {:induction false} FlattenAppend(a: seq<Bytes>, b: seq<Bytes>)
    ensures Flatten(a + b) == Flatten(a) + Flatten(b)
  {
    if a == [] {
      assert a + b == b;
    } else {
      FlattenAppend(a[1..], b);
      assert (a + b)[1..] == a[1..] + b;
      ConcatAssociates(a[0], Flatten(a[1..]), Flatten(b));
    }
  }

  /** The parsing loop of splitTrustAnchors. */
  method SplitRecords(list: Bytes) returns (records: Option<seq<Bytes>>)
    ensures records.Some? ==> AreRecords(records.value) && Flatten(records.value) == list
    ensures records.None? ==> forall rs :: AreRecords(rs) ==> Flatten(rs) != list
  {
    var found: seq<Bytes> := [];
    var i := 0;
    while i < |list|
      invariant 0 <= i <= |list|
      invariant AreRecords(found) && Flatten(found) == list[..i]
    {
      var end := i + 1 + list[i];
      if end > |list| {
        NoSplit(list, found, i);
        return None;
      }
      FlattenAppend(found, [list[i..end]]);
      FlattenOne(list[i..end]);
      assert list[..i] + list[i..end] == list[..end];
      found := found + [list[i..end]];
      i := end;
    }
    assert list[..i] == list;
    records := Some(found);
  }

  lemma PayloadOfField(payload: Bytes, field: Bytes, list: Bytes)
    requires |field| == 2 && Uint16(field[0], field[1]) == |list|
    ensures payload == field + list <==> ListOf(payload) == Some(list)
  {
    if payload == field + list {
      assert payload[2..] == list;
    }
    if ListOf(payload) == Some(list) {
      Uint16Injective(payload[0], payload[1], field[0], field[1]);
      assert payload == field + list;
    }
  }

  /** A payload whose length field matches is the payload of whatever records flatten to its list, and of no others. */
  lemma PayloadOfList(payload: Bytes, rs: seq<Bytes>)
    requires |Flatten(rs)| < 65536
    ensures payload == Payload(rs) <==> ListOf(payload) == Some(Flatten(rs))
  {
    FitsUint16(|Flatten(rs)|);
    PayloadOfField(payload, PutUint16(|Flatten(rs)|), Flatten(rs));
  }

  /**
  splitTrustAnchors succeeds exactly on the hex form of a payload made of records, and returns those records: when it
  fails, no list of records has that payload.
  */
  method SplitTrustAnchors(capture: string) returns (records: Option<seq<Bytes>>)
    ensures records.Some? ==> DecodeHex(capture) == Some(Payload(records.value)) && AreRecords(records.value)
                              && |Flatten(records.value)| < 65536
    ensures records.None? ==> forall rs :: !Captures(capture, rs)
  {
    var decoded := DecodeHex(capture);
    if decoded.None? {
      return None;
    }
    var payload := decoded.value;
    forall rs: seq<Bytes> | |Flatten(rs)| < 65536
      ensures payload == Payload(rs) <==> ListOf(payload) == Some(Flatten(rs))
    {
      PayloadOfList(payload, rs);
    }
    if |payload| < 2 || Uint16(payload[0], payload[1]) != |payload| - 2 {
      return None;
    }
    records := SplitRecords(payload[2..]);
  }

  /** An ID that runs past the end rules out every division of the list. */
  lemma NoSplit(list: Bytes, found: seq<Bytes>, i: nat)
    requires i < |list| && i + 1 + list[i] > |list| && AreRecords(found) && Flatten(found) == list[..i]
    ensures forall rs :: AreRecords(rs) ==> Flatten(rs) != list
  {
    forall rs | AreRecords(rs)
      ensures Flatten(rs) != list
    {
      assert list == list[..i] + list[i..];
      SplitAfter(found, list[i..]);
      FlattenSplits(rs);
    }
  }

  /** After whole records, splitting goes on with the rest. */
  lemma {:induction false} SplitAfter(rs: seq<Bytes>, rest: Bytes)
    requires AreRecords(rs)
    ensures SplitList(Flatten(rs) + rest).Some? <==> SplitList(rest).Some?
  {
    if rs == [] {
      assert Flatten(rs) + rest == rest;
    } else {
      var list := Flatten(rs) + rest;
      assert list[0] == rs[0][0] && list[1 + list[0]..] == Flatten(rs[1..]) + rest;
      SplitAfter(rs[1..], rest);
    }
  }

  // ----- Shuffling

  function Swap<T>(s: seq<T>, i: nat, j: nat): (r: seq<T>)
    requires i < |s| && j < |s|
    ensures |r| == |s| && r[i] == s[j] && r[j] == s[i]
  {
    s[i := s[j]][j := s[i]]
  }

  /** The draws for n records: at position k a number below n - k, as rand.Int returns it. */
  predicate ValidDraws(n: nat, draws: seq<nat>) {
    |draws| == (if n == 0 then 0 else n - 1) && forall k :: 0 <= k < |draws| ==> draws[k] < n - k
  }

  /** The Fisher-Yates shuffle: swap the last element with a drawn one, then shuffle what is before it. */
  function Shuffled<T>(s: seq<T>, draws: seq<nat>): (r: seq<T>)
    requires ValidDraws(|s|, draws)
    ensures |r| == |s|
    decreases |s|
  {
    if |s| <= 1 then s
    else
      var i := |s| - 1;
      var t := Swap(s, i, draws[0]);
      Shuffled(t[..i], draws[1..]) + [t[i]]
  }

  lemma SwapPermutes<T>(s: seq<T>, i: nat, j: nat)
    requires i < |s| && j < |s|
    ensures multiset(Swap(s, i, j)) == multiset(s)
  {
  }

  lemma SplitLast<T>(s: seq<T>)
    requires s != []
    ensures multiset(s) == multiset(s[..|s| - 1]) + multiset{s[|s| - 1]}
    ensures multiset(s[..|s| - 1]) == multiset(s) - multiset{s[|s| - 1]}
  {
    assert s == s[..|s| - 1] + [s[|s| - 1]];
  }

  lemma SameLength<T>(a: seq<T>, b: seq<T>)
    requires multiset(a) == multiset(b)
    ensures |a| == |b|
  {
    assert |a| == |multiset(a)| && |b| == |multiset(b)|;
  }

  lemma RemoveAt<T>(s: seq<T>, i: nat)
    requires i < |s|
    ensures multiset(s[..i] + s[i + 1..]) == multiset(s) - multiset{s[i]}
  {
    assert s == s[..i] + [s[i]] + s[i + 1..];
  }

  /** A shuffle only reorders. */
  lemma {:induction false} ShuffledPermutes<T>(s: seq<T>, draws: seq<nat>)
    requires ValidDraws(|s|, draws)
    ensures multiset(Shuffled(s, draws)) == multiset(s)
    decreases |s|
  {
    if |s| > 1 {
      var t := Swap(s, |s| - 1, draws[0]);
      SwapPermutes(s, |s| - 1, draws[0]);
      SplitLast(t);
      ShuffledPermutes(t[..|s| - 1], draws[1..]);
    }
  }

  lemma Occurs<T>(s: seq<T>, target: seq<T>, i: nat) returns (j: nat)
    requires multiset(s) == multiset(target) && i < |target|
    ensures j < |s| && s[j] == target[i]
  {
    assert target[i] in multiset(s);
    j :| 0 <= j < |s| && s[j] == target[i];
  }

  /** Some element can be swapped to the end so that it is the target's last, and the rest still match. */
  lemma LastCanBeDrawn<T>(s: seq<T>, target: seq<T>) returns (j: nat)
    requires multiset(s) == multiset(target) && |s| == |target| > 0
    ensures j < |s|
    ensures Swap(s, |s| - 1, j)[|s| - 1] == target[|s| - 1]
    ensures multiset(Swap(s, |s| - 1, j)[..|s| - 1]) == multiset(target[..|s| - 1])
  {
    j := Occurs(s, target, |s| - 1);
    SwapPermutes(s, |s| - 1, j);
    SameLast(Swap(s, |s| - 1, j), target);
  }

  lemma SameLast<T>(a: seq<T>, b: seq<T>)
    requires multiset(a) == multiset(b) && |a| == |b| > 0 && a[|a| - 1] == b[|a| - 1]
    ensures multiset(a[..|a| - 1]) == multiset(b[..|a| - 1])
  {
    SplitLast(a);
    SplitLast(b);
  }

  /** Every permutation is the outcome of some draws. */
  lemma {:induction false} EveryOrderIsDrawn<T>(s: seq<T>, target: seq<T>) returns (draws: seq<nat>)
    requires multiset(s) == multiset(target)
    ensures ValidDraws(|s|, draws) && Shuffled(s, draws) == target
    decreases |s|
  {
    SameLength(s, target);
    if |s| <= 1 {
      ShortOrders(s, target);
      return [];
    }
    var i := |s| - 1;
    var j := LastCanBeDrawn(s, target);
    var rest := EveryOrderIsDrawn(Swap(s, i, j)[..i], target[..i]);
    draws := [j] + rest;
    DrawFirst(s, j, rest);
    assert target == target[..i] + [target[i]];
  }

  lemma ShortOrders<T>(s: seq<T>, target: seq<T>)
    requires multiset(s) == multiset(target) && |s| == |target| <= 1
    ensures s == target
  {
    if |s| == 1 {
      assert s == [s[0]] && target == [target[0]];
      assert s[0] in multiset(target);
    }
  }

  lemma DrawFirst<T>(s: seq<T>, j: nat, rest: seq<nat>)
    requires |s| > 1 && j < |s| && ValidDraws(|s| - 1, rest)
    ensures ValidDraws(|s|, [j] + rest)
    ensures var t := Swap(s, |s| - 1, j); Shuffled(s, [j] + rest) == Shuffled(t[..|s| - 1], rest) + [t[|s| - 1]]
  {
    assert ([j] + rest)[1..] == rest;
  }

  /** Each draw says which of the elements not yet placed goes to the end. */
  lemma DrawnIsLast<T>(s: seq<T>, draws: seq<nat>)
    requires |s| > 1 && ValidDraws(|s|, draws)
    ensures var n, j := |s| - 1, draws[0];
            && Shuffled(s, draws)[n] == s[j]
            && Shuffled(s, draws)[..n] == Shuffled(if j == n then s[..n] else s[..n][j := s[n]], draws[1..])
  {
    var n, j := |s| - 1, draws[0];
    assert Swap(s, n, j)[..n] == if j == n then s[..n] else s[..n][j := s[n]];
  }

  /** When the records differ, the draws can be read back from the outcome, so they are unique. */
  lemma {:induction false} DrawsAreUnique<T>(s: seq<T>, draws: seq<nat>, draws': seq<nat>)
    requires forall i, j :: 0 <= i < j < |s| ==> s[i] != s[j]
    requires ValidDraws(|s|, draws) && ValidDraws(|s|, draws') && Shuffled(s, draws) == Shuffled(s, draws')
    ensures draws == draws'
    decreases |s|
  {
    if |s| > 1 {
      var i := |s| - 1;
      var t, t' := Swap(s, i, draws[0]), Swap(s, i, draws'[0]);
      assert Shuffled(s, draws)[i] == t[i] == s[draws[0]];
      assert Shuffled(s, draws')[i] == t'[i] == s[draws'[0]];
      assert draws[0] == draws'[0];
      assert Shuffled(s, draws)[..i] == Shuffled(t[..i], draws[1..]);
      assert Shuffled(s, draws')[..i] == Shuffled(t[..i], draws'[1..]);
      DrawsAreUnique(t[..i], draws[1..], draws'[1..]);
      assert draws == [draws[0]] + draws[1..] && draws' == [draws'[0]] + draws'[1..];
    }
  }

  /** What the loop leaves in the array when it still has positions i, i - 1, ..., 1 to visit. */
  function InPlace<T>(s: seq<T>, i: nat, draws: seq<nat>): (r: seq<T>)
    requires i < |s| && ValidDraws(i + 1, draws)
    ensures |r| == |s|
    decreases i
  {
    if i == 0 then s else InPlace(Swap(s, i, draws[0]), i - 1, draws[1..])
  }

  /** The loop on the whole array computes the recursive shuffle of its first i + 1 elements. */
  lemma {:induction false} InPlaceIsShuffled<T>(s: seq<T>, i: nat, draws: seq<nat>)
    requires i < |s| && ValidDraws(i + 1, draws)
    ensures InPlace(s, i, draws) == Shuffled(s[..i + 1], draws) + s[i + 1..]
    decreases i
  {
    if i > 0 {
      var part, t := s[..i + 1], Swap(s, i, draws[0]);
      InPlaceIsShuffled(t, i - 1, draws[1..]);
      var swapped := Swap(part, i, draws[0]);
      assert t[..i] == swapped[..i];
      assert t[i..] == [swapped[i]] + s[i + 1..];
    }
  }

  method SwapInPlace<T>(records: array<T>, i: nat, j: nat)
    requires i < records.Length && j < records.Length
    modifies records
    ensures records[..] == Swap(old(records[..]), i, j)
  {
    records[i], records[j] := records[j], records[i];
  }

  /** The in-place loop of shuffleTrustAnchors. */
  method Shuffle<T>(records: array<T>, draws: seq<nat>)
    requires ValidDraws(records.Length, draws)
    modifies records
    ensures records[..] == Shuffled(old(records[..]), draws)
  {
    if records.Length == 0 {
      return;
    }
    var i := records.Length - 1;
    ghost var rest := draws;
    while i > 0
      invariant 0 <= i < records.Length && rest == draws[records.Length - 1 - i..] && ValidDraws(i + 1, rest)
      invariant InPlace(records[..], i, rest) == InPlace(old(records[..]), records.Length - 1, draws)
    {
      SwapInPlace(records, i, draws[records.Length - 1 - i]);
      rest := rest[1..];
      i := i - 1;
    }
    ghost var was := old(records[..]);
    assert was[..records.Length] == was;
    InPlaceIsShuffled(was, records.Length - 1, draws);
  }

  // ----- Building a payload

  /** The draws for n records out of an arbitrary random source. */
  function Draws(n: nat, random: nat -> nat): (draws: seq<nat>)
    ensures ValidDraws(n, draws)
  {
    if n == 0 then [] else seq(n - 1, k requires 0 <= k < n - 1 => random(k) % (n - k))
  }

  /** The printing half of shuffleTrustAnchors. */
  method Print(records: seq<Bytes>) returns (payload: Bytes)
    ensures payload == Payload(records)
  {
    var size := 0;
    for i := 0 to |records|
      invariant size == |Flatten(records[..i])|
    {
      FlattenOneMore(records, i);
      size := size + |records[i]|;
    }
    assert records[..|records|] == records;
    var field := PutUint16(size);
    var list: Bytes := [];
    for i := 0 to |records|
      invariant list == Flatten(records[..i])
    {
      FlattenOneMore(records, i);
      list := list + records[i];
    }
    payload := field + list;
  }

  /** shuffleTrustAnchors: the anchors keep their order, and the payload lists them in the drawn one. */
  method ShuffleTrustAnchors(anchors: array<Bytes>, random: nat -> nat) returns (payload: Bytes)
    ensures payload == Payload(Shuffled(anchors[..], Draws(anchors.Length, random)))
  {
    var records := new Bytes[anchors.Length];
    for i := 0 to anchors.Length
      invariant records[..i] == anchors[..i]
    {
      records[i] := anchors[i];
    }
    assert records[..] == records[..anchors.Length] && anchors[..] == anchors[..anchors.Length];
    Shuffle(records, Draws(anchors.Length, random));
    payload := Print(records[..]);
  }

  lemma FlattenOne(r: Bytes)
    ensures Flatten([r]) == r
  {
    assert Flatten([r]) == r + Flatten([r][1..]);
  }

  lemma FlattenOneMore(rs: seq<Bytes>, i: nat)
    requires i < |rs|
    ensures Flatten(rs[..i + 1]) == Flatten(rs[..i]) + rs[i]
  {
    FlattenAppend(rs[..i], [rs[i]]);
    FlattenOne(rs[i]);
    assert rs[..i + 1] == rs[..i] + [rs[i]];
  }

  lemma FlattenRemove(rs: seq<Bytes>, i: nat)
    requires i < |rs|
    ensures |Flatten(rs)| == |rs[i]| + |Flatten(rs[..i] + rs[i + 1..])|
  {
    assert rs == rs[..i + 1] + rs[i + 1..];
    FlattenAppend(rs[..i + 1], rs[i + 1..]);
    FlattenOneMore(rs, i);
    FlattenAppend(rs[..i], rs[i + 1..]);
  }

  lemma MatchingRemoval<T>(a: seq<T>, b: seq<T>) returns (j: nat)
    requires multiset(a) == multiset(b) && a != []
    ensures j < |b| && b[j] == a[0] && multiset(a[..0] + a[1..]) == multiset(b[..j] + b[j + 1..])
  {
    assert a[0] in multiset(b);
    j :| 0 <= j < |b| && b[j] == a[0];
    RemoveAt(a, 0);
    RemoveAt(b, j);
  }

  lemma {:induction false} FlattenSizePermutes(a: seq<Bytes>, b: seq<Bytes>)
    requires multiset(a) == multiset(b)
    ensures |Flatten(a)| == |Flatten(b)|
    decreases |a|
  {
    SameLength(a, b);
    if a != [] {
      var j := MatchingRemoval(a, b);
      FlattenSizePermutes(a[..0] + a[1..], b[..j] + b[j + 1..]);
      FlattenRemove(a, 0);
      FlattenRemove(b, j);
    }
  }

  lemma ListOfField(field: Bytes, list: Bytes)
    requires |field| == 2
    ensures ListOf(field + list) == if Uint16(field[0], field[1]) == |list| then Some(list) else None
  {
    assert (field + list)[2..] == list;
  }

  /** A printed payload splits into its records exactly when their total size fits the 16-bit length field. */
  lemma PayloadSplits(rs: seq<Bytes>)
    requires AreRecords(rs)
    ensures ListOf(Payload(rs)).Some? <==> |Flatten(rs)| < 65536
    ensures |Flatten(rs)| < 65536 ==> ListOf(Payload(rs)) == Some(Flatten(rs)) && SplitList(Flatten(rs)) == Some(rs)
  {
    ListOfField(PutUint16(|Flatten(rs)|), Flatten(rs));
    FitsUint16(|Flatten(rs)|);
    FlattenSplits(rs);
  }

  /**
  BuildTrustAnchorsPayload: a payload is built exactly from well-formed captures. Its length field does not wrap, its
  size is the capture's, and splitting it again gives the capture's records in another order.
  */
  method BuildTrustAnchorsPayload(capture: string, random: nat -> nat) returns (payload: Option<Bytes>)
    ensures payload.None? ==> forall rs :: !Captures(capture, rs)
    ensures payload.Some? ==> exists rs :: Captures(capture, rs) && IsReordering(payload.value, rs, Draws(|rs|, random))
  {
    var records := SplitTrustAnchors(capture);
    if records.None? {
      return None;
    }
    assert Captures(capture, records.value);
    var anchors := new Bytes[|records.value|](i requires 0 <= i < |records.value| => records.value[i]);
    assert anchors[..] == records.value;
    var built := ShuffleTrustAnchors(anchors, random);
    PayloadIsReordering(records.value, Draws(|records.value|, random));
    payload := Some(built);
  }

  /** The text a capture of these records has. */
  ghost predicate Captures(capture: string, rs: seq<Bytes>) {
    AreRecords(rs) && |Flatten(rs)| < 65536 && DecodeHex(capture) == Some(Payload(rs))
  }

  /** The payload lists the records in the order the draws give, fits its length field, and keeps the size. */
  ghost predicate IsReordering(payload: Bytes, rs: seq<Bytes>, draws: seq<nat>) {
    && ValidDraws(|rs|, draws)
    && |payload| == |Payload(rs)|
    && ListOf(payload) == Some(Flatten(Shuffled(rs, draws)))
    && SplitList(Flatten(Shuffled(rs, draws))) == Some(Shuffled(rs, draws))
    && multiset(Shuffled(rs, draws)) == multiset(rs)
  }

  lemma PayloadIsReordering(rs: seq<Bytes>, draws: seq<nat>)
    requires AreRecords(rs) && |Flatten(rs)| < 65536 && ValidDraws(|rs|, draws)
    ensures IsReordering(Payload(Shuffled(rs, draws)), rs, draws)
  {
    var t := Shuffled(rs, draws);
    ShuffledPermutes(rs, draws);
    FlattenSizePermutes(rs, t);
    forall i | 0 <= i < |t|
      ensures IsRecord(t[i])
    {
      assert t[i] in multiset(rs);
    }
    PayloadSplits(t);
  }
}
