/** jar.go: lists of cookies per host key, updated in one of two modes, and what a sequence of calls makes of them. */
module CookieJar {
  import opened Common
  import opened Text

  /** The fields of http.Cookie that the jar reads. */
  datatype Cookie = Cookie(name: string, value: string, maxAge: int)

  // ----- Lists of cookies

  predicate HasName(list: seq<Cookie>, name: string) {
    exists i :: 0 <= i < |list| && list[i].name == name
  }

  predicate UniqueNames(list: seq<Cookie>) {
    forall i, j :: 0 <= i < j < |list| ==> list[i].name != list[j].name
  }

  /** nonEmpty. */
  function NonEmpty(cookies: seq<Cookie>, allowEmpty: bool): seq<Cookie> {
    if allowEmpty || cookies == [] then cookies
    else if cookies[0].value == "" then NonEmpty(cookies[1..], false)
    else [cookies[0]] + NonEmpty(cookies[1..], false)
  }

  /** unique: from the last cookie to the first, keeping the first of each name met. */
  function Unique(cookies: seq<Cookie>, kept: seq<Cookie>): seq<Cookie> {
    if cookies == [] then kept
    else
      var last, rest := cookies[|cookies| - 1], cookies[..|cookies| - 1];
      Unique(rest, if HasName(kept, last.name) then kept else kept + [last])
  }

  /** The cookies of list whose name does not occur in others. */
  function Without(list: seq<Cookie>, others: seq<Cookie>): seq<Cookie> {
    if list == [] then []
    else (if HasName(others, list[0].name) then [] else [list[0]]) + Without(list[1..], others)
  }

  /** notExpired. */
  function NotExpired(list: seq<Cookie>): seq<Cookie> {
    if list == [] then []
    else (if list[0].maxAge < 0 then [] else [list[0]]) + NotExpired(list[1..])
  }

  /** buildCookieHostKey. */
  function HostKey(host: string): string {
    var parts := Split(host, '.');
    if |parts| == 3 || |parts| == 2 then parts[|parts| - 2] + "." + parts[|parts| - 1] else host
  }

  /** How one call changes the list of its host key. */
  function Update(existing: seq<Cookie>, batch: seq<Cookie>, skipExisting: bool, allowEmpty: bool): seq<Cookie> {
    var incoming := Unique(NonEmpty(batch, allowEmpty), []);
    if skipExisting then existing + Without(incoming, existing) else Without(existing, incoming) + incoming
  }

  function ListFor(lists: map<string, seq<Cookie>>, key: string): seq<Cookie> {
    if key in lists then lists[key] else []
  }

  // ----- What the filters keep

  /** Cookies with a value, or all of them if empty ones are allowed, in their order. */
  lemma NonEmptyKeeps(a: seq<Cookie>, c: Cookie, allowEmpty: bool)
    ensures NonEmpty([], allowEmpty) == []
    ensures NonEmpty(a + [c], allowEmpty) == NonEmpty(a, allowEmpty) + if allowEmpty || c.value != "" then [c] else []
  {
    NonEmptyAppend(a, [c], allowEmpty);
    assert [c][1..] == [];
  }

  lemma {:induction false} NotExpiredAppend(a: seq<Cookie>, b: seq<Cookie>)
    ensures NotExpired(a + b) == NotExpired(a) + NotExpired(b)
  {
    if a == [] {
      assert a + b == b;
    } else {
      NotExpiredAppend(a[1..], b);
      assert (a + b)[1..] == a[1..] + b;
    }
  }

  /** Cookies whose max age is not negative, in their order. */
  lemma NotExpiredKeeps(a: seq<Cookie>, c: Cookie)
    ensures NotExpired([]) == []
    ensures NotExpired(a + [c]) == NotExpired(a) + if c.maxAge >= 0 then [c] else []
  {
    NotExpiredAppend(a, [c]);
    assert [c][1..] == [];
  }

  lemma {:induction false} InNotExpired(list: seq<Cookie>, c: Cookie)
    ensures c in NotExpired(list) <==> c in list && c.maxAge >= 0
  {
    if list != [] {
      var n := |list| - 1;
      InNotExpired(list[..n], c);
      NotExpiredKeeps(list[..n], list[n]);
      assert list == list[..n] + [list[n]];
    }
  }

  function Reversed(s: seq<Cookie>): seq<Cookie> {
    if s == [] then [] else [s[|s| - 1]] + Reversed(s[..|s| - 1])
  }

  lemma HasNameOneMore(list: seq<Cookie>, c: Cookie, name: string)
    ensures HasName(list + [c], name) <==> HasName(list, name) || c.name == name
  {
    var longer := list + [c];
    assert longer[|list|] == c;
    if HasName(list, name) {
      var i :| 0 <= i < |list| && list[i].name == name;
      assert longer[i].name == name;
    }
  }

  /** None of the cookies has a name that occurs in list. */
  predicate NewIn(cookies: seq<Cookie>, list: seq<Cookie>) {
    forall i :: 0 <= i < |cookies| ==> !HasName(list, cookies[i].name)
  }

  lemma StillNew(cookies: seq<Cookie>, kept: seq<Cookie>)
    requires cookies != [] && UniqueNames(cookies) && NewIn(cookies, kept)
    ensures NewIn(cookies[..|cookies| - 1], kept + [cookies[|cookies| - 1]])
  {
    var n := |cookies| - 1;
    forall i | 0 <= i < n
      ensures !HasName(kept + [cookies[n]], cookies[..n][i].name)
    {
      HasNameOneMore(kept, cookies[n], cookies[i].name);
    }
  }

  lemma UniqueOneStep(cookies: seq<Cookie>, kept: seq<Cookie>)
    requires cookies != [] && !HasName(kept, cookies[|cookies| - 1].name)
    ensures Unique(cookies, kept) == Unique(cookies[..|cookies| - 1], kept + [cookies[|cookies| - 1]])
  {
  }

  /** A batch of different names is kept in reversed order. */
  lemma {:induction false} UniqueReverses(cookies: seq<Cookie>, kept: seq<Cookie>)
    requires UniqueNames(cookies) && NewIn(cookies, kept)
    ensures Unique(cookies, kept) == kept + Reversed(cookies)
    decreases |cookies|
  {
    if cookies != [] {
      var n := |cookies| - 1;
      StillNew(cookies, kept);
      UniqueReverses(cookies[..n], kept + [cookies[n]]);
      UniqueOneStep(cookies, kept);
      ConcatAssociates(kept, [cookies[n]], Reversed(cookies[..n]));
    }
  }

  lemma {:induction false} WithoutKeepsAll(list: seq<Cookie>, others: seq<Cookie>)
    requires NewIn(list, others)
    ensures Without(list, others) == list
  {
    if list != [] {
      WithoutKeepsAll(list[1..], others);
    }
  }

  lemma {:induction false} InReversed(s: seq<Cookie>)
    ensures |Reversed(s)| == |s| && forall i :: 0 <= i < |s| ==> Reversed(s)[i] == s[|s| - 1 - i]
  {
    if s != [] {
      InReversed(s[..|s| - 1]);
    }
  }

  /** New names are added at the end, the last of the batch first, in either mode. */
  lemma UpdateAddsAtTheEnd(existing: seq<Cookie>, batch: seq<Cookie>, skipExisting: bool, allowEmpty: bool)
    requires UniqueNames(batch) && NonEmpty(batch, allowEmpty) == batch
    requires NewIn(batch, existing)
    ensures Update(existing, batch, skipExisting, allowEmpty) == existing + Reversed(batch)
  {
    UniqueReverses(batch, []);
    InReversed(batch);
    assert [] + Reversed(batch) == Reversed(batch);
    var incoming := Reversed(batch);
    WithoutKeepsAll(incoming, existing);
    forall i | 0 <= i < |existing|
      ensures !HasName(incoming, existing[i].name)
    {
    }
    WithoutKeepsAll(existing, incoming);
  }

  // ----- Hosts

  /** A host of two labels, and every host of three that ends in them, has those two as its key. */
  lemma DomainKey(a: string, b: string, c: string)
    requires '.' !in a && '.' !in b && '.' !in c
    ensures HostKey(b + "." + c) == b + "." + c && HostKey(a + "." + (b + "." + c)) == b + "." + c
  {
    SplitJoin([b, c], '.');
    assert Join([b, c][1..], '.') == c && Join([b, c], '.') == b + "." + c;
    SplitJoin([a, b, c], '.');
    assert [a, b, c][1..] == [b, c] && Join([a, b, c], '.') == a + "." + (b + "." + c);
  }

  /** A host of one label, or of more than three, is its own key. */
  lemma OwnKey(labels: seq<string>)
    requires |labels| == 1 || |labels| > 3
    requires forall i :: 0 <= i < |labels| ==> '.' !in labels[i]
    ensures HostKey(Join(labels, '.')) == Join(labels, '.')
  {
    SplitJoin(labels, '.');
  }

  // ----- The list as a map from names to cookies

  /** Later cookies win. */
  function AsMap(list: seq<Cookie>): map<string, Cookie> {
    if list == [] then map[] else map[list[0].name := list[0]] + AsMap(list[1..])
  }

  lemma {:induction false} AsMapAppend(a: seq<Cookie>, b: seq<Cookie>)
    ensures AsMap(a + b) == AsMap(a) + AsMap(b)
  {
    if a == [] {
      assert a + b == b;
    } else {
      AsMapAppend(a[1..], b);
      assert (a + b)[1..] == a[1..] + b;
    }
  }

  lemma {:induction false} AsMapKeys(list: seq<Cookie>, name: string)
    ensures name in AsMap(list) <==> HasName(list, name)
  {
    if list != [] {
      AsMapKeys(list[1..], name);
      assert forall i :: 0 < i < |list| ==> list[i] == list[1..][i - 1];
      assert HasName(list[1..], name) ==> HasName(list, name) by {
        if HasName(list[1..], name) {
          var i :| 0 <= i < |list[1..]| && list[1..][i].name == name;
          assert list[i + 1].name == name;
        }
      }
    }
  }

  lemma {:induction false} WithoutNames(list: seq<Cookie>, others: seq<Cookie>, name: string)
    ensures HasName(Without(list, others), name) <==> HasName(list, name) && !HasName(others, name)
    ensures name !in AsMap(others) && name in AsMap(list) ==>
              name in AsMap(Without(list, others)) && AsMap(Without(list, others))[name] == AsMap(list)[name]
  {
    AsMapKeys(list, name);
    AsMapKeys(others, name);
    AsMapKeys(Without(list, others), name);
    if list != [] {
      WithoutNames(list[1..], others, name);
      AsMapKeys(list[1..], name);
      AsMapKeys(Without(list[1..], others), name);
      var head := if HasName(others, list[0].name) then [] else [list[0]];
      AsMapAppend(head, Without(list[1..], others));
      AsMapOne(list[0]);
    }
  }

  lemma AsMapOne(c: Cookie)
    ensures AsMap([c]) == map[c.name := c]
  {
    assert AsMap([c][1..]) == map[];
  }

  /** Removing the names of others from a list removes exactly those names from its map. */
  lemma WithoutMap(list: seq<Cookie>, others: seq<Cookie>)
    ensures AsMap(Without(list, others)) == AsMap(list) - AsMap(others).Keys
  {
    var w := AsMap(Without(list, others));
    forall name
      ensures name in w <==> name in AsMap(list) && name !in AsMap(others)
      ensures name in w ==> w[name] == AsMap(list)[name]
    {
      WithoutNames(list, others, name);
      AsMapKeys(list, name);
      AsMapKeys(others, name);
      AsMapKeys(Without(list, others), name);
    }
  }

  predicate Disjoint(a: seq<Cookie>, b: seq<Cookie>) {
    forall i, j :: 0 <= i < |a| && 0 <= j < |b| ==> a[i].name != b[j].name
  }

  lemma {:induction false} WithoutUnique(list: seq<Cookie>, others: seq<Cookie>)
    requires UniqueNames(list)
    ensures UniqueNames(Without(list, others)) && Disjoint(Without(list, others), others)
    ensures forall i :: 0 <= i < |Without(list, others)| ==> Without(list, others)[i] in list
  {
    if list != [] {
      WithoutUnique(list[1..], others);
    }
  }

  lemma Insert<K, V>(m: map<K, V>, kept: map<K, V>, k: K, v: V)
    ensures k in kept ==> m + kept == m + map[k := v] + kept
    ensures k !in kept ==> m + (kept + map[k := v]) == m + map[k := v] + kept
  {
  }

  lemma Overwrite<K, V>(m: map<K, V>, n: map<K, V>)
    ensures (m - n.Keys) + n == m + n
    ensures m + (n - m.Keys) == n + m
  {
  }

  /** unique keeps, of each name, the last cookie of the batch. */
  lemma {:induction false} UniqueMeans(cookies: seq<Cookie>, kept: seq<Cookie>)
    requires UniqueNames(kept)
    ensures UniqueNames(Unique(cookies, kept))
    ensures AsMap(Unique(cookies, kept)) == AsMap(cookies) + AsMap(kept)
    decreases |cookies|
  {
    if cookies != [] {
      var last, rest := cookies[|cookies| - 1], cookies[..|cookies| - 1];
      var kept' := if HasName(kept, last.name) then kept else kept + [last];
      UniqueMeans(rest, kept');
      assert cookies == rest + [last];
      AsMapAppend(rest, [last]);
      AsMapAppend(kept, [last]);
      AsMapOne(last);
      AsMapKeys(kept, last.name);
      Insert(AsMap(rest), AsMap(kept), last.name, last);
    }
  }

  lemma {:induction false} NonEmptyAppend(a: seq<Cookie>, b: seq<Cookie>, allowEmpty: bool)
    ensures NonEmpty(a + b, allowEmpty) == NonEmpty(a, allowEmpty) + NonEmpty(b, allowEmpty)
  {
    if !allowEmpty {
      if a == [] {
        assert a + b == b;
      } else {
        NonEmptyAppend(a[1..], b, false);
        assert (a + b)[1..] == a[1..] + b;
      }
    }
  }

  lemma OverwriteMeans(existing: seq<Cookie>, incoming: seq<Cookie>)
    requires UniqueNames(existing) && UniqueNames(incoming)
    ensures UniqueNames(Without(existing, incoming) + incoming)
    ensures AsMap(Without(existing, incoming) + incoming) == AsMap(existing) + AsMap(incoming)
  {
    WithoutUnique(existing, incoming);
    WithoutMap(existing, incoming);
    AsMapAppend(Without(existing, incoming), incoming);
    Overwrite(AsMap(existing), AsMap(incoming));
  }

  lemma SkipMeans(existing: seq<Cookie>, incoming: seq<Cookie>)
    requires UniqueNames(existing) && UniqueNames(incoming)
    ensures UniqueNames(existing + Without(incoming, existing))
    ensures AsMap(existing + Without(incoming, existing)) == AsMap(incoming) + AsMap(existing)
  {
    WithoutUnique(incoming, existing);
    WithoutMap(incoming, existing);
    AsMapAppend(existing, Without(incoming, existing));
    Overwrite(AsMap(existing), AsMap(incoming));
  }

  /**
  What one call means for its host key: names stay unique, and as a map the list is the old one overwritten by the
  batch, or the batch overwritten by the old one when existing cookies are skipped.
  */
  lemma UpdateMeans(existing: seq<Cookie>, batch: seq<Cookie>, skipExisting: bool, allowEmpty: bool)
    requires UniqueNames(existing)
    ensures var list := Update(existing, batch, skipExisting, allowEmpty);
            && UniqueNames(list)
            && AsMap(list) == (if skipExisting then AsMap(NonEmpty(batch, allowEmpty)) + AsMap(existing)
                               else AsMap(existing) + AsMap(NonEmpty(batch, allowEmpty)))
  {
    var accepted := NonEmpty(batch, allowEmpty);
    var incoming := Unique(accepted, []);
    UniqueMeans(accepted, []);
    assert AsMap(accepted) + AsMap([]) == AsMap(accepted);
    SkipMeans(existing, incoming);
    OverwriteMeans(existing, incoming);
  }

  /** A cookie of the batch that is not filtered out, and is the last of its name. */
  ghost predicate IsAccepted(batch: seq<Cookie>, c: Cookie, allowEmpty: bool) {
    exists i :: 0 <= i < |batch| && batch[i] == c && (allowEmpty || c.value != "")
                && forall j :: i < j < |batch| && batch[j].name == c.name ==> !allowEmpty && batch[j].value == ""
  }

  lemma {:induction false} AcceptedInMap(batch: seq<Cookie>, c: Cookie, allowEmpty: bool)
    requires IsAccepted(batch, c, allowEmpty)
    ensures c.name in AsMap(NonEmpty(batch, allowEmpty)) && AsMap(NonEmpty(batch, allowEmpty))[c.name] == c
  {
    var i :| 0 <= i < |batch| && batch[i] == c && (allowEmpty || c.value != "")
             && forall j :: i < j < |batch| && batch[j].name == c.name ==> !allowEmpty && batch[j].value == "";
    var n := |batch| - 1;
    var rest, last := batch[..n], batch[n];
    assert batch == rest + [last];
    NonEmptyKeeps(rest, last, allowEmpty);
    var tail := if allowEmpty || last.value != "" then [last] else [];
    AsMapAppend(NonEmpty(rest, allowEmpty), tail);
    AsMapOne(last);
    if i < n {
      assert rest[i] == c;
      AcceptedInMap(rest, c, allowEmpty);
    }
  }

  lemma {:induction false} MapIsInList(list: seq<Cookie>, name: string)
    requires name in AsMap(list)
    ensures AsMap(list)[name] in list
  {
    if name in AsMap(list[1..]) {
      MapIsInList(list[1..], name);
    }
  }

  /** What a host with the same key is promised of a batch: no negative max age, and new if existing ones are kept. */
  ghost predicate IsPromised(before: seq<Cookie>, batch: seq<Cookie>, c: Cookie, skipExisting: bool, allowEmpty: bool) {
    IsAccepted(batch, c, allowEmpty) && c.maxAge >= 0 && (skipExisting ==> !HasName(before, c.name))
  }

  lemma AcceptedIsStored(existing: seq<Cookie>, batch: seq<Cookie>, c: Cookie, skipExisting: bool, allowEmpty: bool)
    requires UniqueNames(existing) && IsAccepted(batch, c, allowEmpty) && (skipExisting ==> !HasName(existing, c.name))
    ensures c in Update(existing, batch, skipExisting, allowEmpty)
  {
    UpdateMeans(existing, batch, skipExisting, allowEmpty);
    AcceptedInMap(batch, c, allowEmpty);
    AsMapKeys(existing, c.name);
    MapIsInList(Update(existing, batch, skipExisting, allowEmpty), c.name);
  }

  lemma PromisesAreKept(before: seq<Cookie>, batch: seq<Cookie>, skipExisting: bool, allowEmpty: bool)
    requires UniqueNames(before)
    ensures forall c :: IsPromised(before, batch, c, skipExisting, allowEmpty) ==>
              c in NotExpired(Update(before, batch, skipExisting, allowEmpty))
  {
    forall c | IsPromised(before, batch, c, skipExisting, allowEmpty)
      ensures c in NotExpired(Update(before, batch, skipExisting, allowEmpty))
    {
      AcceptedIsStored(before, batch, c, skipExisting, allowEmpty);
      InNotExpired(Update(before, batch, skipExisting, allowEmpty), c);
    }
  }

  // ----- Runs

  /** One call of SetCookies: the host key of its URL and the cookies. */
  datatype Call = Call(key: string, batch: seq<Cookie>)

  /** The jar's lists after a sequence of calls. */
  function Play(calls: seq<Call>, skipExisting: bool, allowEmpty: bool): map<string, seq<Cookie>> {
    if calls == [] then map[]
    else SetSpec(Play(calls[..|calls| - 1], skipExisting, allowEmpty), calls[|calls| - 1], skipExisting, allowEmpty)
  }

  function SetSpec(lists: map<string, seq<Cookie>>, call: Call, skipExisting: bool, allowEmpty: bool)
      : map<string, seq<Cookie>>
  {
    lists[call.key := Update(ListFor(lists, call.key), call.batch, skipExisting, allowEmpty)]
  }

  /** All cookies ever accepted for a host key, in the order they came. */
  function Accepted(calls: seq<Call>, key: string, allowEmpty: bool): seq<Cookie> {
    if calls == [] then []
    else
      var last := calls[|calls| - 1];
      Accepted(calls[..|calls| - 1], key, allowEmpty)
      + (if last.key == key then NonEmpty(last.batch, allowEmpty) else [])
  }

  /** The cookie of that name from the first batch for the host key that had one. */
  function FirstBatch(calls: seq<Call>, key: string, name: string, allowEmpty: bool): Option<Cookie> {
    if calls == [] then None
    else
      var batch := AsMap(NonEmpty(calls[0].batch, allowEmpty));
      if calls[0].key == key && name in batch then Some(batch[name])
      else FirstBatch(calls[1..], key, name, allowEmpty)
  }

  /** Overwrite mode: names are unique and the list is last-write-wins over everything accepted for the host key. */
  lemma {:induction false} LastWriteWins(calls: seq<Call>, key: string, allowEmpty: bool)
    ensures var list := ListFor(Play(calls, false, allowEmpty), key);
            UniqueNames(list) && AsMap(list) == AsMap(Accepted(calls, key, allowEmpty))
  {
    if calls != [] {
      var before, last := calls[..|calls| - 1], calls[|calls| - 1];
      LastWriteWins(before, key, allowEmpty);
      if last.key == key {
        UpdateMeans(ListFor(Play(before, false, allowEmpty), key), last.batch, false, allowEmpty);
        AsMapAppend(Accepted(before, key, allowEmpty), NonEmpty(last.batch, allowEmpty));
      } else {
        OtherKeysUntouched(Play(before, false, allowEmpty), last, false, allowEmpty, key);
        assert Accepted(calls, key, allowEmpty) == Accepted(before, key, allowEmpty);
      }
    }
  }

  lemma {:induction false} FirstBatchAppend(calls: seq<Call>, last: Call, key: string, name: string, allowEmpty: bool)
    ensures FirstBatch(calls + [last], key, name, allowEmpty) ==
            if FirstBatch(calls, key, name, allowEmpty).Some? then FirstBatch(calls, key, name, allowEmpty)
            else FirstBatch([last], key, name, allowEmpty)
  {
    if calls == [] {
      assert calls + [last] == [last];
    } else {
      FirstBatchAppend(calls[1..], last, key, name, allowEmpty);
      assert (calls + [last])[1..] == calls[1..] + [last];
    }
  }

  /** Skip-existing mode: names are unique and each keeps the cookie of the first accepted batch that had it. */
  lemma {:induction false} FirstBatchWins(calls: seq<Call>, key: string, name: string, allowEmpty: bool)
    ensures var list := ListFor(Play(calls, true, allowEmpty), key);
            && UniqueNames(list)
            && FirstBatch(calls, key, name, allowEmpty) ==
               (if name in AsMap(list) then Some(AsMap(list)[name]) else None)
  {
    if calls != [] {
      var before, last := calls[..|calls| - 1], calls[|calls| - 1];
      FirstBatchWins(before, key, name, allowEmpty);
      UpdateMeans(ListFor(Play(before, true, allowEmpty), key), last.batch, true, allowEmpty);
      FirstBatchAppend(before, last, key, name, allowEmpty);
      assert calls == before + [last] && [last][1..] == [];
    }
  }

  lemma NamesStayUnique(calls: seq<Call>, key: string, skipExisting: bool, allowEmpty: bool)
    ensures UniqueNames(ListFor(Play(calls, skipExisting, allowEmpty), key))
  {
    LastWriteWins(calls, key, allowEmpty);
    FirstBatchWins(calls, key, "", allowEmpty);
  }

  /** A call leaves the lists of all other host keys alone. */
  lemma OtherKeysUntouched(lists: map<string, seq<Cookie>>, call: Call, skipExisting: bool, allowEmpty: bool,
                           key: string)
    requires key != call.key
    ensures ListFor(SetSpec(lists, call, skipExisting, allowEmpty), key) == ListFor(lists, key)
  {
  }

  lemma AcceptedOneMore(calls: seq<Call>, last: Call, key: string, allowEmpty: bool)
    ensures Accepted(calls + [last], key, allowEmpty) ==
            Accepted(calls, key, allowEmpty) + (if last.key == key then NonEmpty(last.batch, allowEmpty) else [])
  {
    assert (calls + [last])[..|calls|] == calls;
  }

  /** Overwrite mode: setting a batch at once or split in two gives the same map. */
  lemma BatchesCompose(calls: seq<Call>, at: string, a: seq<Cookie>, b: seq<Cookie>, key: string, allowEmpty: bool)
    ensures AsMap(ListFor(Play(calls + [Call(at, a + b)], false, allowEmpty), key))
            == AsMap(ListFor(Play(calls + [Call(at, a)] + [Call(at, b)], false, allowEmpty), key))
  {
    LastWriteWins(calls + [Call(at, a + b)], key, allowEmpty);
    LastWriteWins(calls + [Call(at, a)] + [Call(at, b)], key, allowEmpty);
    AcceptedOneMore(calls, Call(at, a + b), key, allowEmpty);
    AcceptedOneMore(calls, Call(at, a), key, allowEmpty);
    AcceptedOneMore(calls + [Call(at, a)], Call(at, b), key, allowEmpty);
    NonEmptyAppend(a, b, allowEmpty);
    ConcatAssociates(Accepted(calls, key, allowEmpty), NonEmpty(a, allowEmpty), NonEmpty(b, allowEmpty));
    assert Accepted(calls, key, allowEmpty) + [] == Accepted(calls, key, allowEmpty);
  }

  /** Skip-existing mode: a stored list stays a prefix of every later one, so an entry once stored never changes. */
  lemma {:induction false} ListsOnlyGrow(calls: seq<Call>, n: nat, key: string, allowEmpty: bool)
    requires n <= |calls|
    ensures ListFor(Play(calls[..n], true, allowEmpty), key) <= ListFor(Play(calls, true, allowEmpty), key)
    decreases |calls|
  {
    if n == |calls| {
      assert calls[..n] == calls;
    } else {
      var before := calls[..|calls| - 1];
      ListsOnlyGrow(before, n, key, allowEmpty);
      assert before[..n] == calls[..n];
    }
  }
}
