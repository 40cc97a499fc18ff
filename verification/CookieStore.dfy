/** The jar itself: SetCookies, Cookies and GetAllCookies over Go slices that may share their backing arrays. */
module CookieStore {
  import opened Common
  import opened CookieJar

  // ----- Go slices

  /** A slice that starts at the beginning of its backing array; its capacity is the array's length. */
  datatype Slice = NilSlice | Slice(arr: array<Cookie>, len: nat)

  predicate SliceOk(s: Slice) {
    s.Slice? ==> s.len <= s.arr.Length
  }

  function Storage(s: Slice): set<object> {
    if s.Slice? then {s.arr} else {}
  }

  ghost function Contents(s: Slice): seq<Cookie>
    requires SliceOk(s)
    reads Storage(s)
  {
    if s.Slice? then s.arr[..s.len] else []
  }

  method CopyInto(arr: array<Cookie>, from: nat, xs: seq<Cookie>)
    requires from + |xs| <= arr.Length
    modifies arr
    ensures arr[..from] == old(arr[..from]) && arr[from..from + |xs|] == xs
    ensures arr[..from + |xs|] == old(arr[..from]) + xs
  {
    for i := 0 to |xs|
      invariant arr[..from] == old(arr[..from]) && arr[from..from + i] == xs[..i]
    {
      arr[from + i] := xs[i];
    }
    assert arr[..from + |xs|] == arr[..from] + arr[from..from + |xs|];
  }

  /**
  append: writes into the spare capacity when it suffices, and moves to a larger array otherwise (spare says how much
  larger). The elements the slice already had stay what they were.
  */
  method Append(s: Slice, xs: seq<Cookie>, spare: nat) returns (r: Slice)
    requires SliceOk(s)
    modifies Storage(s)
    ensures SliceOk(r) && Contents(r) == old(Contents(s)) + xs && Contents(s) == old(Contents(s))
    ensures r == s || (r.Slice? && fresh(r.arr)) || (r.Slice? && s.Slice? && r.arr == s.arr && r.len >= s.len)
  {
    if |xs| == 0 {
      return s;
    }
    if s.Slice? && s.len + |xs| <= s.arr.Length {
      CopyInto(s.arr, s.len, xs);
      r := Slice(s.arr, s.len + |xs|);
    } else {
      var was := if s.Slice? then s.arr[..s.len] else [];
      var arr := new Cookie[|was| + |xs| + spare];
      CopyInto(arr, 0, was);
      assert arr[..|was|] == was;
      CopyInto(arr, |was|, xs);
      r := Slice(arr, |was| + |xs|);
    }
  }

  // ----- The loops of SetCookies

  method InSlice(names: seq<string>, name: string) returns (found: bool)
    ensures found <==> name in names
  {
    for i := 0 to |names|
      invariant name !in names[..i]
    {
      if names[i] == name {
        return true;
      }
    }
    assert names[..|names|] == names;
    found := false;
  }

  method FilterNonEmpty(cookies: seq<Cookie>, allowEmpty: bool) returns (filtered: seq<Cookie>)
    ensures filtered == NonEmpty(cookies, allowEmpty)
  {
    if allowEmpty {
      return cookies;
    }
    filtered := [];
    for i := 0 to |cookies|
      invariant filtered + NonEmpty(cookies[i..], false) == NonEmpty(cookies, false)
    {
      assert cookies[i..][1..] == cookies[i + 1..];
      if cookies[i].value != "" {
        filtered := filtered + [cookies[i]];
      }
    }
    assert cookies[|cookies|..] == [];
  }

  method FilterUnique(cookies: seq<Cookie>) returns (filtered: seq<Cookie>)
    ensures filtered == Unique(cookies, [])
  {
    filtered := [];
    var names: seq<string> := [];
    var i := |cookies| - 1;
    assert cookies[..i + 1] == cookies;
    while i >= 0
      invariant -1 <= i < |cookies|
      invariant |names| == |filtered| && forall k :: 0 <= k < |names| ==> names[k] == filtered[k].name
      invariant Unique(cookies[..i + 1], filtered) == Unique(cookies, [])
    {
      var c := cookies[i];
      var seen := InSlice(names, c.name);
      assert seen <==> HasName(filtered, c.name);
      assert cookies[..i + 1][..i] == cookies[..i];
      if !seen {
        filtered, names := filtered + [c], names + [c.name];
      }
      i := i - 1;
    }
  }

  /** The inner loop of both modes. */
  method NameOccurs(list: seq<Cookie>, name: string) returns (found: bool)
    ensures found <==> HasName(list, name)
  {
    found := false;
    for i := 0 to |list|
      invariant !found && forall k :: 0 <= k < i ==> list[k].name != name
    {
      found := list[i].name == name;
      if found {
        break;
      }
    }
  }

  /** The outer loop of both modes: the cookies of list whose name does not occur in others. */
  method FilterWithout(list: seq<Cookie>, others: seq<Cookie>) returns (filtered: seq<Cookie>)
    ensures filtered == Without(list, others)
  {
    filtered := [];
    for i := 0 to |list|
      invariant filtered + Without(list[i..], others) == Without(list, others)
    {
      var found := NameOccurs(others, list[i].name);
      assert list[i..][1..] == list[i + 1..];
      if !found {
        filtered := filtered + [list[i]];
      }
    }
    assert list[|list|..] == [];
  }

  method FilterNotExpired(all: seq<Cookie>) returns (list: seq<Cookie>)
    ensures list == NotExpired(all)
  {
    list := [];
    for i := 0 to |all|
      invariant list + NotExpired(all[i..]) == NotExpired(all)
    {
      assert all[i..][1..] == all[i + 1..];
      if all[i].maxAge >= 0 {
        list := list + [all[i]];
      }
    }
    assert all[|all|..] == [];
  }

  // ----- The jar

  class Jar {
    const skipExisting: bool
    const allowEmptyCookies: bool
    var allCookies: map<string, Slice>
    /** Every slice the jar has ever stored; GetAllCookies hands out none but these. */
    ghost var issued: set<Slice>

    /**
    A stored slice is the longest of all slices ever issued on its backing array, and no two host keys share an array.
    */
    ghost predicate Valid()
      reads this
    {
      && (forall s :: s in issued ==> SliceOk(s))
      && (forall k :: k in allCookies ==> allCookies[k] in issued)
      && (forall k, s :: k in allCookies && s in issued && s.Slice? && allCookies[k].Slice? ==>
            s.arr == allCookies[k].arr ==> s.len <= allCookies[k].len)
      && (forall k, k' :: k in allCookies && k' in allCookies && k != k' && allCookies[k].Slice? ==>
            allCookies[k'].Slice? ==> allCookies[k].arr != allCookies[k'].arr)
    }

    ghost function Arrays(): set<object>
      reads this
    {
      set s | s in issued && s.Slice? :: s.arr
    }

    ghost function Lists(): map<string, seq<Cookie>>
      requires Valid()
      reads this, Arrays()
    {
      map k | k in allCookies :: Contents(allCookies[k])
    }

    constructor (skipExisting: bool, allowEmptyCookies: bool)
      ensures Valid() && Lists() == map[] && issued == {}
      ensures this.skipExisting == skipExisting && this.allowEmptyCookies == allowEmptyCookies
    {
      this.skipExisting, this.allowEmptyCookies := skipExisting, allowEmptyCookies;
      allCookies, issued := map[], {};
    }

    /** The list that SetCookies stores, in new storage or appended to the existing slice. */
    method NewList(existing: Slice, cookies: seq<Cookie>, spare: nat) returns (updated: Slice)
      requires SliceOk(existing)
      modifies Storage(existing)
      ensures SliceOk(updated) && Contents(existing) == old(Contents(existing))
      ensures Contents(updated) == Update(old(Contents(existing)), cookies, skipExisting, allowEmptyCookies)
      ensures updated == existing || updated.NilSlice? || fresh(updated.arr)
              || (existing.Slice? && updated.arr == existing.arr && updated.len >= existing.len)
    {
      var notEmpty := FilterNonEmpty(cookies, allowEmptyCookies);
      var incoming := FilterUnique(notEmpty);
      var list := if existing.Slice? then existing.arr[..existing.len] else [];
      if !skipExisting {
        var remaining := FilterWithout(list, incoming);
        updated := Append(NilSlice, remaining + incoming, spare);
      } else {
        var added := FilterWithout(incoming, list);
        updated := Append(existing, added, spare);
      }
    }

    /** A slice that may be stored under key: on its array it is the longest, and no other key uses the array. */
    ghost predicate Storable(key: string, updated: Slice)
      reads this
    {
      && SliceOk(updated)
      && (forall s :: s in issued && s.Slice? && updated.Slice? && s.arr == updated.arr ==> s.len <= updated.len)
      && (forall k :: k in allCookies && k != key && allCookies[k].Slice? && updated.Slice? ==>
            allCookies[k].arr != updated.arr)
    }

    ghost function Existing(key: string): Slice
      reads this
    {
      if key in allCookies then allCookies[key] else NilSlice
    }

    /** Computing the new list changes none of the slices ever issued. */
    method Renew(key: string, cookies: seq<Cookie>, spare: nat) returns (updated: Slice)
      requires Valid()
      modifies Arrays()
      ensures Valid() && Storable(key, updated) && (updated.Slice? ==> updated.arr in Arrays() || fresh(updated.arr))
      ensures forall s :: s in issued ==> Contents(s) == old(Contents(s))
      ensures SliceOk(Existing(key))
      ensures Contents(updated) == Update(old(Contents(Existing(key))), cookies, skipExisting, allowEmptyCookies)
    {
      var existing := if key in allCookies then allCookies[key] else NilSlice;
      updated := NewList(existing, cookies, spare);
      forall s | s in issued
        ensures Contents(s) == old(Contents(s))
      {
        if s.Slice? && existing.Slice? && s.arr == existing.arr {
          assert s.arr[..s.len] == existing.arr[..existing.len][..s.len];
          assert old(s.arr[..s.len]) == old(existing.arr[..existing.len])[..s.len];
        }
      }
    }

    method Store(key: string, updated: Slice)
      requires Valid() && Storable(key, updated)
      modifies this
      ensures Valid() && issued == old(issued) + {updated} && allCookies == old(allCookies)[key := updated]
    {
      allCookies := allCookies[key := updated];
      issued := issued + {updated};
    }

    method StoreList(key: string, updated: Slice)
      requires Valid() && Storable(key, updated)
      modifies this
      ensures Valid() && issued == old(issued) + {updated}
      ensures Lists() == old(Lists())[key := Contents(updated)]
    {
      Store(key, updated);
    }

    /**
    SetCookies: the lists become what the specification says, and no slice ever handed out changes, although the new
    list may have been written into the array of an old one.
    */
    method SetCookies(host: string, cookies: seq<Cookie>, spare: nat)
      requires Valid()
      modifies this, Arrays()
      ensures Valid() && old(issued) <= issued && fresh(Arrays() - old(Arrays()))
      ensures forall s :: s in old(issued) ==> Contents(s) == old(Contents(s))
      ensures Lists() == SetSpec(old(Lists()), Call(HostKey(host), cookies), skipExisting, allowEmptyCookies)
    {
      var updated := Renew(HostKey(host), cookies, spare);
      assert Lists() == old(Lists());
      assert ListFor(old(Lists()), HostKey(host)) == old(Contents(Existing(HostKey(host))));
      StoreList(HostKey(host), updated);
    }

    /** Cookies: the stored list without expired cookies. */
    method Cookies(host: string) returns (list: seq<Cookie>)
      requires Valid()
      ensures list == NotExpired(ListFor(Lists(), HostKey(host)))
    {
      var key := HostKey(host);
      var all := if key in allCookies && allCookies[key].Slice? then allCookies[key].arr[..allCookies[key].len] else [];
      list := FilterNotExpired(all);
    }

    /** GetAllCookies: the map is copied, the slices in it are the stored ones. */
    method GetAllCookies() returns (copied: map<string, Slice>)
      requires Valid()
      ensures copied == allCookies
      ensures forall k :: k in copied ==> copied[k] in issued && Contents(copied[k]) == Lists()[k]
    {
      copied := map[];
      var keys := allCookies.Keys;
      while keys != {}
        invariant keys <= allCookies.Keys
        invariant copied.Keys == allCookies.Keys - keys && forall k :: k in copied ==> copied[k] == allCookies[k]
        decreases |keys|
      {
        var k :| k in keys;
        copied := copied[k := allCookies[k]];
        keys := keys - {k};
      }
    }
  }

  /** The calls made for a sequence of hosts and batches. */
  function Calls(urls: seq<(string, seq<Cookie>)>): seq<Call> {
    if urls == [] then []
    else Calls(urls[..|urls| - 1]) + [Call(HostKey(urls[|urls| - 1].0), urls[|urls| - 1].1)]
  }

  /** One more call: the lists follow the specification and the snapshot stays. */
  method OneMore(jar: Jar, host: string, cookies: seq<Cookie>, spare: nat,
                 ghost past: seq<Call>, ghost kept: set<Slice>)
    requires jar.Valid() && jar.Lists() == Play(past, jar.skipExisting, jar.allowEmptyCookies) && kept <= jar.issued
    modifies jar, jar.Arrays()
    ensures jar.Valid() && kept <= jar.issued && fresh(jar.Arrays() - old(jar.Arrays()))
    ensures jar.Lists() == Play(past + [Call(HostKey(host), cookies)], jar.skipExisting, jar.allowEmptyCookies)
    ensures forall s :: s in kept ==> SliceOk(s) && Contents(s) == old(Contents(s))
  {
    jar.SetCookies(host, cookies, spare);
    PlayAppend(past, Call(HostKey(host), cookies), jar.skipExisting, jar.allowEmptyCookies);
  }

  lemma PlayAppend(calls: seq<Call>, last: Call, skipExisting: bool, allowEmpty: bool)
    ensures Play(calls + [last], skipExisting, allowEmpty)
            == SetSpec(Play(calls, skipExisting, allowEmpty), last, skipExisting, allowEmpty)
  {
    assert (calls + [last])[..|calls|] == calls;
  }

  lemma CallsOneMore(past: seq<Call>, urls: seq<(string, seq<Cookie>)>, i: nat)
    requires i < |urls|
    ensures past + Calls(urls[..i + 1]) == past + Calls(urls[..i]) + [Call(HostKey(urls[i].0), urls[i].1)]
  {
    assert urls[..i + 1][..i] == urls[..i];
  }

  /**
  Any number of calls after any past, whatever spare room each append leaves: the jar's lists are those of the
  specification, and every slice handed out before, such as those in a snapshot taken by GetAllCookies, still has the
  same cookies.
  */
  method SnapshotsSurvive(jar: Jar, urls: seq<(string, seq<Cookie>)>, spare: nat -> nat, ghost past: seq<Call>)
    requires jar.Valid() && jar.Lists() == Play(past, jar.skipExisting, jar.allowEmptyCookies)
    modifies jar, jar.Arrays()
    ensures jar.Valid() && jar.Lists() == Play(past + Calls(urls), jar.skipExisting, jar.allowEmptyCookies)
    ensures forall s :: s in old(jar.issued) ==> SliceOk(s) && Contents(s) == old(Contents(s))
  {
    ghost var kept := jar.issued;
    assert past + Calls(urls[..0]) == past;
    for i := 0 to |urls|
      invariant jar.Valid() && kept <= jar.issued && fresh(jar.Arrays() - old(jar.Arrays()))
      invariant jar.Lists() == Play(past + Calls(urls[..i]), jar.skipExisting, jar.allowEmptyCookies)
      invariant forall s :: s in kept ==> Contents(s) == old(Contents(s))
    {
      CallsOneMore(past, urls, i);
      OneMore(jar, urls[i].0, urls[i].1, spare(i), past + Calls(urls[..i]), kept);
    }
    assert urls[..|urls|] == urls;
  }

  /**
  A batch set for one host and asked for at another. Hosts with different keys do not see it. Hosts with the same key
  do: in overwrite mode every cookie of the batch that was accepted, was the last of its name and is not expired is
  returned, and in skip-existing mode every such cookie whose name was new.
  */
  method SetAndAsk(jar: Jar, host: string, asked: string, batch: seq<Cookie>, spare: nat, ghost past: seq<Call>)
      returns (list: seq<Cookie>)
    requires jar.Valid() && jar.Lists() == Play(past, jar.skipExisting, jar.allowEmptyCookies)
    modifies jar, jar.Arrays()
    ensures HostKey(asked) != HostKey(host) ==> list == NotExpired(ListFor(old(jar.Lists()), HostKey(asked)))
    ensures HostKey(asked) == HostKey(host) ==>
              var before := ListFor(old(jar.Lists()), HostKey(host));
              forall c :: IsPromised(before, batch, c, jar.skipExisting, jar.allowEmptyCookies) ==> c in list
  {
    ghost var before := ListFor(jar.Lists(), HostKey(host));
    NamesStayUnique(past, HostKey(host), jar.skipExisting, jar.allowEmptyCookies);
    jar.SetCookies(host, batch, spare);
    list := jar.Cookies(asked);
    if HostKey(asked) == HostKey(host) {
      PromisesAreKept(before, batch, jar.skipExisting, jar.allowEmptyCookies);
    }
  }

  /** A batch set for a.b.c is returned for b.c, and for every x.b.c. */
  method SetAndAskInDomain(jar: Jar, a: string, x: Option<string>, b: string, c: string, batch: seq<Cookie>, spare: nat,
                           ghost past: seq<Call>)
      returns (list: seq<Cookie>)
    requires jar.Valid() && jar.Lists() == Play(past, jar.skipExisting, jar.allowEmptyCookies)
    requires '.' !in a && '.' !in b && '.' !in c && (x.Some? ==> '.' !in x.value)
    modifies jar, jar.Arrays()
    ensures var before := ListFor(old(jar.Lists()), b + "." + c);
            forall k :: IsPromised(before, batch, k, jar.skipExisting, jar.allowEmptyCookies) ==> k in list
  {
    var domain := b + "." + c;
    var asked := if x.Some? then x.value + "." + domain else domain;
    DomainKey(a, b, c);
    DomainKey(if x.Some? then x.value else "", b, c);
    list := SetAndAsk(jar, a + "." + domain, asked, batch, spare, past);
  }
}
