/** The HTTP/3 SETTINGS of a transport: utils.go's GREASE entry and the two paths of roundtripper.go and racer.go. */
module Http3Settings {
  import opened Common

  type Settings = map<nat, nat>

  // ----- GREASE

  /** One use of the random source: a number below nine billion, and four bytes. */
  datatype Draw = Draw(n: nat, bytes: Bytes)

  const SPREAD := 9_000_000_000
  const LEAST := 1_000_000_000

  predicate IsDraw(d: Draw) {
    d.n < SPREAD && |d.bytes| == 4
  }

  /** generateGREASESettingID. */
  function GreaseId(d: Draw): nat {
    0x1f * (LEAST + d.n) + 0x21
  }

  function Uint32(b: Bytes): nat
    requires |b| == 4
  {
    Uint16(Uint16(Uint16(b[0], b[1]), b[2]), b[3])
  }

  /** generateGREASESettingValue. */
  function GreaseValue(d: Draw): nat
    requires IsDraw(d)
  {
    if Uint32(d.bytes) == 0 then 1 else Uint32(d.bytes)
  }

  /** The identifiers that section 7.2.4.1 of RFC 9114 reserves, within a variable-length integer. */
  ghost predicate IsReserved(id: nat) {
    id < 0x4000_0000_0000_0000 && exists n: nat :: id == 0x1f * n + 0x21
  }

  /** The identifiers that the generator can produce. */
  ghost predicate IsDrawable(id: nat) {
    exists d :: IsDraw(d) && GreaseId(d) == id
  }

  lemma GreaseIsReserved(d: Draw)
    requires IsDraw(d)
    ensures IsReserved(GreaseId(d)) && 31_000_000_033 <= GreaseId(d)
    ensures 0 < GreaseValue(d) < 0x1_0000_0000
  {
    assert GreaseId(d) == 0x1f * (LEAST + d.n) + 0x21;
  }

  // ----- What a build sends

  datatype Sent = Sent(settings: Settings, order: seq<nat>)

  /** buildHTTP3Transport: with a priority parameter one GREASE entry is added, last in a given order. */
  function Built(settings: Settings, order: seq<nat>, priority: nat, d: Draw): Sent
    requires IsDraw(d)
  {
    if priority == 0 then Sent(settings, order)
    else Sent(settings[GreaseId(d) := GreaseValue(d)], if order == [] then [] else order + [GreaseId(d)])
  }

  function Restrict(settings: Settings, ids: seq<nat>): Settings {
    map id | id in settings && id in ids :: settings[id]
  }

  /** getHttp3Settings: with an order, only what the order lists. */
  function Selected(settings: Settings, order: seq<nat>): Settings {
    if order == [] then settings else Restrict(settings, order)
  }

  /**
  With ids below 31 * 10^9 + 33, a build with a priority parameter sends the configured map and one more entry, whose
  id is reserved and whose value is not zero, and which comes last, and only there, in an order.
  */
  lemma BuildAddsOneReserved(settings: Settings, order: seq<nat>, priority: nat, d: Draw)
    requires IsDraw(d) && priority > 0
    requires forall id :: id in settings ==> id < 31_000_000_033
    requires forall i :: 0 <= i < |order| ==> order[i] < 31_000_000_033
    ensures var b, g := Built(settings, order, priority, d), GreaseId(d);
            && b.settings - {g} == settings && b.settings.Keys == settings.Keys + {g} && |b.settings| == |settings| + 1
            && IsReserved(g) && b.settings[g] != 0
            && (order == [] ==> b.order == [])
            && (order != [] ==> b.order == order + [g] && g !in order)
  {
    GreaseIsReserved(d);
    var b, g := Built(settings, order, priority, d), GreaseId(d);
    assert b.settings - {g} == settings;
    assert b.settings.Keys == settings.Keys + {g};
    assert |b.settings.Keys| == |settings.Keys| + 1;
  }

  /** Without a priority parameter, settings and order are sent as they are. */
  lemma BuildWithoutPriority(settings: Settings, order: seq<nat>, d: Draw)
    requires IsDraw(d)
    ensures Built(settings, order, 0, d).settings == settings && Built(settings, order, 0, d).order == order
  {
  }

  /** With one, the entry that is added is the drawn one: id and value come from the random source. */
  lemma BuildSendsTheDraw(settings: Settings, order: seq<nat>, priority: nat, d: Draw, value: nat)
    requires IsDraw(d) && priority > 0
    requires value == 16777216 * (d.bytes[0] as int) + 65536 * (d.bytes[1] as int) + 256 * (d.bytes[2] as int)
                      + d.bytes[3]
    ensures var b, g := Built(settings, order, priority, d), 31 * (1_000_000_000 + d.n) + 33;
            && b.settings == settings[g := if value == 0 then 1 else value]
            && b.order == if order == [] then [] else order + [g]
  {
  }

  /** What the direct path selects: everything without an order, and what is listed with one, as configured. */
  lemma SelectedMeans(settings: Settings, order: seq<nat>, id: nat)
    ensures id in Selected(settings, order) <==> id in settings && (order == [] || id in order)
    ensures id in Selected(settings, order) ==> Selected(settings, order)[id] == settings[id]
  {
  }

  /** Whether every configured entry is sent with its configured value. */
  ghost predicate Survive(settings: Settings, sent: Sent) {
    forall id :: id in settings ==> id in sent.settings && sent.settings[id] == settings[id]
  }

  /** Whatever is drawn, configured entries are sent as configured exactly if none has an id that can be drawn. */
  lemma SurviveExactlyWhen(settings: Settings, order: seq<nat>, priority: nat)
    requires priority > 0
    ensures (forall d :: IsDraw(d) ==> Survive(settings, Built(settings, order, priority, d)))
            <==> forall id :: id in settings ==> !IsDrawable(id)
  {
    forall id | id in settings && IsDrawable(id)
      ensures exists d :: IsDraw(d) && !Survive(settings, Built(settings, order, priority, d))
    {
      var d :| IsDraw(d) && GreaseId(d) == id;
      var one, two := d.(bytes := [0, 0, 0, 1]), d.(bytes := [0, 0, 0, 2]);
      assert GreaseValue(one) == 1 && GreaseValue(two) == 2;
      assert !Survive(settings, Built(settings, order, priority, if settings[id] == 1 then two else one));
    }
  }

  /** Ids below the bound cannot be drawn. */
  lemma DrawableIsLarge(id: nat)
    ensures IsDrawable(id) <==> id >= 31_000_000_033 && id < 310_000_000_033 && (id - 0x21) % 0x1f == 0
  {
    if id >= 31_000_000_033 && id < 310_000_000_033 && (id - 0x21) % 0x1f == 0 {
      var n := (id - 0x21) / 0x1f;
      assert GreaseId(Draw(n - LEAST, [0, 0, 0, 0])) == id;
    }
  }

  // ----- The two paths

  /** What two builds send alike: everything but the GREASE entries. */
  ghost predicate SameButGrease(a: Sent, b: Sent, priority: nat, d: Draw, d': Draw) {
    if priority == 0 then a == b
    else
      && a.settings - {GreaseId(d), GreaseId(d')} == b.settings - {GreaseId(d), GreaseId(d')}
      && |a.order| == |b.order| && (|a.order| > 0 ==> a.order[..|a.order| - 1] == b.order[..|b.order| - 1])
  }

  /** Selecting by an order loses nothing exactly if the order is empty or lists every configured id. */
  lemma SelectedExactlyWhen(settings: Settings, order: seq<nat>)
    ensures Selected(settings, order) == settings <==> order == [] || forall id :: id in settings ==> id in order
  {
    if order != [] && Selected(settings, order) == settings {
      forall id | id in settings
        ensures id in order
      {
        assert id in Selected(settings, order);
      }
    }
  }

  /**
  The direct path and the racing path send the same, apart from the GREASE entries they draw, whatever they draw,
  exactly if the order is empty or lists every configured id.
  */
  lemma PathsAgreeExactlyWhen(settings: Settings, order: seq<nat>, priority: nat)
    ensures (forall d, d' :: IsDraw(d) && IsDraw(d') ==>
               var direct := Built(Selected(settings, order), order, priority, d);
               var raced := Built(settings, order, priority, d');
               SameButGrease(direct, raced, priority, d, d'))
            <==> order == [] || forall id :: id in settings ==> id in order
  {
    SelectedExactlyWhen(settings, order);
    if order == [] || forall id :: id in settings ==> id in order {
      forall d, d' | IsDraw(d) && IsDraw(d')
        ensures var direct, raced := Built(settings, order, priority, d), Built(settings, order, priority, d');
                SameButGrease(direct, raced, priority, d, d')
      {
      }
    } else {
      var id :| id in settings && id !in order;
      var d := DrawOther(id);
      PathsDiffer(settings, order, priority, id, d);
    }
  }

  /** A draw of some other id. */
  lemma DrawOther(id: nat) returns (d: Draw)
    ensures IsDraw(d) && GreaseId(d) != id
  {
    var one, two := Draw(0, [0, 0, 0, 0]), Draw(1, [0, 0, 0, 0]);
    assert GreaseId(one) != GreaseId(two);
    d := if GreaseId(one) == id then two else one;
  }

  lemma PathsDiffer(settings: Settings, order: seq<nat>, priority: nat, id: nat, d: Draw)
    requires IsDraw(d) && GreaseId(d) != id && id in settings && id !in order && order != []
    ensures var direct := Built(Selected(settings, order), order, priority, d);
            var raced := Built(settings, order, priority, d);
            !SameButGrease(direct, raced, priority, d, d)
  {
    var a, b := Built(Selected(settings, order), order, priority, d), Built(settings, order, priority, d);
    assert id !in a.settings && id in b.settings;
    assert id !in a.settings - {GreaseId(d), GreaseId(d)} && id in b.settings - {GreaseId(d), GreaseId(d)};
  }

  // ----- The code

  /** A Go map of settings; nil is null. */
  class GoMap {
    var entries: Settings

    constructor ()
      ensures entries == map[]
    {
      entries := map[];
    }

    method Set(id: nat, value: nat)
      modifies this
      ensures entries == old(entries)[id := value]
    {
      entries := entries[id := value];
    }
  }

  function Contents(m: GoMap?): Settings
    reads m
  {
    if m == null then map[] else m.entries
  }

  /** A client profile's HTTP/3 part; a nil order is an empty one. */
  class Profile {
    const settings: GoMap?
    const order: array<nat>
    const priority: nat

    constructor (settings: GoMap?, order: array<nat>, priority: nat)
      ensures this.settings == settings && this.order == order && this.priority == priority
    {
      this.settings, this.order, this.priority := settings, order, priority;
    }

    /** getHttp3Settings: without an order it hands out the profile's own map. */
    method GetHttp3Settings() returns (m: GoMap?)
      ensures m == null <==> Contents(settings) == map[]
      ensures Contents(m) == Selected(Contents(settings), order[..])
      ensures m != null ==> fresh(m) || (m == settings && order.Length == 0)
    {
      if settings == null || |settings.entries| == 0 {
        assert Contents(settings) == map[];
        return null;
      }
      if order.Length == 0 {
        return settings;
      }
      m := new GoMap();
      for k := 0 to order.Length
        invariant fresh(m) && m.entries == Restrict(settings.entries, order[..k])
      {
        if order[k] in settings.entries {
          m.Set(order[k], settings.entries[order[k]]);
        }
        assert order[..k + 1] == order[..k] + [order[k]];
      }
      assert order[..order.Length] == order[..];
    }
  }

  /** An HTTP/3 transport's AdditionalSettings and AdditionalSettingsOrder. */
  class Transport {
    const settings: GoMap?
    const order: array<nat>

    constructor (settings: GoMap?, order: array<nat>)
      ensures this.settings == settings && this.order == order
    {
      this.settings, this.order := settings, order;
    }

    function View(): Sent
      reads settings, order
    {
      Sent(Contents(settings), order[..])
    }
  }

  /** The copying loop, over the keys in whatever order they come. */
  method CopyMap(m: GoMap) returns (r: GoMap)
    ensures fresh(r) && r.entries == m.entries
  {
    r := new GoMap();
    var left := m.entries.Keys;
    while left != {}
      invariant left <= m.entries.Keys && fresh(r)
      invariant r.entries == map id | id in m.entries && id !in left :: m.entries[id]
      decreases |left|
    {
      var id :| id in left;
      r.Set(id, m.entries[id]);
      left := left - {id};
    }
  }

  method WithLast(order: array<nat>, id: nat) returns (r: array<nat>)
    ensures fresh(r) && r[..] == order[..] + [id]
  {
    var n := order.Length;
    r := new nat[n + 1](i requires 0 <= i <= n reads order => if i < n then order[i] else id);
  }

  /** buildHTTP3Transport: the transport has a map of its own, so that the profile's is left alone. */
  method BuildTransport(settings: GoMap?, order: array<nat>, priority: nat, d: Draw) returns (t: Transport)
    requires IsDraw(d)
    ensures fresh(t) && t.View() == Built(Contents(settings), order[..], priority, d)
    ensures t.settings != null ==> fresh(t.settings)
    ensures fresh(t.order) || t.order == order
  {
    var m: GoMap? := null;
    if settings != null {
      m := CopyMap(settings);
    }
    var sent := order;
    if priority > 0 {
      if m == null {
        m := new GoMap();
      }
      m.Set(GreaseId(d), GreaseValue(d));
      if order.Length > 0 {
        sent := WithLast(order, GreaseId(d));
      }
    }
    t := new Transport(m, sent);
  }

  /** One build on the direct path or on the racing path. */
  method BuildOne(p: Profile, direct: bool, d: Draw) returns (t: Transport)
    requires IsDraw(d)
    ensures fresh(t) && (t.settings != null ==> fresh(t.settings)) && (fresh(t.order) || t.order == p.order)
    ensures t.View() == Sends(Contents(p.settings), p.order[..], p.priority, direct, d)
  {
    if direct {
      var m := p.GetHttp3Settings();
      t := BuildTransport(m, p.order, p.priority, d);
    } else {
      t := BuildTransport(p.settings, p.order, p.priority, d);
    }
  }

  function Sends(settings: Settings, order: seq<nat>, priority: nat, direct: bool, d: Draw): Sent
    requires IsDraw(d)
  {
    Built(if direct then Selected(settings, order) else settings, order, priority, d)
  }

  /**
  Any number of builds on either path: every transport sends what the profile said before the first of them, the
  profile says the same afterwards, and no two transports share a map with each other or with the profile.
  */
  method BuildMany(p: Profile, builds: seq<(bool, Draw)>) returns (ts: seq<Transport>)
    requires forall i :: 0 <= i < |builds| ==> IsDraw(builds[i].1)
    ensures Contents(p.settings) == old(Contents(p.settings)) && p.order[..] == old(p.order[..])
    ensures |ts| == |builds| && forall i :: 0 <= i < |ts| ==>
              ts[i].View() == Sends(old(Contents(p.settings)), old(p.order[..]), p.priority, builds[i].0, builds[i].1)
    ensures forall i :: 0 <= i < |ts| && ts[i].settings != null ==>
              ts[i].settings != p.settings && forall j :: 0 <= j < i ==> ts[i].settings != ts[j].settings
  {
    ts := [];
    for k := 0 to |builds|
      invariant |ts| == k
      invariant forall i :: 0 <= i < k ==> fresh(ts[i]) && (ts[i].settings != null ==> fresh(ts[i].settings))
      invariant forall i :: 0 <= i < k ==>
                  ts[i].View() == Sends(Contents(p.settings), p.order[..], p.priority, builds[i].0, builds[i].1)
      invariant forall i :: 0 <= i < k && ts[i].settings != null ==>
                  forall j :: 0 <= j < i ==> ts[i].settings != ts[j].settings
    {
      var t := BuildOne(p, builds[k].0, builds[k].1);
      ts := ts + [t];
    }
  }
}
