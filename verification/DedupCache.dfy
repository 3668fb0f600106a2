/** The TTL + LRU cache of recent decisions (cpp-bidder/src/dedup_cache.cpp). */
module DedupCaches {
  import opened Types

  datatype Settings = Settings(maxSize: int, ttlMs: int)

  datatype Entry = Entry(decision: Decision, expiry: int)

  /** The hash map and the recency list, most recently used first. */
  datatype Cache = Cache(entries: map<string, Entry>, lru: seq<string>)

  const EMPTY := Cache(map[], [])

  datatype Event =
    | Get(now: int, id: string, answer: Option<Decision>)
    | Put(now: int, id: string, decision: Decision)

  /** Erasing an id's node from the recency list. */
  function Without(lru: seq<string>, id: string): (r: seq<string>)
    ensures |r| <= |lru|
    ensures forall x :: x in r ==> x in lru
  {
    if lru == [] then []
    else if lru[0] == id then lru[1..]
    else [lru[0]] + Without(lru[1..], id)
  }

  function Touched(lru: seq<string>, id: string): seq<string> {
    [id] + Without(lru, id)
  }

  function Lookup(c: Cache, now: int, id: string): Option<Decision> {
    if id in c.entries && now < c.entries[id].expiry then Some(c.entries[id].decision) else None
  }

  function AfterGet(c: Cache, now: int, id: string): Cache {
    if id !in c.entries then c
    else if now >= c.entries[id].expiry then Cache(c.entries - {id}, Without(c.lru, id))
    else c.(lru := Touched(c.lru, id))
  }

  /** Shortening the recency list from its tail until the map is below its cap. */
  function Evict(c: Cache, maxSize: int): Cache
    decreases |c.lru|
  {
    if |c.entries| >= maxSize && c.lru != [] then
      var last := |c.lru| - 1;
      Evict(Cache(c.entries - {c.lru[last]}, c.lru[..last]), maxSize)
    else c
  }

  function AfterPut(cfg: Settings, c: Cache, now: int, id: string, d: Decision): Cache {
    var e := Entry(d, now + cfg.ttlMs * NANOS_PER_MILLI);
    if id in c.entries then
      Cache(c.entries[id := e], Touched(c.lru, id))
    else
      var room := Evict(c, cfg.maxSize);
      Cache(room.entries[id := e], [id] + room.lru)
  }

  function Apply(cfg: Settings, c: Cache, e: Event): Cache {
    match e
    case Get(now, id, _) => AfterGet(c, now, id)
    case Put(now, id, d) => AfterPut(cfg, c, now, id, d)
  }

  function After(cfg: Settings, h: seq<Event>): Cache {
    if h == [] then EMPTY else Apply(cfg, After(cfg, h[..|h| - 1]), h[|h| - 1])
  }

  ghost predicate IsRun(cfg: Settings, h: seq<Event>) {
    h == [] ||
    var before, e := h[..|h| - 1], h[|h| - 1];
    && IsRun(cfg, before)
    && (before != [] ==> before[|before| - 1].now <= e.now)
    && (e.Get? ==> e.answer == Lookup(After(cfg, before), e.now, e.id))
  }

  lemma RunGrows(cfg: Settings, h: seq<Event>, e: Event)
    requires IsRun(cfg, h)
    requires h != [] ==> h[|h| - 1].now <= e.now
    requires e.Get? ==> e.answer == Lookup(After(cfg, h), e.now, e.id)
    ensures IsRun(cfg, h + [e])
    ensures After(cfg, h + [e]) == Apply(cfg, After(cfg, h), e)
  {
    var g := h + [e];
    assert g[..|g| - 1] == h && g[|g| - 1] == e;
  }

  // ---------- the two structures stay one: a bijection within the cap ----------

  /** A cap below one still keeps the entry just put: everything older is evicted first. */
  function Capacity(cfg: Settings): nat {
    Max(1, cfg.maxSize)
  }

  ghost predicate NoRepeats(s: seq<string>) {
    s == [] || (s[0] !in s[1..] && NoRepeats(s[1..]))
  }

  ghost predicate Linked(c: Cache) {
    && NoRepeats(c.lru)
    && (forall x :: x in c.lru <==> x in c.entries)
  }

  lemma {:induction false} WithoutKeepsTheRest(lru: seq<string>, id: string)
    requires NoRepeats(lru)
    ensures NoRepeats(Without(lru, id))
    ensures forall x :: x in Without(lru, id) <==> x in lru && x != id
    ensures |Without(lru, id)| == |lru| - if id in lru then 1 else 0
  {
    if lru != [] {
      assert forall x :: x in lru <==> x == lru[0] || x in lru[1..];
      if lru[0] != id {
        WithoutKeepsTheRest(lru[1..], id);
        var rest := Without(lru[1..], id);
        assert ([lru[0]] + rest)[1..] == rest;
        assert forall x :: x in [lru[0]] + rest <==> x == lru[0] || x in rest;
      }
    }
  }

  lemma {:induction false} PrefixHasNoRepeats(s: seq<string>, n: nat)
    requires NoRepeats(s) && n <= |s|
    ensures NoRepeats(s[..n])
    ensures n < |s| ==> s[n] !in s[..n]
  {
    if 0 < n {
      PrefixHasNoRepeats(s[1..], n - 1);
      assert s[..n][1..] == s[1..][..n - 1];
      assert s[..n] == [s[0]] + s[1..][..n - 1];
      if n < |s| {
        assert s[n] == s[1..][n - 1];
      }
    }
  }

  lemma {:induction false} SetOfSize(s: seq<string>)
    requires NoRepeats(s)
    ensures |set x | x in s| == |s|
  {
    if s != [] {
      SetOfSize(s[1..]);
      assert (set x | x in s) == {s[0]} + set x | x in s[1..];
    }
  }

  lemma LinkedCounts(c: Cache)
    requires Linked(c)
    ensures |c.entries| == |c.lru|
  {
    SetOfSize(c.lru);
    assert c.entries.Keys == set x | x in c.lru;
  }

  function WithoutLast(c: Cache): Cache
    requires c.lru != []
  {
    Cache(c.entries - {c.lru[|c.lru| - 1]}, c.lru[..|c.lru| - 1])
  }

  lemma EvictionStep(c: Cache, maxSize: int)
    ensures Evict(c, maxSize) == if |c.entries| >= maxSize && c.lru != [] then Evict(WithoutLast(c), maxSize) else c
  {
  }

  lemma DroppingLastStaysLinked(c: Cache)
    requires Linked(c) && c.lru != []
    ensures Linked(WithoutLast(c))
  {
    var last := |c.lru| - 1;
    PrefixHasNoRepeats(c.lru, last);
    assert c.lru == c.lru[..last] + [c.lru[last]];
  }

  /** The eviction loop keeps exactly the most recent `maxSize - 1` (or none, when that is negative). */
  lemma {:induction false} EvictKeepsMostRecent(c: Cache, maxSize: int)
    requires Linked(c)
    ensures Linked(Evict(c, maxSize))
    ensures Evict(c, maxSize).lru == c.lru[..Min(|c.lru|, Max(0, maxSize - 1))]
    ensures forall x :: x in Evict(c, maxSize).entries ==>
      x in c.entries && Evict(c, maxSize).entries[x] == c.entries[x]
    decreases |c.lru|
  {
    hide Evict, Linked, NoRepeats;
    LinkedCounts(c);
    EvictionStep(c, maxSize);
    if |c.entries| >= maxSize && c.lru != [] {
      DroppingLastStaysLinked(c);
      EvictKeepsMostRecent(WithoutLast(c), maxSize);
    }
  }

  lemma {:induction false} PutStaysLinked(cfg: Settings, c: Cache, now: int, id: string, d: Decision)
    requires Linked(c) && |c.lru| <= Capacity(cfg)
    ensures Linked(AfterPut(cfg, c, now, id, d))
    ensures |AfterPut(cfg, c, now, id, d).lru| <= Capacity(cfg)
  {
    if id in c.entries {
      WithoutKeepsTheRest(c.lru, id);
    } else {
      EvictKeepsMostRecent(c, cfg.maxSize);
    }
  }

  /** In every run the map's keys and the recency list are in bijection, without repeats, within the cap. */
  lemma {:induction false} RunStaysLinked(cfg: Settings, h: seq<Event>)
    requires IsRun(cfg, h)
    ensures Linked(After(cfg, h))
    ensures |After(cfg, h).entries| == |After(cfg, h).lru| <= Capacity(cfg)
  {
    if h != [] {
      var before, e := h[..|h| - 1], h[|h| - 1];
      RunStaysLinked(cfg, before);
      match e {
        case Get(_, id, _) => WithoutKeepsTheRest(After(cfg, before).lru, id);
        case Put(now, id, d) => PutStaysLinked(cfg, After(cfg, before), now, id, d);
      }
    }
    LinkedCounts(After(cfg, h));
  }

  // ---------- the specification: only the history ----------

  /** The time and decision of the latest put for an id; a get never changes it. */
  function LatestPut(h: seq<Event>, id: string): Option<(int, Decision)> {
    if h == [] then None
    else if h[|h| - 1].Put? && h[|h| - 1].id == id then Some((h[|h| - 1].now, h[|h| - 1].decision))
    else LatestPut(h[..|h| - 1], id)
  }

  /** A put or a hit uses an id; a miss does not. */
  predicate Uses(e: Event, id: string) {
    e.id == id && (e.Put? || e.answer.Some?)
  }

  /** The other ids used since the last use of `id`. */
  function UsedSince(h: seq<Event>, id: string): set<string> {
    if h == [] || Uses(h[|h| - 1], id) then {}
    else UsedSince(h[..|h| - 1], id) + if Uses(h[|h| - 1], h[|h| - 1].id) then {h[|h| - 1].id} else {}
  }

  /** The other ids put since the last use of `id`. */
  function PutSince(h: seq<Event>, id: string): set<string> {
    if h == [] || Uses(h[|h| - 1], id) then {}
    else PutSince(h[..|h| - 1], id) + if h[|h| - 1].Put? then {h[|h| - 1].id} else {}
  }

  predicate Unexpired(cfg: Settings, h: seq<Event>, id: string, now: int) {
    LatestPut(h, id).Some? && now < LatestPut(h, id).value.0 + cfg.ttlMs * NANOS_PER_MILLI
  }

  /** What is stored under an id is its latest put. */
  ghost predicate StoresLatestPuts(cfg: Settings, h: seq<Event>, c: Cache) {
    forall x :: x in c.entries ==>
      && LatestPut(h, x).Some?
      && c.entries[x] == Entry(LatestPut(h, x).value.1, LatestPut(h, x).value.0 + cfg.ttlMs * NANOS_PER_MILLI)
  }

  lemma {:induction false} RunStoresLatestPuts(cfg: Settings, h: seq<Event>)
    requires IsRun(cfg, h)
    ensures StoresLatestPuts(cfg, h, After(cfg, h))
  {
    forall x | x in After(cfg, h).entries
      ensures LatestPut(h, x).Some?
      ensures After(cfg, h).entries[x]
        == Entry(LatestPut(h, x).value.1, LatestPut(h, x).value.0 + cfg.ttlMs * NANOS_PER_MILLI)
    {
      StoredIsLatestPut(cfg, h, x);
    }
  }

  lemma {:induction false} StoredIsLatestPut(cfg: Settings, h: seq<Event>, x: string)
    requires IsRun(cfg, h) && x in After(cfg, h).entries
    ensures LatestPut(h, x).Some?
    ensures After(cfg, h).entries[x]
      == Entry(LatestPut(h, x).value.1, LatestPut(h, x).value.0 + cfg.ttlMs * NANOS_PER_MILLI)
  {
    var before, e := h[..|h| - 1], h[|h| - 1];
    if !(e.Put? && e.id == x) {
      RunStaysLinked(cfg, before);
      KeepsOtherEntries(cfg, After(cfg, before), e, x);
      StoredIsLatestPut(cfg, before, x);
    }
  }

  lemma KeepsOtherEntries(cfg: Settings, c: Cache, e: Event, x: string)
    requires Linked(c) && x in Apply(cfg, c, e).entries && !(e.Put? && e.id == x)
    ensures x in c.entries && Apply(cfg, c, e).entries[x] == c.entries[x]
  {
    if e.Put? && e.id !in c.entries {
      EvictKeepsMostRecent(c, cfg.maxSize);
    }
  }

  /** A hit returns the decision of the latest put for that id, made less than the TTL ago. */
  lemma HitIsLatestFreshPut(cfg: Settings, h: seq<Event>, now: int, id: string)
    requires IsRun(cfg, h)
    requires Lookup(After(cfg, h), now, id).Some?
    ensures Unexpired(cfg, h, id, now)
    ensures Lookup(After(cfg, h), now, id) == Some(LatestPut(h, id).value.1)
  {
    RunStoresLatestPuts(cfg, h);
  }

  /** The ids more recently used than `id`, as the recency list has them. */
  function Ahead(lru: seq<string>, id: string): set<string> {
    if lru == [] || lru[0] == id then {} else {lru[0]} + Ahead(lru[1..], id)
  }

  lemma {:induction false} AheadAfterErasing(lru: seq<string>, x: string, y: string)
    requires NoRepeats(lru) && x != y
    ensures Ahead(Without(lru, x), y) == Ahead(lru, y) - {x}
  {
    if lru != [] {
      if lru[0] == x {
        AheadIsInside(lru[1..], y);
        assert x !in lru[1..];
      } else if lru[0] != y {
        AheadAfterErasing(lru[1..], x, y);
        assert ([lru[0]] + Without(lru[1..], x))[1..] == Without(lru[1..], x);
      }
    }
  }

  lemma {:induction false} AheadIsInside(lru: seq<string>, y: string)
    ensures forall x :: x in Ahead(lru, y) ==> x in lru && x != y
  {
    if lru != [] && lru[0] != y {
      AheadIsInside(lru[1..], y);
    }
  }

  lemma {:induction false} AheadCounts(lru: seq<string>, y: string)
    requires NoRepeats(lru) && y in lru
    ensures |Ahead(lru, y)| < |lru| && lru[|Ahead(lru, y)|] == y
  {
    if lru[0] != y {
      AheadCounts(lru[1..], y);
      AheadIsInside(lru[1..], y);
      assert |{lru[0]} + Ahead(lru[1..], y)| == 1 + |Ahead(lru[1..], y)|;
    }
  }

  lemma {:induction false} AheadInPrefix(lru: seq<string>, n: nat, y: string)
    requires n <= |lru| && y in lru[..n]
    ensures Ahead(lru[..n], y) == Ahead(lru, y)
  {
    if lru[0] != y {
      assert lru[..n][1..] == lru[1..][..n - 1];
      assert y in lru[1..][..n - 1] by {
        var i :| 0 <= i < n && lru[..n][i] == y;
        assert lru[1..][..n - 1][i - 1] == y;
      }
      AheadInPrefix(lru[1..], n - 1, y);
    }
  }

  lemma AheadOfTouched(lru: seq<string>, x: string, y: string)
    requires NoRepeats(lru) && x != y
    ensures Ahead(Touched(lru, x), y) == {x} + Ahead(lru, y)
  {
    AheadAfterErasing(lru, x, y);
    assert Touched(lru, x)[1..] == Without(lru, x);
  }

  /** Where one call puts the ids it keeps: behind the id it used, and otherwise in the old order. */
  lemma KeepsOrder(cfg: Settings, c: Cache, e: Event, y: string)
    requires Linked(c) && y in Apply(cfg, c, e).lru && e.id != y
    requires e.Get? ==> e.answer == Lookup(c, e.now, e.id)
    ensures y in c.lru
    ensures Ahead(Apply(cfg, c, e).lru, y) ==
        if Uses(e, e.id) then {e.id} + Ahead(c.lru, y)
        else if e.id in c.entries then Ahead(c.lru, y) - {e.id}
        else Ahead(c.lru, y)
  {
    if e.id in c.entries {
      WithoutKeepsTheRest(c.lru, e.id);
      AheadOfTouched(c.lru, e.id, y);
      AheadAfterErasing(c.lru, e.id, y);
    } else if e.Put? {
      EvictKeepsMostRecent(c, cfg.maxSize);
      var n := |Evict(c, cfg.maxSize).lru|;
      assert Apply(cfg, c, e).lru == [e.id] + c.lru[..n];
      assert ([e.id] + c.lru[..n])[1..] == c.lru[..n];
      AheadInPrefix(c.lru, n, y);
    }
  }

  lemma OrderAfter(cfg: Settings, h: seq<Event>, y: string)
    requires IsRun(cfg, h) && h != []
    requires y in After(cfg, h).lru && !Uses(h[|h| - 1], y)
    ensures y in After(cfg, h[..|h| - 1]).lru
    ensures h[|h| - 1].id != y
    ensures var e, prior := h[|h| - 1], Ahead(After(cfg, h[..|h| - 1]).lru, y);
      Ahead(After(cfg, h).lru, y) ==
        if Uses(e, e.id) then {e.id} + prior
        else if e.id in After(cfg, h[..|h| - 1]).entries then prior - {e.id}
        else prior
  {
    var c, e := After(cfg, h[..|h| - 1]), h[|h| - 1];
    RunStaysLinked(cfg, h[..|h| - 1]);
    if e.id == y {
      // a get that answers nothing leaves nothing under its id
      WithoutKeepsTheRest(c.lru, y);
      assert false;
    }
    KeepsOrder(cfg, c, e, y);
  }

  /** Only ids used since an id was used can be ahead of it. */
  lemma {:induction false} AheadWereUsed(cfg: Settings, h: seq<Event>, y: string)
    requires IsRun(cfg, h) && y in After(cfg, h).lru
    ensures Ahead(After(cfg, h).lru, y) <= UsedSince(h, y)
  {
    if h != [] && !Uses(h[|h| - 1], y) {
      OrderAfter(cfg, h, y);
      AheadWereUsed(cfg, h[..|h| - 1], y);
    }
  }

  /** A use never comes after a later put of another id that is already stale. */
  lemma {:induction false} PutSinceIsLater(cfg: Settings, h: seq<Event>, x: string, y: string)
    requires IsRun(cfg, h) && x in PutSince(h, y) && LatestPut(h, y).Some?
    ensures LatestPut(h, x).Some? && x != y
    ensures LatestPut(h, y).value.0 <= LatestPut(h, x).value.0 <= h[|h| - 1].now
  {
    var before, e := h[..|h| - 1], h[|h| - 1];
    if x in PutSince(before, y) {
      PutSinceIsLater(cfg, before, x, y);
    }
    LatestPutIsPast(cfg, before, y);
  }

  lemma {:induction false} LatestPutIsPast(cfg: Settings, h: seq<Event>, y: string)
    requires IsRun(cfg, h)
    ensures LatestPut(h, y).Some? ==> h != [] && LatestPut(h, y).value.0 <= h[|h| - 1].now
  {
    if h != [] {
      LatestPutIsPast(cfg, h[..|h| - 1], y);
    }
  }

  /** Everything put since an unexpired id was last used is still ahead of it. */
  lemma {:induction false} PutsStayAhead(cfg: Settings, h: seq<Event>, y: string)
    requires IsRun(cfg, h) && y in After(cfg, h).lru
    requires Unexpired(cfg, h, y, h[|h| - 1].now)
    ensures PutSince(h, y) <= Ahead(After(cfg, h).lru, y)
  {
    var before, e := h[..|h| - 1], h[|h| - 1];
    if !Uses(e, y) {
      OrderAfter(cfg, h, y);
      PutsStayAhead(cfg, before, y);
      if e.Get? && e.answer.None? && e.id in PutSince(before, y) {
        // a fresher id cannot have been found stale
        PutSinceIsLater(cfg, before, e.id, y);
        RunStoresLatestPuts(cfg, before);
      }
    }
  }

  /** The other ids used since the last use of `id` and not found stale since their own. */
  function Standing(h: seq<Event>, id: string): set<string> {
    if h == [] || Uses(h[|h| - 1], id) then {}
    else
      var e, prior := h[|h| - 1], Standing(h[..|h| - 1], id);
      if Uses(e, e.id) then prior + {e.id} else prior - {e.id}
  }

  /** The id has been used, and at no time since did as many others stand as the cache holds. */
  predicate NeverCrowdedOut(cfg: Settings, h: seq<Event>, id: string) {
    h != [] &&
    (Uses(h[|h| - 1], id) || (NeverCrowdedOut(cfg, h[..|h| - 1], id) && |Standing(h, id)| < Capacity(cfg)))
  }

  /** The ids ahead of a kept id are exactly those standing. */
  lemma {:induction false} AheadAreStanding(cfg: Settings, h: seq<Event>, y: string)
    requires IsRun(cfg, h) && y in After(cfg, h).lru
    ensures Ahead(After(cfg, h).lru, y) == Standing(h, y)
  {
    hide Apply, IsRun;
    var before, e := h[..|h| - 1], h[|h| - 1];
    if Uses(e, y) {
      UsedIsFirst(cfg, h, y);
    } else {
      OrderAfter(cfg, h, y);
      RunStaysLinkedBefore(cfg, h);
      AheadAreStanding(cfg, before, y);
      AheadIsInside(After(cfg, before).lru, y);
    }
  }

  lemma RunStaysLinkedBefore(cfg: Settings, h: seq<Event>)
    requires IsRun(cfg, h) && h != []
    ensures IsRun(cfg, h[..|h| - 1])
    ensures Linked(After(cfg, h[..|h| - 1])) && |After(cfg, h[..|h| - 1]).lru| <= Capacity(cfg)
  {
    RunStaysLinked(cfg, h[..|h| - 1]);
    hide Linked, After;
  }

  lemma UsedIsFirst(cfg: Settings, h: seq<Event>, y: string)
    requires IsRun(cfg, h) && h != [] && Uses(h[|h| - 1], y)
    ensures var c := After(cfg, h); y in c.entries && c.lru != [] && c.lru[0] == y && Ahead(c.lru, y) == {}
  {
    hide Evict, Without;
  }

  /** A put of a new id keeps another exactly if fewer than the capacity would then be ahead of it. */
  lemma NewPutKeeps(cfg: Settings, c: Cache, e: Event, y: string)
    requires Linked(c) && e.Put? && e.id !in c.entries && e.id != y
    ensures y in Apply(cfg, c, e).entries <==> y in c.entries && |Ahead(c.lru, y)| + 1 < Capacity(cfg)
  {
    EvictKeepsMostRecent(c, cfg.maxSize);
    var room := Evict(c, cfg.maxSize);
    hide Evict, Linked;
    if y in c.entries {
      KeptByPosition(c, room, y, Min(|c.lru|, Max(0, cfg.maxSize - 1)));
    }
  }

  lemma KeptByPosition(c: Cache, room: Cache, y: string, n: nat)
    requires Linked(c) && Linked(room) && y in c.entries && n <= |c.lru| && room.lru == c.lru[..n]
    ensures y in room.entries <==> |Ahead(c.lru, y)| < n
  {
    AheadCounts(c.lru, y);
    PositionIsUnique(c.lru, n, y, |Ahead(c.lru, y)|);
    hide Ahead, NoRepeats;
  }

  lemma {:induction false} PositionIsUnique(s: seq<string>, n: nat, y: string, i: nat)
    requires NoRepeats(s) && n <= |s| && i < |s| && s[i] == y
    ensures y in s[..n] <==> i < n
  {
    if i < n {
      assert s[..n][i] == y;
    } else {
      PrefixHasNoRepeats(s, i);
      assert forall k :: 0 <= k < n ==> s[..n][k] == s[..i][k];
    }
  }

  /** Any other call but a put of a new id keeps it. */
  lemma OtherCallsKeep(cfg: Settings, c: Cache, e: Event, y: string)
    requires e.id != y && (e.Put? ==> e.id in c.entries)
    ensures y in Apply(cfg, c, e).entries <==> y in c.entries
  {
  }

  lemma {:induction false} PresentExactlyIfNeverCrowdedOut(cfg: Settings, h: seq<Event>, now: int, y: string)
    requires IsRun(cfg, h) && h != [] && h[|h| - 1].now <= now && Unexpired(cfg, h, y, now)
    ensures y in After(cfg, h).entries <==> NeverCrowdedOut(cfg, h, y)
  {
    var before, e := h[..|h| - 1], h[|h| - 1];
    hide Apply, Linked, Standing, Lookup, StoresLatestPuts;
    if Uses(e, y) {
      UsedIsFirst(cfg, h, y);
    } else {
      var c := After(cfg, before);
      assert IsRun(cfg, before) && Unexpired(cfg, before, y, now);
      PresentExactlyIfNeverCrowdedOut(cfg, before, now, y);
      if e.id == y {
        UnexpiredMissIsAbsent(cfg, h, now, y);
      } else {
        StandingCounts(cfg, h, y);
        hide After, IsRun;
      }
    }
  }

  lemma UnexpiredMissIsAbsent(cfg: Settings, h: seq<Event>, now: int, y: string)
    requires IsRun(cfg, h) && h != [] && h[|h| - 1].now <= now && Unexpired(cfg, h, y, now)
    requires h[|h| - 1].id == y && !Uses(h[|h| - 1], y)
    ensures y !in After(cfg, h).entries && y !in After(cfg, h[..|h| - 1]).entries
  {
    RunStoresLatestPuts(cfg, h[..|h| - 1]);
  }

  /** Whether a call of another id keeps `y` shows in how many then stand. */
  lemma StandingCounts(cfg: Settings, h: seq<Event>, y: string)
    requires IsRun(cfg, h) && h != [] && h[|h| - 1].id != y
    ensures y in After(cfg, h).entries <==>
      y in After(cfg, h[..|h| - 1]).entries && |Standing(h, y)| < Capacity(cfg)
  {
    hide Apply, Standing, NoRepeats;
    var before, e := h[..|h| - 1], h[|h| - 1];
    var c, d := After(cfg, before), After(cfg, h);
    assert d == Apply(cfg, c, e);
    RunStaysLinkedBefore(cfg, h);
    RunStaysLinked(cfg, h);
    if y in d.entries {
      AheadAreStanding(cfg, h, y);
      AheadCounts(d.lru, y);
    }
    if e.Put? && e.id !in c.entries {
      NewPutKeeps(cfg, c, e, y);
      if y in c.entries {
        NewPutStands(cfg, h, y);
      }
    } else {
      OtherCallsKeep(cfg, c, e, y);
    }
  }

  lemma NewPutStands(cfg: Settings, h: seq<Event>, y: string)
    requires IsRun(cfg, h) && h != [] && h[|h| - 1].Put? && h[|h| - 1].id != y
    requires var c := After(cfg, h[..|h| - 1]); h[|h| - 1].id !in c.entries && y in c.entries
    ensures |Standing(h, y)| == |Ahead(After(cfg, h[..|h| - 1]).lru, y)| + 1
  {
    hide After, IsRun, NoRepeats;
    var before, e := h[..|h| - 1], h[|h| - 1];
    RunStaysLinkedBefore(cfg, h);
    AheadAreStanding(cfg, before, y);
    AheadIsInside(After(cfg, before).lru, y);
    assert Standing(h, y) == Standing(before, y) + {e.id};
  }

  /** An unexpired id is a hit exactly if at no time since its last use did as many others stand, used since then and
      not found stale, as the cache holds; the hit then answers with the latest put. */
  lemma UnexpiredIsAHitExactlyIf(cfg: Settings, h: seq<Event>, now: int, id: string)
    requires IsRun(cfg, h)
    requires h != [] ==> h[|h| - 1].now <= now
    requires Unexpired(cfg, h, id, now)
    ensures Lookup(After(cfg, h), now, id) ==
      if NeverCrowdedOut(cfg, h, id) then Some(LatestPut(h, id).value.1) else None
  {
    PresentExactlyIfNeverCrowdedOut(cfg, h, now, id);
    RunStoresLatestPuts(cfg, h);
    hide After, IsRun, NeverCrowdedOut;
  }

  /** So an unexpired id is a hit as long as fewer than the capacity of other ids were used since its own last use. */
  lemma FewOthersUsedIsAHit(cfg: Settings, h: seq<Event>, now: int, id: string)
    requires IsRun(cfg, h)
    requires h != [] ==> h[|h| - 1].now <= now
    requires Unexpired(cfg, h, id, now)
    requires |UsedSince(h, id)| < Capacity(cfg)
    ensures Lookup(After(cfg, h), now, id) == Some(LatestPut(h, id).value.1)
  {
    UnexpiredIsAHitExactlyIf(cfg, h, now, id);
    FewUsedNeverCrowd(cfg, h, id);
    hide Lookup, After, NeverCrowdedOut, IsRun, UsedSince;
  }

  lemma {:induction false} FewUsedNeverCrowd(cfg: Settings, h: seq<Event>, id: string)
    requires LatestPut(h, id).Some? && |UsedSince(h, id)| < Capacity(cfg)
    ensures NeverCrowdedOut(cfg, h, id)
  {
    if !Uses(h[|h| - 1], id) {
      UsedSinceGrows(h, id);
      FewUsedNeverCrowd(cfg, h[..|h| - 1], id);
      StandingWereUsed(h, id);
      SubsetIsNotLarger(Standing(h, id), UsedSince(h, id));
    }
  }

  lemma {:induction false} StandingWereUsed(h: seq<Event>, id: string)
    ensures Standing(h, id) <= UsedSince(h, id)
  {
    if h != [] {
      StandingWereUsed(h[..|h| - 1], id);
    }
  }

  lemma UsedSinceGrows(h: seq<Event>, id: string)
    requires h != [] && !Uses(h[|h| - 1], id)
    ensures UsedSince(h[..|h| - 1], id) <= UsedSince(h, id)
    ensures |UsedSince(h[..|h| - 1], id)| <= |UsedSince(h, id)|
  {
    SubsetIsNotLarger(UsedSince(h[..|h| - 1], id), UsedSince(h, id));
  }

  lemma SubsetIsNotLarger(a: set<string>, b: set<string>)
    requires a <= b
    ensures |a| <= |b|
  {
    assert b == a + (b - a);
  }

  /** From the other side: once at least the capacity of other ids were put since an id's last use,
      that id is a miss, whatever its age. */
  lemma ManyOthersPutIsAMiss(cfg: Settings, h: seq<Event>, now: int, id: string)
    requires IsRun(cfg, h)
    requires h != [] ==> h[|h| - 1].now <= now
    requires |PutSince(h, id)| >= Capacity(cfg)
    ensures Lookup(After(cfg, h), now, id) == None
  {
    var c := After(cfg, h);
    if Lookup(c, now, id).Some? {
      HitIsLatestFreshPut(cfg, h, now, id);
      RunStaysLinked(cfg, h);
      PutsStayAhead(cfg, h, id);
      SubsetIsNotLarger(PutSince(h, id), Ahead(c.lru, id));
      AheadCounts(c.lru, id);
      assert false;
    }
  }

  /** A get is answered by the cache as the calls before it left it. */
  lemma AnswerOfAGet(cfg: Settings, h: seq<Event>, e: Event)
    requires IsRun(cfg, h + [e]) && e.Get?
    ensures e.answer == Lookup(After(cfg, h), e.now, e.id)
  {
    hide Lookup, After;
    var g := h + [e];
    assert g[..|g| - 1] == h && g[|g| - 1] == e;
  }

  class DedupCache {
    const cfg: Settings
    var entries: map<string, Entry>
    var lru: seq<string>
    ghost var history: seq<Event>

    ghost function View(): Cache
      reads this
    {
      Cache(entries, lru)
    }

    ghost predicate Valid()
      reads this
    {
      IsRun(cfg, history) && View() == After(cfg, history)
    }

    ghost predicate ClockAt(now: int)
      reads this
    {
      history != [] ==> history[|history| - 1].now <= now
    }

    constructor (cfg: Settings)
      ensures Valid() && this.cfg == cfg && history == []
    {
      this.cfg := cfg;
      entries, lru := map[], [];
      history := [];
    }

    method Lookup(now: int, id: string) returns (answer: Option<Decision>)
      requires Valid() && ClockAt(now)
      modifies this
      ensures Valid() && history == old(history) + [Get(now, id, answer)]
      ensures View() == AfterGet(old(View()), now, id)
      ensures answer.Some? ==>
        Unexpired(cfg, old(history), id, now) && answer.value == LatestPut(old(history), id).value.1
      ensures Unexpired(cfg, old(history), id, now) ==> (answer.Some? <==> NeverCrowdedOut(cfg, old(history), id))
    {
      hide Without, IsRun, After, LatestPut, NeverCrowdedOut;
      if id !in entries {
        answer := None;
      } else if now >= entries[id].expiry {
        lru := Without(lru, id);
        entries := entries - {id};
        answer := None;
      } else {
        lru := Without(lru, id);
        lru := [id] + lru;
        answer := Some(entries[id].decision);
      }
      if answer.Some? {
        HitIsLatestFreshPut(cfg, history, now, id);
      }
      if Unexpired(cfg, history, id, now) {
        UnexpiredIsAHitExactlyIf(cfg, history, now, id);
      }
      RunGrows(cfg, history, Get(now, id, answer));
      history := history + [Get(now, id, answer)];
    }

    /** Entries leave from the tail of the recency list until one more fits. */
    method MakeRoom()
      modifies this`entries, this`lru
      ensures View() == Evict(old(View()), cfg.maxSize)
    {
      hide Evict;
      while |entries| >= cfg.maxSize && lru != []
        invariant Evict(Cache(entries, lru), cfg.maxSize) == Evict(old(View()), cfg.maxSize)
        decreases |lru|
      {
        EvictionStep(Cache(entries, lru), cfg.maxSize);
        var victim := lru[|lru| - 1];
        entries := entries - {victim};
        lru := lru[..|lru| - 1];
      }
      EvictionStep(Cache(entries, lru), cfg.maxSize);
    }

    method Store(now: int, id: string, decision: Decision)
      requires Valid() && ClockAt(now)
      modifies this
      ensures Valid() && history == old(history) + [Put(now, id, decision)]
      ensures View() == AfterPut(cfg, old(View()), now, id, decision)
    {
      hide Evict, Without, IsRun, After;
      var expiry := now + cfg.ttlMs * NANOS_PER_MILLI;
      if id in entries {
        entries := entries[id := Entry(decision, expiry)];
        lru := Without(lru, id);
        lru := [id] + lru;
      } else {
        MakeRoom();
        lru := [id] + lru;
        entries := entries[id := Entry(decision, expiry)];
      }
      RunGrows(cfg, history, Put(now, id, decision));
      history := history + [Put(now, id, decision)];
    }
  }
}
