/** The shared KV tier: cmd/kvtier/main.go. A byte-bounded, expiring blob store
    with least-recently-used eviction. */
module KvTier {
  import opened Wrappers
  import opened Audio
  import opened Recency
  import StateRefs

  datatype Entry = Entry(blob: Bytes, compatKey: string, stored: int)

  ghost predicate Covers(m: map<string, Entry>, order: seq<string>) {
    forall k :: k in order <==> k in m
  }

  /** The bytes the listed keys hold. */
  function Size(m: map<string, Entry>, order: seq<string>): nat
    requires forall k | k in order :: k in m
  {
    if order == [] then 0 else Size(m, order[..|order|-1]) + |m[order[|order|-1]].blob|
  }

  lemma {:induction false} SizeFrame(m: map<string, Entry>, m': map<string, Entry>, order: seq<string>)
    requires forall k | k in order :: k in m && k in m' && m[k] == m'[k]
    ensures Size(m, order) == Size(m', order)
  {
    if order != [] {
      SizeFrame(m, m', order[..|order|-1]);
    }
  }

  lemma {:induction false} SizeConcat(m: map<string, Entry>, xs: seq<string>, ys: seq<string>)
    requires forall k | k in xs || k in ys :: k in m
    ensures Size(m, xs + ys) == Size(m, xs) + Size(m, ys)
  {
    if ys == [] {
      assert xs + ys == xs;
    } else {
      SizeConcat(m, xs, ys[..|ys|-1]);
      assert (xs + ys)[..|xs + ys|-1] == xs + ys[..|ys|-1];
    }
  }

  lemma SizeOne(m: map<string, Entry>, k: string)
    requires k in m
    ensures Size(m, [k]) == |m[k].blob|
  {
    assert [k][..0] == [];
  }

  lemma {:induction false} SizeWithout(m: map<string, Entry>, order: seq<string>, k: string)
    requires NoDup(order) && forall x | x in order :: x in m
    ensures Size(m, order) == Size(m, Without(order, k)) + if k in order then |m[k].blob| else 0
  {
    if order != [] {
      var head, rest := order[0], order[1..];
      assert order == [head] + rest;
      SizeConcat(m, [head], rest);
      SizeOne(m, head);
      SizeWithout(m, rest, k);
      if head == k {
        assert Without(order, k) == Without(rest, k);
      } else {
        SizeConcat(m, [head], Without(rest, k));
      }
    }
  }

  /** n keys fit and one more would not. */
  ghost predicate LongestFit(m: map<string, Entry>, order: seq<string>, limit: int, n: nat)
    requires forall k | k in order :: k in m
  {
    && n <= |order|
    && (n > 0 ==> Size(m, order[..n]) <= limit)
    && (n < |order| ==> Size(m, order[..n+1]) > limit)
  }

  lemma {:induction false} SizeGrows(m: map<string, Entry>, order: seq<string>, i: nat, j: nat)
    requires forall k | k in order :: k in m
    requires i <= j <= |order|
    ensures Size(m, order[..i]) <= Size(m, order[..j])
  {
    if i < j {
      SizeGrows(m, order, i, j - 1);
      assert order[..j][..j-1] == order[..j-1];
    }
  }

  /** What is left is a run of the most recent keys, with their entries. */
  ghost predicate Kept(full: map<string, Entry>, order: seq<string>, m: map<string, Entry>, lru: seq<string>) {
    && |lru| <= |order| && lru == order[..|lru|]
    && (forall k | k in order :: k in full)
    && (forall k | k in m :: k in full && m[k] == full[k])
  }

  lemma KeptSize(full: map<string, Entry>, order: seq<string>, m: map<string, Entry>, lru: seq<string>)
    requires Kept(full, order, m, lru) && Covers(m, lru)
    ensures Size(m, lru) == Size(full, order[..|lru|])
  {
    SizeFrame(m, full, lru);
  }

  lemma KeptDrop(full: map<string, Entry>, order: seq<string>, before: seq<string>, lru: seq<string>)
    requires |before| <= |order| && before == order[..|before|] && before != [] && lru == before[..|before|-1]
    ensures lru == order[..|lru|] && order[..|lru|+1] == before
  {
  }

  /** So the eviction loop has no choice about where to stop. */
  lemma LongestFitUnique(m: map<string, Entry>, order: seq<string>, limit: int, i: nat, j: nat)
    requires forall k | k in order :: k in m
    requires LongestFit(m, order, limit, i) && LongestFit(m, order, limit, j)
    ensures i == j
  {
    if i < j {
      SizeGrows(m, order, i + 1, j);
    } else if j < i {
      SizeGrows(m, order, j + 1, i);
    }
  }

  predicate Expired(e: Entry, now: int, ttl: int) {
    ttl > 0 && now - e.stored > ttl
  }

  function Evict(m: map<string, Entry>, gone: string -> bool): map<string, Entry> {
    map k | k in m && !gone(k) :: m[k]
  }

  class Tier {
    var m: map<string, Entry>
    var lru: seq<string>
    var bytes: int
    const maxBytes: int
    const ttl: int
    var puts: nat
    var gets: nat
    var hits: nat
    var misses: nat
    var evictions: nat
    var expiries: nat
    var deletes: nat
    var conflicts: nat
    ghost var replaced: nat

    /** Map, recency list and byte counter agree; the counters balance. */
    ghost predicate Valid()
      reads this
    {
      && NoDup(lru) && Covers(m, lru)
      && bytes == Size(m, lru)
      && (lru != [] ==> bytes <= maxBytes)
      && gets == hits + misses
      && puts == |lru| + evictions + expiries + deletes + replaced
    }

    constructor (maxBytes: int, ttl: int)
      ensures Valid() && m == map[] && this.maxBytes == maxBytes && this.ttl == ttl
    {
      m, lru, bytes := map[], [], 0;
      this.maxBytes, this.ttl := maxBytes, ttl;
      puts, gets, hits, misses, evictions, expiries, deletes, conflicts := 0, 0, 0, 0, 0, 0, 0, 0;
      replaced := 0;
    }

    /** Take one resident key out of the map, the list and the count. */
    method Remove(k: string)
      requires NoDup(lru) && Covers(m, lru) && bytes == Size(m, lru) && k in m
      modifies this`m, this`lru, this`bytes
      ensures NoDup(lru) && Covers(m, lru) && bytes == Size(m, lru)
      ensures m == old(m) - {k} && lru == Without(old(lru), k) && |lru| == old(|lru|) - 1
      ensures bytes == old(bytes) - |old(m)[k].blob|
    {
      WithoutNoDup(lru, k);
      SizeWithout(m, lru, k);
      SizeFrame(m, m - {k}, Without(lru, k));
      bytes := bytes - |m[k].blob|;
      lru := Without(lru, k);
      m := m - {k};
    }

    /** Drop keys from the cold end until the rest fits. */
    method EvictOver()
      requires NoDup(lru) && Covers(m, lru) && bytes == Size(m, lru)
      modifies this`m, this`lru, this`bytes, this`evictions
      ensures NoDup(lru) && Covers(m, lru) && bytes == Size(m, lru)
      ensures lru != [] ==> bytes <= maxBytes
      ensures Kept(old(m), old(lru), m, lru)
      ensures LongestFit(old(m), old(lru), maxBytes, |lru|)
      ensures evictions == old(evictions) + |old(lru)| - |lru|
    {
      hide NoDup, Without, Size;
      ghost var full, fullM := lru, m;
      assert full[..|full|] == full;
      while bytes > maxBytes && |lru| > 0
        invariant NoDup(lru) && Covers(m, lru) && bytes == Size(m, lru)
        invariant Kept(fullM, full, m, lru)
        invariant |lru| < |full| ==> Size(fullM, full[..|lru|+1]) > maxBytes
        invariant evictions == old(evictions) + |full| - |lru|
      {
        ghost var before := lru;
        KeptSize(fullM, full, m, lru);
        WithoutLast(lru);
        Remove(lru[|lru| - 1]);
        KeptDrop(fullM, full, before, lru);
        evictions := evictions + 1;
      }
      KeptSize(fullM, full, m, lru);
    }

    /** A key being written again loses its old place and bytes. */
    method DropOld(key: string)
      requires NoDup(lru) && Covers(m, lru) && bytes == Size(m, lru)
      modifies this`m, this`lru, this`bytes, this`replaced
      ensures NoDup(lru) && Covers(m, lru) && bytes == Size(m, lru)
      ensures m == old(m) - {key} && lru == Without(old(lru), key)
      ensures |lru| == |old(lru)| - replaced + old(replaced)
    {
      hide NoDup, Without, Size;
      if key in m {
        Remove(key);
        replaced := replaced + 1;
      } else {
        WithoutAbsent(lru, key);
        assert m == m - {key};
      }
    }

    /** The new entry leads the recency list, and what stays is the longest most
        recent run of keys that fits. */
    method PutLocked(key: string, blob: Bytes, compatKey: string, now: int)
      requires Valid()
      modifies this`m, this`lru, this`bytes, this`puts, this`evictions, this`replaced
      ensures Valid()
      ensures var full, fullM := Touch(old(lru), key), old(m)[key := Entry(blob, compatKey, now)];
              && Kept(fullM, full, m, lru)
              && LongestFit(fullM, full, maxBytes, |lru|)
              && evictions == old(evictions) + |full| - |lru|
      ensures puts == old(puts) + 1
    {
      hide NoDup, Without, Size, Kept, LongestFit;
      var e := Entry(blob, compatKey, now);
      ghost var full, fullM := Touch(lru, key), m[key := e];
      puts := puts + 1;
      DropOld(key);
      Push(m, lru, key, e);
      hide Covers;
      Reput(old(m), key, e);
      m := m[key := e];
      lru := [key] + lru;
      bytes := bytes + |blob|;
      EvictOver();
    }

    method Put(key: string, blob: Bytes, compatKey: string, now: int)
      requires Valid()
      modifies this
      ensures Valid()
      ensures var full, fullM := Touch(old(lru), key), old(m)[key := Entry(blob, compatKey, now)];
              Kept(fullM, full, m, lru) && LongestFit(fullM, full, maxBytes, |lru|)
    {
      PutLocked(key, blob, compatKey, now);
    }

    /** A resident version never changes. Storing succeeds whenever the version
        was absent, yet a blob above the ceiling evicts itself at once. */
    method PutIfAbsent(key: string, blob: Bytes, compatKey: string, now: int) returns (stored: bool)
      requires Valid()
      modifies this
      ensures Valid()
      ensures stored == (key !in old(m))
      ensures !stored ==> m == old(m) && lru == old(lru) && conflicts == old(conflicts) + 1
      ensures forall k | k in m && k != key :: k in old(m) && m[k] == old(m)[k]
      ensures stored ==> (key in m <==> |blob| <= maxBytes)
      ensures key in m && stored ==> m[key] == Entry(blob, compatKey, now)
      ensures stored ==>
                var full, fullM := [key] + old(lru), old(m)[key := Entry(blob, compatKey, now)];
                Kept(fullM, full, m, lru) && LongestFit(fullM, full, maxBytes, |lru|)
    {
      if key in m {
        conflicts := conflicts + 1;
        return false;
      }
      PutLocked(key, blob, compatKey, now);
      stored := true;
      hide NoDup, Without, Size, LongestFit;
      WithoutAbsent(old(lru), key);
      HeadFits(old(m)[key := Entry(blob, compatKey, now)], [key] + old(lru), maxBytes, |lru|);
    }

    /** A live version moves to the front; an expired one is dropped. */
    method Get(key: string, now: int) returns (e: Option<Entry>)
      requires Valid()
      modifies this
      ensures Valid()
      ensures e == if key in old(m) && !Expired(old(m)[key], now, ttl) then Some(old(m)[key]) else None
      ensures e.Some? ==> m == old(m) && lru == Touch(old(lru), key)
      ensures e.None? ==> m == old(m) - {key} && lru == Without(old(lru), key)
      ensures gets == old(gets) + 1 && hits == old(hits) + if e.Some? then 1 else 0
    {
      hide NoDup, Without, Size;
      gets := gets + 1;
      if key !in m {
        misses := misses + 1;
        WithoutAbsent(lru, key);
        assert m == m - {key};
        return None;
      }
      if Expired(m[key], now, ttl) {
        Remove(key);
        expiries, misses := expiries + 1, misses + 1;
        return None;
      }
      e := Some(m[key]);
      TouchSize(m, lru, key);
      lru := Touch(lru, key);
      hits := hits + 1;
    }

    /** Exactly one version goes. */
    method Delete(key: string) returns (found: bool)
      requires Valid()
      modifies this
      ensures Valid()
      ensures found == (key in old(m))
      ensures m == old(m) - {key} && lru == Without(old(lru), key)
    {
      hide NoDup, Without, Size;
      found := key in m;
      if found {
        Remove(key);
        deletes := deletes + 1;
      } else {
        WithoutAbsent(lru, key);
        assert m == m - {key};
      }
    }

    /** Remove every listed key, in whatever order. */
    method RemoveAll(keys: set<string>)
      requires NoDup(lru) && Covers(m, lru) && bytes == Size(m, lru) && keys <= m.Keys
      modifies this`m, this`lru, this`bytes
      ensures NoDup(lru) && Covers(m, lru) && bytes == Size(m, lru)
      ensures m == old(m) - keys && lru == Only(old(lru), m.Keys) && |lru| == |old(lru)| - |keys|
      ensures bytes <= old(bytes)
    {
      hide NoDup, Only, Without, Size;
      var todo := keys;
      OnlyAll(lru, m.Keys) by {
        assert Covers(m, lru);
      }
      while todo != {}
        invariant todo <= keys && todo <= m.Keys
        invariant NoDup(lru) && Covers(m, lru) && bytes == Size(m, lru) <= old(bytes)
        invariant m == old(m) - (keys - todo) && lru == Only(old(lru), m.Keys)
        invariant |lru| == |old(lru)| - |keys| + |todo|
      {
        var k :| k in todo;
        OnlyWithout(old(lru), m.Keys, k);
        Remove(k);
        todo := todo - {k};
      }
    }

    /** A closing session's versions all go, and nobody else's. */
    method DeletePrefix(prefix: string) returns (n: nat)
      requires Valid()
      modifies this
      ensures Valid()
      ensures forall k :: k in m <==> k in old(m) && !StateRefs.HasPrefix(k, prefix)
      ensures forall k | k in m :: m[k] == old(m)[k]
      ensures lru == Only(old(lru), m.Keys) && n == |old(lru)| - |lru|
      ensures deletes == old(deletes) + n
    {
      hide NoDup, Only, Without, Size;
      var gone := set k | k in m && StateRefs.HasPrefix(k, prefix);
      RemoveAll(gone);
      n := |gone|;
      deletes := deletes + n;
    }

    /** StatelessClient.Close: of all versions of any session, exactly the closing
        session's go, and those of a session whose name goes on past its name and a
        colon, which no name free of colons does. */
    method CloseSession(sid: string) returns (n: nat)
      requires Valid()
      modifies this
      ensures Valid() && forall k | k in m :: k in old(m) && m[k] == old(m)[k]
      ensures forall other: string, version: nat ::
                var k := StateRefs.StateRef(StateRefs.Handle(other), version);
                k in m <==> k in old(m) && other != sid && !StateRefs.HasPrefix(other, sid + ":")
      ensures forall other: string, version: nat | !StateRefs.HasColon(other) ::
                var k := StateRefs.StateRef(StateRefs.Handle(other), version);
                k in m <==> k in old(m) && other != sid
    {
      hide StateRefs.StateRef, StateRefs.HasPrefix, StateRefs.HasColon, NoDup, Only;
      n := DeletePrefix(StateRefs.Handle(sid) + ":");
      forall other: string, version: nat
        ensures StateRefs.HasPrefix(StateRefs.StateRef(StateRefs.Handle(other), version), StateRefs.Handle(sid) + ":")
           <==> other == sid || StateRefs.HasPrefix(other, sid + ":")
        ensures !StateRefs.HasColon(other) ==>
                (StateRefs.HasPrefix(StateRefs.StateRef(StateRefs.Handle(other), version), StateRefs.Handle(sid) + ":")
                <==> other == sid)
      {
        StateRefs.PrefixTakes(sid, other, version);
        if !StateRefs.HasColon(other) {
          StateRefs.CloseExact(sid, other, version);
        }
      }
    }

    method Sweep(now: int)
      requires Valid()
      modifies this
      ensures Valid()
      ensures forall k :: k in m <==> k in old(m) && !Expired(old(m)[k], now, ttl)
      ensures forall k | k in m :: m[k] == old(m)[k]
      ensures lru == Only(old(lru), m.Keys) && expiries == old(expiries) + |old(lru)| - |lru|
    {
      hide NoDup, Only, Without, Size;
      var gone := set k | k in m && Expired(m[k], now, ttl);
      if ttl <= 0 {
        OnlyAll(lru, m.Keys) by {
          assert Covers(m, lru);
        }
        return;
      }
      RemoveAll(gone);
      expiries := expiries + |gone|;
    }
  }

  // ---- every run of requests ----

  datatype Request =
    | PutKv(key: string, blob: Bytes, compatKey: string)
    | GetKv(key: string)
    | DeleteKv(key: string, prefix: string)
    | Tick

  datatype Reply =
    | Created(size: nat)
    | Conflict
    | Found(entry: Entry)
    | Missing
    | Deleted(n: nat)
    | NoContent
    | BadRequest

  datatype Event = Event(request: Request, reply: Reply, at: int)

  /** The last entry created under each key. */
  function Latest(log: seq<Event>): map<string, Entry> {
    if log == [] then map[]
    else
      var e := log[|log|-1];
      var before := Latest(log[..|log|-1]);
      if e.reply.Created? && e.request.PutKv?
      then before[e.request.key := Entry(e.request.blob, e.request.compatKey, e.at)]
      else before
  }

  /** A read answers with the last entry created under its key, still live, and
      a refused write means there is one. */
  ghost predicate Honest(log: seq<Event>, ttl: int) {
    log == [] ||
    var e, before := log[|log|-1], Latest(log[..|log|-1]);
    && Honest(log[..|log|-1], ttl)
    && (e.reply.Found? ==> e.request.GetKv? && e.request.key in before
                           && e.reply.entry == before[e.request.key] && !Expired(e.reply.entry, e.at, ttl))
    && (e.reply.Conflict? ==> e.request.PutKv? && e.request.key in before)
  }

  ghost predicate Backed(m: map<string, Entry>, latest: map<string, Entry>) {
    forall k | k in m :: k in latest && m[k] == latest[k]
  }

  lemma LogHonest(log: seq<Event>, e: Event, ttl: int, m: map<string, Entry>)
    requires Honest(log, ttl) && Backed(m, Latest(log))
    requires e.reply.Found? ==> e.request.GetKv? && e.request.key in m
                                && e.reply.entry == m[e.request.key] && !Expired(e.reply.entry, e.at, ttl)
    requires e.reply.Conflict? ==> e.request.PutKv? && e.request.key in m
    ensures Honest(log + [e], ttl)
  {
    assert (log + [e])[..|log|] == log;
  }

  predicate Creates(e: Event, k: string) {
    e.reply.Created? && e.request.PutKv? && e.request.key == k
  }

  lemma LogBacked(log: seq<Event>, e: Event, m: map<string, Entry>, m': map<string, Entry>)
    requires Backed(m, Latest(log))
    requires forall k | k in m' ::
               if Creates(e, k) then m'[k] == Entry(e.request.blob, e.request.compatKey, e.at)
               else k in m && m'[k] == m[k]
    ensures Backed(m', Latest(log + [e]))
  {
    assert (log + [e])[..|log|] == log;
  }

  /** One request, as the HTTP handler dispatches it. */
  method Handle(t: Tier, request: Request, now: int, ghost log: seq<Event>) returns (reply: Reply)
    requires t.Valid() && Honest(log, t.ttl) && Backed(t.m, Latest(log))
    modifies t
    ensures t.Valid() && Honest(log + [Event(request, reply, now)], t.ttl)
    ensures Backed(t.m, Latest(log + [Event(request, reply, now)]))
  {
    hide NoDup, Without, Only, Size, Kept, LongestFit, Honest, Latest, Backed;
    ghost var before := t.m;
    match request {
      case PutKv(key, blob, compatKey) =>
        if key == "" {
          reply := BadRequest;
        } else {
          var stored := t.PutIfAbsent(key, blob, compatKey, now);
          reply := if stored then Created(|blob|) else Conflict;
        }
      case GetKv(key) =>
        if key == "" {
          reply := BadRequest;
        } else {
          var e := t.Get(key, now);
          reply := if e.Some? then Found(e.value) else Missing;
        }
      case DeleteKv(key, prefix) =>
        if prefix != "" {
          var n := t.DeletePrefix(prefix);
          reply := Deleted(n);
        } else {
          var found := t.Delete(key);
          reply := NoContent;
        }
      case Tick =>
        t.Sweep(now);
        reply := NoContent;
    }
    LogHonest(log, Event(request, reply, now), t.ttl, before);
    LogBacked(log, Event(request, reply, now), before, t.m);
  }

  /** Over every run of requests, sweeps and evictions the tier only forgets: it
      never answers with anything but what was last created. */
  method Serve(t: Tier, requests: seq<Request>, times: seq<int>) returns (log: seq<Event>)
    requires t.Valid() && t.m == map[] && |times| == |requests|
    modifies t
    ensures t.Valid() && |log| == |requests| && Honest(log, t.ttl)
    ensures forall i | 0 <= i < |log| :: log[i].request == requests[i] && log[i].at == times[i]
    ensures Backed(t.m, Latest(log))
  {
    log := [];
    for i := 0 to |requests|
      invariant t.Valid() && |log| == i && Honest(log, t.ttl) && Backed(t.m, Latest(log))
      invariant forall j | 0 <= j < i :: log[j].request == requests[j] && log[j].at == times[j]
    {
      var reply := Handle(t, requests[i], times[i], log);
      log := log + [Event(requests[i], reply, times[i])];
    }
  }

  /** The newest key stays exactly when it fits on its own. */
  lemma HeadFits(m: map<string, Entry>, order: seq<string>, limit: int, n: nat)
    requires order != [] && forall k | k in order :: k in m
    requires LongestFit(m, order, limit, n)
    ensures n > 0 <==> |m[order[0]].blob| <= limit
    ensures order[0] in order[..n] <== n > 0
  {
    SizeOne(m, order[0]);
    assert order[..1] == [order[0]];
    if n > 0 {
      SizeGrows(m, order, 1, n);
    }
  }

  lemma TouchSize(m: map<string, Entry>, order: seq<string>, k: string)
    requires NoDup(order) && Covers(m, order) && k in m
    ensures NoDup(Touch(order, k)) && Covers(m, Touch(order, k)) && |Touch(order, k)| == |order|
    ensures Size(m, Touch(order, k)) == Size(m, order)
  {
    hide Size, NoDup;
    TouchNoDup(order, k);
    WithoutNoDup(order, k);
    SizeWithout(m, order, k);
    SizeConcat(m, [k], Without(order, k));
    SizeOne(m, k);
  }

  lemma Reput(m: map<string, Entry>, k: string, e: Entry)
    ensures (m - {k})[k := e] == m[k := e]
  {
  }

  lemma Push(m: map<string, Entry>, order: seq<string>, k: string, e: Entry)
    requires NoDup(order) && Covers(m, order) && k !in order
    ensures NoDup([k] + order) && Covers(m[k := e], [k] + order)
    ensures Size(m[k := e], [k] + order) == Size(m, order) + |e.blob|
  {
    assert ([k] + order)[1..] == order;
    SizeConcat(m[k := e], [k], order);
    SizeOne(m[k := e], k);
    SizeFrame(m, m[k := e], order);
  }
}
