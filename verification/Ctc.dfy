/** Windowed streaming encoders: the push loop of the two KV adapters and greedy
    CTC decoding (worker/adapters/conformer_ctc_kv.py, zipformer_kv.py). The
    encoder itself is any function of a window and a cache. */
module Ctc {

  const BLANK := 1024

  /** The model: what a window does to the cache, and the token it scores highest for
      each frame it puts out. */
  datatype Encoder<!F, !C> = Encoder(absorb: (seq<F>, C) -> C, ids: (seq<F>, C) -> seq<nat>)

  // ---- windows ----

  /** Whole windows, each shift frames on from the one before. */
  function Windows<F>(window: nat, shift: nat, frames: seq<F>): seq<seq<F>>
    requires 0 < shift <= window
    decreases |frames|
  {
    if |frames| < window then [] else [frames[..window]] + Windows(window, shift, frames[shift..])
  }

  /** What no whole window has moved past yet. */
  function Seam<F>(window: nat, shift: nat, frames: seq<F>): (rest: seq<F>)
    requires 0 < shift <= window
    ensures |rest| < window
    decreases |frames|
  {
    if |frames| < window then frames else Seam(window, shift, frames[shift..])
  }

  /** k windows' worth of frames. */
  function Steps(shift: nat, k: nat): nat {
    if k == 0 then 0 else Steps(shift, k - 1) + shift
  }

  /** Independently of the loop: the k-th window starts k shifts in ... */
  lemma {:induction false} WindowAt<F>(window: nat, shift: nat, frames: seq<F>, k: nat)
    requires 0 < shift <= window && k < |Windows(window, shift, frames)|
    ensures Steps(shift, k) + window <= |frames|
    ensures Windows(window, shift, frames)[k] == frames[Steps(shift, k)..Steps(shift, k) + window]
    decreases k
  {
    if k > 0 {
      var rest := frames[shift..];
      WindowAt(window, shift, rest, k - 1);
      StepsFirst(shift, k - 1);
      var i := Steps(shift, k - 1);
      assert rest[i..i + window] == frames[shift + i..shift + i + window];
    }
  }

  /** ... there are as many as fit, and the seam is the rest. */
  lemma {:induction false} SeamAt<F>(window: nat, shift: nat, frames: seq<F>)
    requires 0 < shift <= window
    ensures var n := Steps(shift, |Windows(window, shift, frames)|);
            n <= |frames| < n + window && Seam(window, shift, frames) == frames[n..]
    decreases |frames|
  {
    if |frames| >= window {
      var rest := frames[shift..];
      SeamAt(window, shift, rest);
      StepsFirst(shift, |Windows(window, shift, rest)|);
      var i := Steps(shift, |Windows(window, shift, rest)|);
      assert rest[i..] == frames[shift + i..];
    }
  }

  lemma {:induction false} StepsFirst(shift: nat, k: nat)
    ensures Steps(shift, k + 1) == shift + Steps(shift, k)
  {
    if k > 0 {
      StepsFirst(shift, k - 1);
    }
  }

  /** Feeding in two pieces cuts the same windows and leaves the same seam. */
  lemma {:induction false} WindowsSplit<F>(window: nat, shift: nat, xs: seq<F>, ys: seq<F>)
    requires 0 < shift <= window
    ensures Windows(window, shift, xs + ys)
         == Windows(window, shift, xs) + Windows(window, shift, Seam(window, shift, xs) + ys)
    ensures Seam(window, shift, xs + ys) == Seam(window, shift, Seam(window, shift, xs) + ys)
    decreases |xs|
  {
    if |xs| < window {
      assert [] + Windows(window, shift, xs + ys) == Windows(window, shift, xs + ys);
    } else {
      WindowsSplit(window, shift, xs[shift..], ys);
      assert (xs + ys)[shift..] == xs[shift..] + ys && (xs + ys)[..window] == xs[..window];
    }
  }

  // ---- greedy decoding ----

  /** Tokens the loop emits, the last one seen carried in. */
  function Emitted(last: int, ids: seq<nat>): seq<nat>
    decreases |ids|
  {
    if ids == [] then []
    else (if ids[0] != last && ids[0] != BLANK then [ids[0]] else []) + Emitted(ids[0], ids[1..])
  }

  function Last(last: int, ids: seq<nat>): int {
    if ids == [] then last else ids[|ids|-1]
  }

  /** The textbook rule: one of each run of equal tokens, blanks dropped afterwards. */
  function Collapsed(ids: seq<nat>): seq<nat>
    decreases |ids|
  {
    if |ids| <= 1 then ids
    else if ids[0] == ids[1] then Collapsed(ids[1..])
    else [ids[0]] + Collapsed(ids[1..])
  }

  function Unblank(ids: seq<nat>): seq<nat>
    decreases |ids|
  {
    if ids == [] then [] else (if ids[0] == BLANK then [] else [ids[0]]) + Unblank(ids[1..])
  }

  /** With a token carried in, decoding is the rule on the ids with that token put in
      front, less its own contribution. */
  lemma {:induction false} EmittedAfter(last: nat, ids: seq<nat>)
    ensures Unblank(Collapsed([last] + ids)) == Unblank([last]) + Emitted(last, ids)
    decreases |ids|
  {
    if ids == [] {
      assert [last] + ids == [last] && Unblank([last]) + [] == Unblank([last]);
    } else {
      var id, rest := ids[0], ids[1..];
      assert ids == [id] + rest;
      EmittedAfter(id, rest);
      hide Emitted;
      EmittedFirst(last, id, rest);
      UnblankOne(id);
      UnblankOne(last);
      CollapsedTwo(last, id, rest);
      if last == id {
        assert [] + Emitted(id, rest) == Emitted(id, rest);
      } else {
        UnblankFirst(last, Collapsed(ids));
      }
    }
  }

  lemma CollapsedTwo(last: nat, id: nat, rest: seq<nat>)
    ensures Collapsed([last] + ([id] + rest)) == (if last == id then [] else [last]) + Collapsed([id] + rest)
  {
    var all := [last] + ([id] + rest);
    assert all[1..] == [id] + rest && all[1] == id;
    assert [] + Collapsed([id] + rest) == Collapsed([id] + rest);
  }

  lemma UnblankFirst(id: nat, ids: seq<nat>)
    ensures Unblank([id] + ids) == Unblank([id]) + Unblank(ids)
  {
    UnblankOne(id);
    assert ([id] + ids)[1..] == ids;
  }

  lemma UnblankOne(id: nat)
    ensures Unblank([id]) == if id == BLANK then [] else [id]
  {
    assert [id][1..] == [];
  }

  /** From a fresh state greedy decoding is collapse-then-drop-blanks. */
  lemma GreedyIsCtc(ids: seq<nat>)
    ensures Emitted(-1, ids) == Unblank(Collapsed(ids))
  {
    if ids != [] {
      assert ids == [ids[0]] + ids[1..];
      EmittedAfter(ids[0], ids[1..]);
      UnblankOne(ids[0]);
    }
  }

  function First(last: int, id: nat): seq<nat> {
    if id != last && id != BLANK then [id] else []
  }

  lemma EmittedFirst(last: int, id: nat, ids: seq<nat>)
    ensures Emitted(last, [id] + ids) == First(last, id) + Emitted(id, ids)
  {
    assert ([id] + ids)[1..] == ids;
  }

  lemma {:induction false} EmittedSplit(last: int, xs: seq<nat>, ys: seq<nat>)
    ensures Emitted(last, xs + ys) == Emitted(last, xs) + Emitted(Last(last, xs), ys)
    decreases |xs|
  {
    if xs == [] {
      assert xs + ys == ys && [] + Emitted(last, ys) == Emitted(last, ys);
    } else {
      hide Emitted;
      var id, rest := xs[0], xs[1..];
      assert xs == [id] + rest && xs + ys == [id] + (rest + ys);
      EmittedSplit(id, rest, ys);
      EmittedFirst(last, id, rest);
      EmittedFirst(last, id, rest + ys);
      Associate(First(last, id), Emitted(id, rest), Emitted(Last(last, xs), ys));
    }
  }

  // ---- a session's state ----

  /** The cache, the frames held back, how many were consumed, and the transcript. */
  datatype State<F, C> = State(cache: C, pending: seq<F>, consumed: nat, tokens: seq<nat>, last: int)

  /** The cache after the windows, and every id they scored. */
  function Cache<F, C>(e: Encoder<F, C>, cache: C, ws: seq<seq<F>>): C
    decreases |ws|
  {
    if ws == [] then cache else Cache(e, e.absorb(ws[0], cache), ws[1..])
  }

  function Ids<F, C>(e: Encoder<F, C>, cache: C, ws: seq<seq<F>>): seq<nat>
    decreases |ws|
  {
    if ws == [] then [] else e.ids(ws[0], cache) + Ids(e, e.absorb(ws[0], cache), ws[1..])
  }

  lemma {:induction false} CacheSplit<F, C>(e: Encoder<F, C>, cache: C, xs: seq<seq<F>>, ys: seq<seq<F>>)
    ensures Cache(e, cache, xs + ys) == Cache(e, Cache(e, cache, xs), ys)
    ensures Ids(e, cache, xs + ys) == Ids(e, cache, xs) + Ids(e, Cache(e, cache, xs), ys)
  {
    if xs == [] {
      assert xs + ys == ys && [] + Ids(e, cache, ys) == Ids(e, cache, ys);
    } else {
      CacheSplit(e, e.absorb(xs[0], cache), xs[1..], ys);
      assert (xs + ys)[1..] == xs[1..] + ys;
    }
  }

  /** One push. */
  function Pushed<F, C>(e: Encoder<F, C>, window: nat, shift: nat, st: State<F, C>, frames: seq<F>): State<F, C>
    requires 0 < shift <= window
  {
    var all := st.pending + frames;
    var ws := Windows(window, shift, all);
    var ids := Ids(e, st.cache, ws);
    State(Cache(e, st.cache, ws), Seam(window, shift, all), st.consumed + Steps(shift, |ws|),
          st.tokens + Emitted(st.last, ids), Last(st.last, ids))
  }

  lemma {:induction false} StepsSum(shift: nat, m: nat, n: nat)
    ensures Steps(shift, m + n) == Steps(shift, m) + Steps(shift, n)
  {
    if n > 0 {
      StepsSum(shift, m, n - 1);
    }
  }

  lemma LastSplit(last: int, xs: seq<nat>, ys: seq<nat>)
    ensures Last(last, xs + ys) == Last(Last(last, xs), ys)
  {
  }

  /** Two pushes are one. */
  lemma PushSplit<F, C>(e: Encoder<F, C>, window: nat, shift: nat, st: State<F, C>, xs: seq<F>, ys: seq<F>)
    requires 0 < shift <= window
    ensures Pushed(e, window, shift, Pushed(e, window, shift, st, xs), ys) == Pushed(e, window, shift, st, xs + ys)
  {
    var all := st.pending + xs;
    assert all + ys == st.pending + (xs + ys);
    WindowsSplit(window, shift, all, ys);
    var ws, vs := Windows(window, shift, all), Windows(window, shift, Seam(window, shift, all) + ys);
    CacheSplit(e, st.cache, ws, vs);
    var a, b := Ids(e, st.cache, ws), Ids(e, Cache(e, st.cache, ws), vs);
    EmittedSplit(st.last, a, b);
    LastSplit(st.last, a, b);
    StepsSum(shift, |ws|, |vs|);
    assert st.tokens + Emitted(st.last, a) + Emitted(Last(st.last, a), b)
        == st.tokens + (Emitted(st.last, a) + Emitted(Last(st.last, a), b));
  }

  function Whole<F>(pieces: seq<seq<F>>): seq<F> {
    if pieces == [] then [] else Whole(pieces[..|pieces|-1]) + pieces[|pieces|-1]
  }

  function PushedAll<F, C>(e: Encoder<F, C>, window: nat, shift: nat, st: State<F, C>, pieces: seq<seq<F>>): State<F, C>
    requires 0 < shift <= window
  {
    if pieces == [] then st
    else Pushed(e, window, shift, PushedAll(e, window, shift, st, pieces[..|pieces|-1]), pieces[|pieces|-1])
  }

  /** However the frames are divided into pushes, a fresh session encodes the windows of
      the whole, holds back its seam, has consumed as much, and has emitted what the
      rule gives for the whole id sequence. */
  lemma {:induction false} AnySplit<F, C>(e: Encoder<F, C>, window: nat, shift: nat, cache: C, pieces: seq<seq<F>>)
    requires 0 < shift <= window
    ensures var st, all := PushedAll(e, window, shift, State(cache, [], 0, [], -1), pieces), Whole(pieces);
            var ws := Windows(window, shift, all);
            && st.pending == Seam(window, shift, all) && st.consumed == Steps(shift, |ws|)
            && st.cache == Cache(e, cache, ws)
            && st.tokens == Unblank(Collapsed(Ids(e, cache, ws)))
  {
    AnySplitFrom(e, window, shift, State(cache, [], 0, [], -1), pieces);
    var all := Whole(pieces);
    assert [] + all == all;
    GreedyIsCtc(Ids(e, cache, Windows(window, shift, all)));
  }

  lemma {:induction false} AnySplitFrom<F, C>(e: Encoder<F, C>, window: nat, shift: nat, st: State<F, C>,
                                              pieces: seq<seq<F>>)
    requires 0 < shift <= window && |st.pending| < window
    ensures PushedAll(e, window, shift, st, pieces) == Pushed(e, window, shift, st, Whole(pieces))
  {
    if pieces == [] {
      assert st.pending + [] == st.pending && st.tokens + [] == st.tokens;
    } else {
      AnySplitFrom(e, window, shift, st, pieces[..|pieces|-1]);
      PushSplit(e, window, shift, st, Whole(pieces[..|pieces|-1]), pieces[|pieces|-1]);
    }
  }

  // ---- the adapters ----

  /** The CTC adapter's per-session state, updated in place. */
  class Conformer<F, C> {
    const e: Encoder<F, C>
    const window: nat
    const shift: nat
    const zero: F
    var cache: C
    var pending: seq<F>
    var consumed: nat
    var tokens: seq<nat>
    var last: int

    ghost predicate Valid()
      reads this
    {
      0 < shift <= window && |pending| < window
    }

    ghost function View(): State<F, C>
      reads this
    {
      State(cache, pending, consumed, tokens, last)
    }

    constructor (e: Encoder<F, C>, window: nat, shift: nat, zero: F, cache: C)
      requires 0 < shift <= window
      ensures Valid() && View() == State(cache, [], 0, [], -1)
      ensures this.e == e && this.window == window && this.shift == shift && this.zero == zero
    {
      this.e, this.window, this.shift, this.zero := e, window, shift, zero;
      this.cache, pending, consumed, tokens, last := cache, [], 0, [], -1;
    }

    /** Encode every whole window; what is left is held back. */
    method Infer(frames: seq<F>)
      requires Valid()
      modifies this
      ensures Valid() && View() == Pushed(e, window, shift, old(View()), frames)
    {
      var rest := pending + frames;
      ghost var st, all, done := View(), rest, [];
      Start(e, st);
      while |rest| >= window
        invariant Caught(e, window, shift, st, all, done, rest, View())
        decreases |rest|
      {
        CatchUp(e, window, shift, st, all, done, rest, View());
        ghost var before := View();
        done := done + [rest[..window]];
        Encode(rest[..window]);
        rest := rest[shift..];
        consumed := consumed + shift;
      }
      pending := rest;
      assert done + [] == done;
    }

    method Encode(w: seq<F>)
      modifies this`cache, this`tokens, this`last
      ensures cache == e.absorb(w, old(cache))
      ensures tokens == old(tokens) + Emitted(old(last), e.ids(w, old(cache)))
      ensures last == Last(old(last), e.ids(w, old(cache)))
    {
      var ids := e.ids(w, cache);
      cache := e.absorb(w, cache);
      Decode(ids);
    }

    /** Greedy: one token for each run, no blanks; the last id seen carries over. */
    method Decode(ids: seq<nat>)
      modifies this`tokens, this`last
      ensures tokens == old(tokens) + Emitted(old(last), ids) && last == Last(old(last), ids)
    {
      var emitted: seq<nat> := [];
      for i := 0 to |ids|
        invariant emitted == Emitted(old(last), ids[..i]) && last == Last(old(last), ids[..i]) && tokens == old(tokens)
      {
        EmittedSplit(old(last), ids[..i], [ids[i]]);
        assert ids[..i+1] == ids[..i] + [ids[i]] && [ids[i]][1..] == [];
        if ids[i] != last && ids[i] != BLANK {
          emitted := emitted + [ids[i]];
        }
        last := ids[i];
      }
      assert ids[..|ids|] == ids;
      if |emitted| > 0 {
        tokens := tokens + emitted;
      }
    }

    /** A padded last window, the transcript handed over, and a new utterance that keeps
        the cache. */
    method Finalize() returns (said: seq<nat>)
      requires Valid()
      modifies this
      ensures Valid() && pending == [] && tokens == [] && last == -1 && consumed == old(consumed)
      ensures var w := old(pending) + seq(window - |old(pending)|, _ => zero);
              if old(pending) == [] then said == old(tokens) && cache == old(cache)
              else cache == e.absorb(w, old(cache)) && said == old(tokens) + Emitted(old(last), e.ids(w, old(cache)))
    {
      if |pending| > 0 {
        Encode(pending + seq(window - |pending|, _ => zero));
      }
      said := tokens;
      tokens, last, pending := [], -1, [];
    }
  }

  /** The loop has done what the windows up to rest call for. */
  ghost predicate Caught<F, C>(e: Encoder<F, C>, window: nat, shift: nat, st: State<F, C>, all: seq<F>,
                               done: seq<seq<F>>,
                               rest: seq<F>, now: State<F, C>)
  {
    && 0 < shift <= window
    && Windows(window, shift, all) == done + Windows(window, shift, rest)
    && Seam(window, shift, all) == Seam(window, shift, rest)
    && now.cache == Cache(e, st.cache, done) && now.consumed == st.consumed + Steps(shift, |done|)
    && now.tokens == st.tokens + Emitted(st.last, Ids(e, st.cache, done))
    && now.last == Last(st.last, Ids(e, st.cache, done))
  }

  lemma Start<F, C>(e: Encoder<F, C>, st: State<F, C>)
    ensures Cache(e, st.cache, []) == st.cache && Ids(e, st.cache, []) == []
    ensures st.tokens + Emitted(st.last, []) == st.tokens
  {
  }

  /** One more window. */
  lemma CatchUp<F, C>(e: Encoder<F, C>, window: nat, shift: nat, st: State<F, C>, all: seq<F>, done: seq<seq<F>>,
                      rest: seq<F>, now: State<F, C>)
    requires Caught(e, window, shift, st, all, done, rest, now) && |rest| >= window
    ensures var w := rest[..window];
            var ids := e.ids(w, now.cache);
            Caught(e, window, shift, st, all, done + [w], rest[shift..],
                   now.(cache := e.absorb(w, now.cache), consumed := now.consumed + shift,
                        tokens := now.tokens + Emitted(now.last, ids), last := Last(now.last, ids)))
  {
    var w := rest[..window];
    Associate(done, [w], Windows(window, shift, rest[shift..]));
    CacheSplit(e, st.cache, done, [w]);
    OneWindow(e, now.cache, w);
    var a, b := Ids(e, st.cache, done), e.ids(w, now.cache);
    EmittedSplit(st.last, a, b);
    LastSplit(st.last, a, b);
    Associate(st.tokens, Emitted(st.last, a), Emitted(now.last, b));
  }

  lemma OneWindow<F, C>(e: Encoder<F, C>, cache: C, w: seq<F>)
    ensures Cache(e, cache, [w]) == e.absorb(w, cache) && Ids(e, cache, [w]) == e.ids(w, cache)
  {
    assert [w][1..] == [];
    assert e.ids(w, cache) + [] == e.ids(w, cache);
  }

  lemma Associate<T>(a: seq<T>, b: seq<T>, c: seq<T>)
    ensures (a + b) + c == a + (b + c)
  {
  }

  /** The transducer adapter's loop: the same windows, its search part of the cache. */
  class Zipformer<F, C> {
    const e: Encoder<F, C>
    const window: nat
    const advance: nat
    var cache: C
    var pending: seq<F>
    var consumed: nat

    constructor (e: Encoder<F, C>, window: nat, advance: nat, cache: C)
      requires 0 < advance <= window
      ensures this.e == e && this.window == window && this.advance == advance
      ensures this.cache == cache && pending == [] && consumed == 0
    {
      this.e, this.window, this.advance, this.cache, pending, consumed := e, window, advance, cache, [], 0;
    }

    method Consume(frames: seq<F>)
      requires 0 < advance <= window
      modifies this
      ensures var ws := Windows(window, advance, frames);
              && pending == Seam(window, advance, frames) && consumed == old(consumed) + Steps(advance, |ws|)
              && cache == Cache(e, old(cache), ws)
    {
      var rest := frames;
      ghost var done: seq<seq<F>> := [];
      assert [] + Windows(window, advance, frames) == Windows(window, advance, frames);
      while |rest| >= window
        invariant Windows(window, advance, frames) == done + Windows(window, advance, rest)
        invariant Seam(window, advance, frames) == Seam(window, advance, rest)
        invariant cache == Cache(e, old(cache), done) && consumed == old(consumed) + Steps(advance, |done|)
        decreases |rest|
      {
        ghost var w := rest[..window];
        Associate(done, [w], Windows(window, advance, rest[advance..]));
        CacheSplit(e, old(cache), done, [w]);
        OneWindow(e, cache, w);
        done := done + [w];
        cache := e.absorb(rest[..window], cache);
        rest := rest[advance..];
        consumed := consumed + advance;
      }
      pending := rest;
      assert done + [] == done;
    }
  }
}
