/** Duration-based chunk cutting: internal/audio/pipeline.go.

    Durations are counted in samples. The session format is locked to 16 kHz
    mono s16le, so a frame lasts exactly samples/16 milliseconds. */
module Audio {
  newtype byte = b: int | 0 <= b < 256
  type Bytes = seq<byte>

  const SAMPLES_PER_MS := 16

  /** One journaled frame together with its recorded voice decision. */
  datatype Record = Record(seqNo: nat, samples: nat, voiced: bool, payload: Bytes)

  /** What a backend sees of a chunk: the span it covers and its audio. */
  datatype Piece = Piece(seqStart: nat, seqEnd: nat, bytes: Bytes)

  /** A chunk as dispatched, carrying the pipeline-local identifier. */
  datatype Chunk = Chunk(id: nat, piece: Piece)

  /** The chunk in progress. */
  datatype Pending = NoPending | Pending(start: nat, end: nat, bytes: Bytes, samples: nat)

  function Pieces(cs: seq<Chunk>): (ps: seq<Piece>)
    ensures |ps| == |cs|
    ensures forall i | 0 <= i < |cs| :: ps[i] == cs[i].piece
  {
    seq(|cs|, i requires 0 <= i < |cs| => cs[i].piece)
  }

  // ---- sums over records ----

  lemma Associate<T>(a: seq<T>, b: seq<T>, c: seq<T>)
    ensures (a + b) + c == a + (b + c)
  {
  }

  function Total(rs: seq<Record>): nat {
    if rs == [] then 0 else Total(rs[..|rs|-1]) + rs[|rs|-1].samples
  }

  function Payload(rs: seq<Record>): Bytes {
    if rs == [] then [] else Payload(rs[..|rs|-1]) + rs[|rs|-1].payload
  }

  function Spoken(rs: seq<Record>): seq<Record> {
    if rs == [] then []
    else
      var r := rs[|rs|-1];
      Spoken(rs[..|rs|-1]) + if r.voiced then [r] else []
  }

  function Audible(ps: seq<Piece>): Bytes {
    if ps == [] then [] else Audible(ps[..|ps|-1]) + ps[|ps|-1].bytes
  }

  lemma {:induction false} TotalConcat(xs: seq<Record>, ys: seq<Record>)
    ensures Total(xs + ys) == Total(xs) + Total(ys)
  {
    if ys == [] {
      assert xs + ys == xs;
    } else {
      TotalConcat(xs, ys[..|ys|-1]);
      assert (xs + ys)[..|xs + ys|-1] == xs + ys[..|ys|-1];
    }
  }

  lemma AudibleSnoc(ps: seq<Piece>, p: Piece)
    ensures Audible(ps + [p]) == Audible(ps) + p.bytes
  {
    assert (ps + [p])[..|ps|] == ps;
  }

  lemma {:induction false} AudibleConcat(xs: seq<Piece>, ys: seq<Piece>)
    ensures Audible(xs + ys) == Audible(xs) + Audible(ys)
  {
    if ys == [] {
      assert xs + ys == xs && Audible(xs) + [] == Audible(xs);
    } else {
      hide Audible;
      var init, y := ys[..|ys|-1], ys[|ys|-1];
      assert xs + ys == (xs + init) + [y] && ys == init + [y];
      AudibleConcat(xs, init);
      AudibleSnoc(xs + init, y);
      AudibleSnoc(init, y);
      Associate(Audible(xs), Audible(init), y.bytes);
    }
  }

  // ---- the cutting machine ----

  /** The chunk in progress with one more voiced record in it. */
  function Extend(p: Pending, r: Record): (q: Pending)
    ensures q.Pending?
  {
    match p
    case NoPending => Pending(r.seqNo, r.seqNo, r.payload, r.samples)
    case Pending(start, _, bytes, n) => Pending(start, r.seqNo, bytes + r.payload, n + r.samples)
  }

  function PieceOf(p: Pending): Piece
    requires p.Pending?
  {
    Piece(p.start, p.end, p.bytes)
  }

  /** One record through the accumulator: what it holds afterwards ... */
  function FeedState(limit: nat, p: Pending, r: Record): Pending {
    if !r.voiced then p
    else if Extend(p, r).samples < limit then Extend(p, r)
    else NoPending
  }

  /** ... and what it emits. */
  function FeedOut(limit: nat, p: Pending, r: Record): seq<Piece> {
    if r.voiced && Extend(p, r).samples >= limit then [PieceOf(Extend(p, r))] else []
  }

  function ForceCut(p: Pending): seq<Piece> {
    if p.Pending? then [PieceOf(p)] else []
  }

  /** A whole record list through the accumulator, starting from p. */
  function CutState(limit: nat, p: Pending, rs: seq<Record>): Pending {
    if rs == [] then p
    else FeedState(limit, CutState(limit, p, rs[..|rs|-1]), rs[|rs|-1])
  }

  function CutOut(limit: nat, p: Pending, rs: seq<Record>): seq<Piece> {
    if rs == [] then []
    else CutOut(limit, p, rs[..|rs|-1]) + FeedOut(limit, CutState(limit, p, rs[..|rs|-1]), rs[|rs|-1])
  }

  /** Replay from an empty accumulator. */
  function Recut(limit: nat, rs: seq<Record>): seq<Piece> {
    CutOut(limit, NoPending, rs)
  }

  function Held(limit: nat, rs: seq<Record>): Pending {
    CutState(limit, NoPending, rs)
  }

  lemma CutSnoc(limit: nat, p: Pending, xs: seq<Record>, r: Record)
    ensures CutState(limit, p, xs + [r]) == FeedState(limit, CutState(limit, p, xs), r)
    ensures CutOut(limit, p, xs + [r]) == CutOut(limit, p, xs) + FeedOut(limit, CutState(limit, p, xs), r)
  {
    assert (xs + [r])[..|xs + [r]|-1] == xs;
  }

  lemma {:induction false} CutConcat(limit: nat, p: Pending, xs: seq<Record>, ys: seq<Record>)
    ensures CutState(limit, p, xs + ys) == CutState(limit, CutState(limit, p, xs), ys)
    ensures CutOut(limit, p, xs + ys) == CutOut(limit, p, xs) + CutOut(limit, CutState(limit, p, xs), ys)
  {
    hide FeedState, FeedOut;
    if ys == [] {
      assert xs + ys == xs;
    } else {
      var init, y := ys[..|ys|-1], ys[|ys|-1];
      CutConcat(limit, p, xs, init);
      CutSnoc(limit, p, xs + init, y);
      assert xs + ys == (xs + init) + [y];
      var q := CutState(limit, p, xs);
      Associate(CutOut(limit, p, xs), CutOut(limit, q, init), FeedOut(limit, CutState(limit, q, init), y));
    }
  }

  // ---- what cutting means, without the machine ----

  function Flatten(gs: seq<seq<Record>>): seq<Record> {
    if gs == [] then [] else gs[0] + Flatten(gs[1..])
  }

  /** A group becomes one chunk: it reaches the limit only with its last record. */
  ghost predicate FullGroup(limit: nat, g: seq<Record>) {
    g != [] && Total(g) >= limit && Total(g[..|g|-1]) < limit
  }

  /** The voiced records of rs split, in order, into full groups and a short rest. */
  ghost predicate Greedy(limit: nat, rs: seq<Record>, gs: seq<seq<Record>>, rest: seq<Record>) {
    && (forall i | 0 <= i < |gs| :: FullGroup(limit, gs[i]))
    && Total(rest) < limit
    && Flatten(gs) + rest == Spoken(rs)
  }

  function GroupPiece(g: seq<Record>): Piece
    requires g != []
  {
    Piece(g[0].seqNo, g[|g|-1].seqNo, Payload(g))
  }

  function RestPending(rest: seq<Record>): Pending {
    if rest == [] then NoPending
    else Pending(rest[0].seqNo, rest[|rest|-1].seqNo, Payload(rest), Total(rest))
  }

  lemma {:induction false} FlattenSnoc(gs: seq<seq<Record>>, g: seq<Record>)
    ensures Flatten(gs + [g]) == Flatten(gs) + g
  {
    if gs == [] {
      assert Flatten([g]) == g + Flatten([]);
    } else {
      FlattenSnoc(gs[1..], g);
      assert (gs + [g])[1..] == gs[1..] + [g];
    }
  }

  lemma ExtendRest(rest: seq<Record>, r: Record)
    ensures Extend(RestPending(rest), r) == RestPending(rest + [r])
    ensures PieceOf(Extend(RestPending(rest), r)) == GroupPiece(rest + [r])
  {
    var g := rest + [r];
    assert g[..|g|-1] == rest;
    assert Payload(g) == Payload(rest) + r.payload;
    assert Total(g) == Total(rest) + r.samples;
    if rest == [] {
      assert Payload(g) == r.payload;
    } else {
      assert g[0] == rest[0];
    }
  }

  /** The machine cuts exactly along a greedy partition. */
  lemma {:induction false} CutIsGreedy(limit: nat, rs: seq<Record>)
      returns (gs: seq<seq<Record>>, rest: seq<Record>)
    requires limit > 0
    ensures Greedy(limit, rs, gs, rest)
    ensures |gs| == |Recut(limit, rs)|
    ensures forall i | 0 <= i < |gs| :: gs[i] != [] && Recut(limit, rs)[i] == GroupPiece(gs[i])
    ensures Held(limit, rs) == RestPending(rest)
  {
    if rs == [] {
      gs, rest := [], [];
    } else {
      var r := rs[|rs|-1];
      gs, rest := CutIsGreedy(limit, rs[..|rs|-1]);
      if r.voiced {
        var g := rest + [r];
        ExtendRest(rest, r);
        assert g[..|g|-1] == rest;
        assert Flatten(gs) + g == Spoken(rs);
        if Total(g) < limit {
          rest := g;
        } else {
          FlattenSnoc(gs, g);
          gs, rest := gs + [g], [];
        }
      }
    }
  }

  lemma TotalPrefix(xs: seq<Record>, n: nat)
    requires n <= |xs|
    ensures Total(xs[..n]) <= Total(xs)
  {
    TotalConcat(xs[..n], xs[n..]);
    assert xs[..n] + xs[n..] == xs;
  }

  lemma HeadGroupNoLonger(limit: nat, g: seq<Record>, xs: seq<Record>, h: seq<Record>, ys: seq<Record>)
    requires FullGroup(limit, g) && FullGroup(limit, h) && g + xs == h + ys
    ensures |g| <= |h|
  {
    if |h| < |g| {
      var init := g[..|g|-1];
      assert h == (h + ys)[..|h|] == (g + xs)[..|h|] == init[..|h|];
      TotalPrefix(init, |h|);
    }
  }

  /** The head group of a greedy partition is determined by the flat list. */
  lemma HeadGroupUnique(limit: nat, g: seq<Record>, xs: seq<Record>, h: seq<Record>, ys: seq<Record>)
    requires FullGroup(limit, g) && FullGroup(limit, h) && g + xs == h + ys
    ensures g == h && xs == ys
  {
    HeadGroupNoLonger(limit, g, xs, h, ys);
    HeadGroupNoLonger(limit, h, ys, g, xs);
    assert g == (g + xs)[..|g|] && h == (h + ys)[..|g|];
    assert xs == (g + xs)[|g|..] && ys == (h + ys)[|g|..];
  }

  lemma NoGroupFits(limit: nat, rest: seq<Record>, h: seq<Record>, ys: seq<Record>)
    requires Total(rest) < limit && rest == h + ys
    ensures !FullGroup(limit, h)
  {
    TotalPrefix(rest, |h|);
    assert rest[..|h|] == h;
  }

  /** There is only one greedy partition, so CutIsGreedy fixes every chunk. */
  lemma {:induction false} GreedyUnique(limit: nat, rs: seq<Record>,
                                        gs: seq<seq<Record>>, rest: seq<Record>,
                                        hs: seq<seq<Record>>, rest': seq<Record>)
    requires Greedy(limit, rs, gs, rest) && Greedy(limit, rs, hs, rest')
    ensures gs == hs && rest == rest'
  {
    GreedyUniqueFlat(limit, gs, rest, hs, rest');
  }

  lemma FlattenHead(gs: seq<seq<Record>>, rest: seq<Record>)
    requires gs != []
    ensures Flatten(gs) + rest == gs[0] + (Flatten(gs[1..]) + rest)
  {
  }

  lemma NoGroups(limit: nat, rest: seq<Record>, hs: seq<seq<Record>>, rest': seq<Record>)
    requires forall i | 0 <= i < |hs| :: FullGroup(limit, hs[i])
    requires Total(rest) < limit
    requires rest == Flatten(hs) + rest'
    ensures hs == [] && rest == rest'
  {
    if hs == [] {
      assert Flatten(hs) + rest' == rest';
    } else {
      FlattenHead(hs, rest');
      NoGroupFits(limit, rest, hs[0], Flatten(hs[1..]) + rest');
    }
  }

  lemma {:induction false} GreedyUniqueFlat(limit: nat, gs: seq<seq<Record>>, rest: seq<Record>,
                                            hs: seq<seq<Record>>, rest': seq<Record>)
    requires forall i | 0 <= i < |gs| :: FullGroup(limit, gs[i])
    requires forall i | 0 <= i < |hs| :: FullGroup(limit, hs[i])
    requires Total(rest) < limit && Total(rest') < limit
    requires Flatten(gs) + rest == Flatten(hs) + rest'
    ensures gs == hs && rest == rest'
    decreases |gs|
  {
    if gs == [] {
      assert Flatten(gs) + rest == rest;
      NoGroups(limit, rest, hs, rest');
    } else if hs == [] {
      assert Flatten(hs) + rest' == rest';
      NoGroups(limit, rest', gs, rest);
    } else {
      FlattenHead(gs, rest);
      FlattenHead(hs, rest');
      HeadGroupUnique(limit, gs[0], Flatten(gs[1..]) + rest, hs[0], Flatten(hs[1..]) + rest');
      GreedyUniqueFlat(limit, gs[1..], rest, hs[1..], rest');
    }
  }

  /** The machine's chunks and its chunk in progress are those of the greedy
      partition, whichever way that partition was found. */
  lemma GreedyDetermines(limit: nat, rs: seq<Record>, gs: seq<seq<Record>>, rest: seq<Record>)
    requires Greedy(limit, rs, gs, rest)
    ensures |Recut(limit, rs)| == |gs|
    ensures forall i | 0 <= i < |gs| :: gs[i] != [] && Recut(limit, rs)[i] == GroupPiece(gs[i])
    ensures Held(limit, rs) == RestPending(rest)
  {
    var hs, rest' := CutIsGreedy(limit, rs);
    GreedyUnique(limit, rs, gs, rest, hs, rest');
  }

  /** A threshold cut lasts at least the chunk limit and less than the limit
      plus its own last record. */
  lemma CutDuration(limit: nat, g: seq<Record>)
    requires FullGroup(limit, g)
    ensures limit <= Total(g) < limit + g[|g|-1].samples
  {
  }

  lemma FeedConservesAudio(limit: nat, p: Pending, r: Record)
    ensures Audible(FeedOut(limit, p, r)) + Audible(ForceCut(FeedState(limit, p, r)))
         == Audible(ForceCut(p)) + if r.voiced then r.payload else []
  {
    AudibleOne(PieceOf(Extend(p, r)));
    if p.Pending? {
      AudibleOne(PieceOf(p));
    }
  }

  lemma AudibleOne(x: Piece)
    ensures Audible([x]) == x.bytes
  {
    assert Audible([x][..0]) == [];
  }

  /** No voiced audio is lost or duplicated: chunks plus the forced tail spell
      out the voiced payloads. */
  lemma {:induction false} CutConservesAudio(limit: nat, rs: seq<Record>)
    ensures Audible(Recut(limit, rs)) + Audible(ForceCut(Held(limit, rs))) == Payload(Spoken(rs))
  {
    if rs == [] {
      assert Recut(limit, rs) == [];
    } else {
      hide FeedState, FeedOut, Audible, Spoken, ForceCut;
      var init, r := rs[..|rs|-1], rs[|rs|-1];
      assert rs == init + [r];
      CutConservesAudio(limit, init);
      var out, c := Recut(limit, init), FeedOut(limit, Held(limit, init), r);
      FeedConservesAudio(limit, Held(limit, init), r);
      AudibleConcat(out, c);
      SpokenPayload(init, r);
      Associate(Audible(out), Audible(c), Audible(ForceCut(Held(limit, rs))));
      Associate(Audible(out), Audible(ForceCut(Held(limit, init))), if r.voiced then r.payload else []);
    }
  }

  lemma SpokenPayload(init: seq<Record>, r: Record)
    ensures Payload(Spoken(init + [r])) == Payload(Spoken(init)) + if r.voiced then r.payload else []
  {
    assert (init + [r])[..|init|] == init;
    if r.voiced {
      assert (Spoken(init) + [r])[..|Spoken(init)|] == Spoken(init);
    } else {
      assert Spoken(init + [r]) == Spoken(init);
    }
  }

  // ---- spans ----

  function LastSeq(rs: seq<Record>, floor: nat): nat {
    if rs == [] then floor else rs[|rs|-1].seqNo
  }

  function LastEnd(ps: seq<Piece>, floor: nat): nat {
    if ps == [] then floor else ps[|ps|-1].seqEnd
  }

  /** Sequence numbers strictly increase and stay above floor. */
  ghost predicate Increasing(rs: seq<Record>, floor: nat) {
    rs == [] ||
    var init := rs[..|rs|-1];
    Increasing(init, floor) && LastSeq(init, floor) < rs[|rs|-1].seqNo
  }

  /** Spans are well formed, disjoint and in order, and start above floor. */
  ghost predicate SpansIncrease(ps: seq<Piece>, floor: nat) {
    ps == [] ||
    var init, p := ps[..|ps|-1], ps[|ps|-1];
    SpansIncrease(init, floor) && LastEnd(init, floor) < p.seqStart <= p.seqEnd
  }

  lemma {:induction false} IncreasingPairs(rs: seq<Record>, floor: nat, i: nat, j: nat)
    requires Increasing(rs, floor)
    requires i <= j < |rs|
    ensures floor < rs[i].seqNo <= rs[j].seqNo <= LastSeq(rs, floor)
    ensures i < j ==> rs[i].seqNo < rs[j].seqNo
  {
    if j < |rs| - 1 {
      IncreasingPairs(rs[..|rs|-1], floor, i, j);
    } else if i < j {
      IncreasingPairs(rs[..|rs|-1], floor, i, j - 1);
    } else if i > 0 {
      IncreasingPairs(rs[..|rs|-1], floor, i - 1, i - 1);
    }
  }

  lemma {:induction false} SpanPairs(ps: seq<Piece>, floor: nat, i: nat, j: nat)
    requires SpansIncrease(ps, floor)
    requires i <= j < |ps|
    ensures floor < ps[i].seqStart <= ps[i].seqEnd <= ps[j].seqEnd <= LastEnd(ps, floor)
    ensures i < j ==> ps[i].seqEnd < ps[j].seqStart
  {
    if j < |ps| - 1 {
      SpanPairs(ps[..|ps|-1], floor, i, j);
    } else if i < j {
      SpanPairs(ps[..|ps|-1], floor, i, j - 1);
    } else if i > 0 {
      SpanPairs(ps[..|ps|-1], floor, i - 1, i - 1);
    }
  }

  /** Chunk spans are disjoint, in order, and above the floor the records were above. */
  lemma {:induction false} CutSpans(limit: nat, rs: seq<Record>, floor: nat)
    requires Increasing(rs, floor)
    ensures SpansIncrease(Recut(limit, rs), floor)
    ensures floor <= LastEnd(Recut(limit, rs), floor) <= LastSeq(rs, floor)
    ensures var p := Held(limit, rs);
            p.Pending? ==> LastEnd(Recut(limit, rs), floor) < p.start <= p.end <= LastSeq(rs, floor)
  {
    if rs != [] {
      var init, r := rs[..|rs|-1], rs[|rs|-1];
      CutSpans(limit, init, floor);
      var out := Recut(limit, init);
      if FeedOut(limit, Held(limit, init), r) != [] {
        var p := PieceOf(Extend(Held(limit, init), r));
        assert Recut(limit, rs) == out + [p];
        assert (out + [p])[..|out|] == out;
      } else {
        assert Recut(limit, rs) == out;
      }
    }
  }

  /** What the wire check lets through: two bytes a sample. */
  predicate Wire(rs: seq<Record>) {
    forall i | 0 <= i < |rs| :: |rs[i].payload| == 2 * rs[i].samples
  }

  /** Cutting a concatenation equals cutting the parts separately, for everything that
      could come next on the wire, exactly when the accumulator is empty in between. */
  lemma SplitExact(limit: nat, xs: seq<Record>)
    requires limit > 0 && Increasing(xs, 0)
    ensures (forall ys | Wire(ys) && Increasing(ys, LastSeq(xs, 0)) ::
               Recut(limit, xs + ys) == Recut(limit, xs) + Recut(limit, ys))
       <==> Held(limit, xs) == NoPending
  {
    var p, q := Held(limit, xs), LastSeq(xs, 0);
    if p == NoPending {
      forall ys | Wire(ys) && Increasing(ys, q) ensures Recut(limit, xs + ys) == Recut(limit, xs) + Recut(limit, ys) {
        CutConcat(limit, NoPending, xs, ys);
      }
    } else {
      CutSpans(limit, xs, 0);
      var y := Record(q + 1, limit, true, seq(2 * limit, _ => 0));
      assert [y][..0] == [] && Increasing([], q);
      SplitFails(limit, xs, y);
      assert Wire([y]) && Increasing([y], q);
    }
  }

  lemma SplitFails(limit: nat, xs: seq<Record>, y: Record)
    requires limit > 0 && Held(limit, xs).Pending?
    requires y.voiced && y.samples == limit && y.seqNo != Held(limit, xs).start
    ensures Recut(limit, xs + [y]) != Recut(limit, xs) + Recut(limit, [y])
  {
    CutSnoc(limit, NoPending, xs, y);
    CutSnoc(limit, NoPending, [], y);
    assert [] + [y] == [y];
    var n := |Recut(limit, xs)|;
    assert Recut(limit, xs + [y])[n].seqStart == Held(limit, xs).start;
    assert (Recut(limit, xs) + Recut(limit, [y]))[n].seqStart == y.seqNo;
  }

  // ---- replaying a tail ----

  /** The journal's ReadAfter, on a plain list. */
  function After(rs: seq<Record>, q: nat): seq<Record> {
    if rs == [] then []
    else
      var r := rs[|rs|-1];
      After(rs[..|rs|-1], q) + if r.seqNo > q then [r] else []
  }

  lemma {:induction false} AfterFloor(rs: seq<Record>, floor: nat)
    requires Increasing(rs, floor)
    ensures After(rs, floor) == rs
  {
    if rs != [] {
      AfterFloor(rs[..|rs|-1], floor);
      IncreasingPairs(rs, floor, |rs|-1, |rs|-1);
    }
  }

  lemma {:induction false} AfterAll(rs: seq<Record>, floor: nat, q: nat)
    requires Increasing(rs, floor) && LastSeq(rs, floor) <= q
    ensures After(rs, q) == []
  {
    if rs != [] {
      AfterAll(rs[..|rs|-1], floor, q);
    }
  }

  lemma AfterSnoc(init: seq<Record>, r: Record, q: nat)
    ensures After(init + [r], q) == After(init, q) + if r.seqNo > q then [r] else []
  {
    assert (init + [r])[..|init + [r]|-1] == init;
  }

  lemma {:induction false} AfterConcat(xs: seq<Record>, ys: seq<Record>, q: nat)
    ensures After(xs + ys, q) == After(xs, q) + After(ys, q)
  {
    if ys == [] {
      assert xs + ys == xs;
    } else {
      AfterConcat(xs, ys[..|ys|-1], q);
      assert (xs + ys)[..|xs + ys|-1] == xs + ys[..|ys|-1];
    }
  }

  /** Replaying only the records after the n-th chunk yields exactly the later
      chunks and the same chunk in progress. */
  ghost predicate Resumes(limit: nat, rs: seq<Record>, floor: nat, n: nat)
    requires n <= |Recut(limit, rs)|
  {
    var q := LastEnd(Recut(limit, rs)[..n], floor);
    && Held(limit, After(rs, q)) == Held(limit, rs)
    && Recut(limit, After(rs, q)) == Recut(limit, rs)[n..]
  }

  /** Replay can resume after any dispatched chunk, which is what makes a
      checkpoint taken at a chunk boundary usable. */
  lemma {:induction false} TailRecut(limit: nat, rs: seq<Record>, floor: nat, n: nat)
    requires Increasing(rs, floor)
    requires n <= |Recut(limit, rs)|
    ensures Resumes(limit, rs, floor, n)
  {
    if rs == [] {
      assert After(rs, floor) == [];
    } else {
      hide FeedState, FeedOut, Resumes, After;
      var init, r := rs[..|rs|-1], rs[|rs|-1];
      assert rs == init + [r];
      CutSnoc(limit, NoPending, init, r);
      if n <= |Recut(limit, init)| {
        TailRecut(limit, init, floor, n);
        TailRecutSnoc(limit, init, r, floor, n);
      } else {
        TailRecutEnd(limit, init, r, floor, n);
      }
    }
  }

  /** The case where the record just fed completes the last chunk. */
  lemma TailRecutEnd(limit: nat, init: seq<Record>, r: Record, floor: nat, n: nat)
    requires Increasing(init, floor) && LastSeq(init, floor) < r.seqNo
    requires |Recut(limit, init)| < n <= |Recut(limit, init + [r])|
    ensures Resumes(limit, init + [r], floor, n)
  {
    hide FeedState;
    var rs := init + [r];
    assert rs[..|rs|-1] == init;
    CutSnoc(limit, NoPending, init, r);
    assert FeedOut(limit, Held(limit, init), r) != [];
    assert Recut(limit, rs)[..n] == Recut(limit, rs);
    AfterAll(rs, floor, r.seqNo);
    FeedCuts(limit, Held(limit, init), r);
  }

  lemma FeedCuts(limit: nat, p: Pending, r: Record)
    ensures FeedOut(limit, p, r) != [] ==> FeedState(limit, p, r) == NoPending
    ensures |FeedOut(limit, p, r)| <= 1
  {
  }

  lemma DropConcat(a: seq<Piece>, b: seq<Piece>, n: nat)
    requires n <= |a|
    ensures (a + b)[n..] == a[n..] + b && (a + b)[..n] == a[..n]
  {
  }

  lemma TailRecutSnoc(limit: nat, init: seq<Record>, r: Record, floor: nat, n: nat)
    requires Increasing(init, floor) && LastSeq(init, floor) < r.seqNo
    requires n <= |Recut(limit, init)| && Resumes(limit, init, floor, n)
    ensures |Recut(limit, init)| <= |Recut(limit, init + [r])|
    ensures Resumes(limit, init + [r], floor, n)
  {
    hide FeedState, FeedOut;
    var out := Recut(limit, init);
    var q := LastEnd(out[..n], floor);
    CutSpans(limit, init, floor);
    if n > 0 {
      SpanPairs(out, floor, n - 1, n - 1);
    }
    AfterSnoc(init, r, q);
    CutSnoc(limit, NoPending, After(init, q), r);
    CutSnoc(limit, NoPending, init, r);
    DropConcat(out, FeedOut(limit, Held(limit, init), r), n);
  }

  // ---- the live objects ----

  /** internal/audio/pipeline.go's accumulator, updated in place. */
  class Accumulator {
    const chunkSamples: nat
    var nextChunkID: nat
    var pending: Bytes
    var pendingSamples: nat
    var pendingStart: nat
    var pendingEnd: nat
    var hasPending: bool

    ghost predicate Valid()
      reads this
    {
      !hasPending ==> pending == [] && pendingSamples == 0
    }

    ghost function View(): Pending
      reads this
    {
      if hasPending then Pending(pendingStart, pendingEnd, pending, pendingSamples) else NoPending
    }

    constructor (chunkSamples: nat)
      ensures Valid() && View() == NoPending && nextChunkID == 0
      ensures this.chunkSamples == chunkSamples
    {
      this.chunkSamples := chunkSamples;
      nextChunkID, pending, pendingSamples := 0, [], 0;
      pendingStart, pendingEnd, hasPending := 0, 0, false;
    }

    method FeedRecord(r: Record) returns (cut: seq<Chunk>)
      requires Valid()
      modifies this
      ensures Valid()
      ensures View() == FeedState(chunkSamples, old(View()), r)
      ensures Pieces(cut) == FeedOut(chunkSamples, old(View()), r)
      ensures nextChunkID == old(nextChunkID) + |cut|
      ensures forall i | 0 <= i < |cut| :: cut[i].id == old(nextChunkID) + i
    {
      if !r.voiced {
        return [];
      }
      if !hasPending {
        pendingStart := r.seqNo;
        hasPending := true;
      }
      pending := pending + r.payload;
      assert old(pending) == [] ==> pending == r.payload;
      pendingSamples := pendingSamples + r.samples;
      pendingEnd := r.seqNo;
      if pendingSamples < chunkSamples {
        return [];
      }
      cut := [Chunk(nextChunkID, Piece(pendingStart, pendingEnd, pending))];
      nextChunkID := nextChunkID + 1;
      pending, pendingSamples, hasPending := [], 0, false;
    }

    method ForceCutPending() returns (cut: seq<Chunk>)
      requires Valid()
      modifies this
      ensures Valid() && View() == NoPending
      ensures Pieces(cut) == ForceCut(old(View()))
      ensures nextChunkID == old(nextChunkID) + |cut|
      ensures forall i | 0 <= i < |cut| :: cut[i].id == old(nextChunkID) + i
    {
      if !hasPending {
        return [];
      }
      cut := [Chunk(nextChunkID, Piece(pendingStart, pendingEnd, pending))];
      nextChunkID := nextChunkID + 1;
      pending, pendingSamples, hasPending := [], 0, false;
    }
  }

  /** The pass-through pipeline: every frame is voiced, no boundary fires. */
  class PassthroughPipeline {
    const live: Accumulator
    var ready: seq<Chunk>

    ghost predicate Valid()
      reads this, live
    {
      live.Valid()
    }

    constructor (chunkSamples: nat)
      ensures Valid() && fresh(live) && ready == [] && live.View() == NoPending
      ensures live.chunkSamples == chunkSamples
    {
      live := new Accumulator(chunkSamples);
      ready := [];
    }

    method Ingest(seqNo: nat, samples: nat, payload: Bytes) returns (record: Record)
      requires Valid()
      modifies this, live
      ensures Valid()
      ensures record == Record(seqNo, samples, true, payload)
      ensures live.View() == FeedState(live.chunkSamples, old(live.View()), record)
      ensures Pieces(ready) == old(Pieces(ready)) + FeedOut(live.chunkSamples, old(live.View()), record)
    {
      record := Record(seqNo, samples, true, payload);
      var cut := live.FeedRecord(record);
      ready := ready + cut;
    }

    method Ready() returns (out: seq<Chunk>)
      modifies this
      ensures out == old(ready) && ready == []
    {
      out := ready;
      ready := [];
    }

    method Flush() returns (out: seq<Chunk>)
      requires Valid()
      modifies live
      ensures Valid() && live.View() == NoPending
      ensures Pieces(out) == ForceCut(old(live.View()))
    {
      out := live.ForceCutPending();
    }

    /** A fresh accumulator over the stored records. */
    method RecutRecords(records: seq<Record>) returns (out: seq<Chunk>)
      ensures Pieces(out) == Recut(live.chunkSamples, records)
      ensures forall i | 0 <= i < |out| :: out[i].id == i
    {
      var acc := new Accumulator(live.chunkSamples);
      out := [];
      for i := 0 to |records|
        invariant acc.Valid() && fresh(acc) && acc.chunkSamples == live.chunkSamples
        invariant acc.View() == Held(live.chunkSamples, records[..i])
        invariant Pieces(out) == Recut(live.chunkSamples, records[..i])
        invariant acc.nextChunkID == |out|
        invariant forall k | 0 <= k < |out| :: out[k].id == k
      {
        assert records[..i+1] == records[..i] + [records[i]];
        CutSnoc(live.chunkSamples, NoPending, records[..i], records[i]);
        var cut := acc.FeedRecord(records[i]);
        out := out + cut;
      }
      assert records[..|records|] == records;
    }
  }
}
