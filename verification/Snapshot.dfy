/** Reference-counted snapshot publication as a transition system: one writer rotating through
    the buffers, any number of readers pinning them, every step one atomic operation or one
    cell of a buffer fill. */
module Snapshot {
  import opened Words
  import opened Cyclic

  const WRITER_OWNED: nat := 0x8000_0000
  const MAX_ATTEMPTS: nat := 16

  type Payload = seq<u64>

  /** `Scan` holds the index of the published buffer, the attempt number and, as history, the
      buffers readers were referring to when the scan began. */
  datatype Writer =
    | WIdle
    | Scan(current: int, attempt: nat, payload: Payload, blocked: set<int>)
    | Fill(idx: nat, payload: Payload, done: nat)
    | Publish(idx: nat)
    | Count

  datatype Reader =
    | RIdle
    | LoadCurrent(attempt: nat)
    | LoadRefs(idx: nat, attempt: nat)
    | Cas(idx: nat, seen: nat, attempt: nat)
    | Holding(idx: nat)

  /** `fills` lists the payloads of all finished fills and `stamp[i]` the one buffer `i` got last,
      or -1 if it was never filled. `failures` counts writes that found no buffer. */
  datatype Pub = Pub(
    refs: seq<nat>, cells: seq<Payload>, current: int, version: nat, hint: nat, writer: Writer,
    readers: seq<Reader>, fills: seq<Payload>, stamp: seq<int>, failures: nat)

  datatype Move = BeginWrite(payload: Payload) | WriterStep | Read(r: nat) | ReaderStep(r: nat, spurious: bool) | Release(r: nat)

  ghost predicate Sane(s: Pub) {
    && |s.refs| == |s.cells| == |s.stamp| >= 3
    && s.hint < |s.refs| && -1 <= s.current < |s.refs|
    && (match s.writer
        case Scan(c, a, p, b) => a <= |s.refs| && (forall i :: 0 <= i < |s.cells| ==> |s.cells[i]| == |p|)
        case Fill(i, p, d) => i < |s.refs| && |s.cells[i]| == |p| && d <= |p|
        case Publish(i) => i < |s.refs|
        case _ => true)
    && (forall r :: 0 <= r < |s.readers| ==> Target(s.readers[r]) < |s.refs|)
  }

  /** The buffer a reader is pinning or about to pin, or -1. */
  function Target(rd: Reader): int {
    match rd
    case LoadRefs(i, _) => i
    case Cas(i, _, _) => i
    case Holding(i) => i
    case _ => -1
  }

  /** Buffers other than the published one that some reader refers to. */
  ghost function Referred(readers: seq<Reader>, current: int): set<int> {
    set r | 0 <= r < |readers| && Target(readers[r]) >= 0 && Target(readers[r]) != current :: Target(readers[r])
  }

  ghost function Start(buffers: nat, width: nat, readers: nat): Pub {
    Pub(seq(buffers, _ => 0), seq(buffers, _ => seq(width, _ => 0)), -1, 0, 0, WIdle,
        seq(readers, _ => RIdle), [], seq(buffers, _ => -1), 0)
  }

  // ---------------------------------------------------------------------------
  // Writer
  // ---------------------------------------------------------------------------

  ghost function WriterNext(s: Pub): Pub
    requires Sane(s)
  {
    match s.writer
    case WIdle => s
    case Scan(current, attempt, payload, blocked) =>
      if attempt == |s.refs| then s.(writer := WIdle, failures := s.failures + 1)
      else
        var idx := Ahead(s.hint, attempt, |s.refs|);
        if idx == current || s.refs[idx] != 0 then s.(writer := Scan(current, attempt + 1, payload, blocked))
        else s.(refs := s.refs[idx := WRITER_OWNED], writer := Fill(idx, payload, 0), hint := Next(idx, |s.refs|))
    case Fill(idx, payload, done) =>
      if done < |payload| then
        s.(cells := s.cells[idx := s.cells[idx][done := payload[done]]], writer := Fill(idx, payload, done + 1))
      else
        s.(refs := s.refs[idx := 0], writer := Publish(idx), fills := s.fills + [payload], stamp := s.stamp[idx := |s.fills|])
    case Publish(idx) => s.(current := idx, writer := Count)
    case Count => s.(version := s.version + 1, writer := WIdle)
  }

  // ---------------------------------------------------------------------------
  // Readers
  // ---------------------------------------------------------------------------

  ghost function ReaderNext(s: Pub, r: nat, spurious: bool): Pub
    requires Sane(s) && r < |s.readers|
  {
    match s.readers[r]
    case RIdle => s
    case LoadCurrent(attempt) =>
      if attempt >= MAX_ATTEMPTS || s.current < 0 then s.(readers := s.readers[r := RIdle])
      else s.(readers := s.readers[r := LoadRefs(s.current, attempt)])
    case LoadRefs(idx, attempt) => s.(readers := s.readers[r := Cas(idx, s.refs[idx], attempt)])
    case Cas(idx, seen, attempt) =>
      if seen >= WRITER_OWNED then s.(readers := s.readers[r := LoadCurrent(attempt + 1)])
      else if s.refs[idx] == seen && !spurious then
        s.(refs := s.refs[idx := seen + 1], readers := s.readers[r := Holding(idx)])
      else s.(readers := s.readers[r := Cas(idx, s.refs[idx], attempt)])
    case Holding(_) => s
  }

  ghost function ReleaseNext(s: Pub, r: nat): Pub
    requires Sane(s) && r < |s.readers|
  {
    if s.readers[r].Holding? then
      var idx := s.readers[r].idx;
      s.(refs := s.refs[idx := if s.refs[idx] > 0 then s.refs[idx] - 1 else 0], readers := s.readers[r := RIdle])
    else s
  }

  ghost function Step(s: Pub, m: Move): Pub
    requires Sane(s)
  {
    match m
    case BeginWrite(p) =>
      if s.writer.WIdle? && (forall i :: 0 <= i < |s.cells| ==> |s.cells[i]| == |p|)
      then s.(writer := Scan(s.current, 0, p, Referred(s.readers, s.current))) else s
    case WriterStep => WriterNext(s)
    case Read(r) => if r < |s.readers| && s.readers[r].RIdle? then s.(readers := s.readers[r := LoadCurrent(0)]) else s
    case ReaderStep(r, spurious) => if r < |s.readers| then ReaderNext(s, r, spurious) else s
    case Release(r) => if r < |s.readers| then ReleaseNext(s, r) else s
  }

  // ---------------------------------------------------------------------------
  // Reference counts
  // ---------------------------------------------------------------------------

  /** How many readers hold buffer `i`. */
  ghost function Holders(readers: seq<Reader>, i: nat): nat {
    if readers == [] then 0
    else Holders(readers[..|readers| - 1], i) + if readers[|readers| - 1] == Holding(i) then 1 else 0
  }

  lemma {:induction false} HoldersUpdate(readers: seq<Reader>, r: nat, rd: Reader, i: nat)
    requires r < |readers|
    ensures Holders(readers[r := rd], i) + (if readers[r] == Holding(i) then 1 else 0)
         == Holders(readers, i) + (if rd == Holding(i) then 1 else 0)
  {
    var n := |readers| - 1;
    if r == n {
      assert readers[r := rd][..n] == readers[..n];
    } else {
      HoldersUpdate(readers[..n], r, rd, i);
      assert readers[r := rd][..n] == readers[..n][r := rd];
    }
  }

  lemma {:induction false} HoldersBound(readers: seq<Reader>, i: nat)
    ensures Holders(readers, i) <= |readers|
    ensures (exists r :: 0 <= r < |readers| && readers[r] == Holding(i)) ==> Holders(readers, i) > 0
  {
    if readers != [] {
      HoldersBound(readers[..|readers| - 1], i);
    }
  }

  ghost predicate Owned(w: Writer, i: nat) {
    w.Fill? && w.idx == i
  }

  /** A buffer's count is its number of holders, or the writer's mark while the writer owns it. */
  ghost predicate RefsOk(s: Pub)
    requires Sane(s)
  {
    forall i :: 0 <= i < |s.refs| ==>
      if Owned(s.writer, i) then s.refs[i] == WRITER_OWNED && Holders(s.readers, i) == 0
      else s.refs[i] == Holders(s.readers, i)
  }

  // ---------------------------------------------------------------------------
  // Contents
  // ---------------------------------------------------------------------------

  /** Filled buffers hold exactly the payload of their last fill, unless being refilled. */
  ghost predicate ContentsOk(s: Pub)
    requires Sane(s)
  {
    && (forall i :: 0 <= i < |s.stamp| ==> -1 <= s.stamp[i] < |s.fills|)
    && (forall i :: 0 <= i < |s.stamp| && s.stamp[i] >= 0 && !Owned(s.writer, i) ==> s.cells[i] == s.fills[s.stamp[i]])
    && (s.current >= 0 ==> s.stamp[s.current] >= 0)
    && (s.writer.Publish? ==> s.stamp[s.writer.idx] >= 0)
    && (s.writer.Fill? ==> s.cells[s.writer.idx][..s.writer.done] == s.writer.payload[..s.writer.done])
    && (forall r :: 0 <= r < |s.readers| && Target(s.readers[r]) >= 0 ==> s.stamp[Target(s.readers[r])] >= 0)
  }

  ghost predicate Inv(s: Pub) {
    Sane(s) && |s.readers| < WRITER_OWNED && RefsOk(s) && ContentsOk(s)
  }

  lemma ScanKeeps(s: Pub)
    requires Inv(s) && s.writer.Scan?
    ensures Inv(WriterNext(s))
  {
    hide Holders;
  }

  lemma FillKeeps(s: Pub)
    requires Inv(s) && s.writer.Fill?
    ensures Inv(WriterNext(s))
  {
    hide Holders;
    var Fill(idx, p, done) := s.writer;
    if done == |p| {
      assert s.cells[idx][..done] == s.cells[idx] && p[..done] == p;
    } else {
      var cell := s.cells[idx][done := p[done]];
      assert cell[..done] == s.cells[idx][..done];
      assert cell[..done + 1] == cell[..done] + [p[done]] && p[..done + 1] == p[..done] + [p[done]];
    }
  }

  lemma WriterKeeps(s: Pub)
    requires Inv(s)
    ensures Inv(WriterNext(s))
  {
    hide RefsOk, Holders;
    match s.writer
    case Scan(_, _, _, _) => ScanKeeps(s);
    case Fill(_, _, _) => FillKeeps(s);
    case WIdle =>
    case Publish(_) => SameRefs(s, WriterNext(s));
    case Count => SameRefs(s, WriterNext(s));
  }

  lemma SameRefs(s: Pub, s': Pub)
    requires Sane(s) && Sane(s') && RefsOk(s) && !s.writer.Fill? && !s'.writer.Fill?
    requires s'.refs == s.refs && s'.readers == s.readers
    ensures RefsOk(s')
  {
    hide Holders;
  }

  /** A reader moves on without pinning or releasing. */
  lemma SetReader(s: Pub, r: nat, rd: Reader)
    requires Inv(s) && r < |s.readers| && !s.readers[r].Holding? && !rd.Holding?
    requires Target(rd) < |s.refs| && (Target(rd) >= 0 ==> s.stamp[Target(rd)] >= 0)
    ensures Inv(s.(readers := s.readers[r := rd]))
  {
    hide Holders;
    forall i | 0 <= i < |s.refs|
      ensures Holders(s.readers[r := rd], i) == Holders(s.readers, i)
    {
      HoldersUpdate(s.readers, r, rd, i);
    }
  }

  /** A successful compare-and-swap pins a buffer the writer does not own. */
  lemma PinKeeps(s: Pub, r: nat, idx: nat)
    requires Inv(s) && r < |s.readers| && !s.readers[r].Holding? && Target(s.readers[r]) == idx
    requires s.refs[idx] < WRITER_OWNED
    ensures !Owned(s.writer, idx)
    ensures Inv(s.(refs := s.refs[idx := s.refs[idx] + 1], readers := s.readers[r := Holding(idx)]))
  {
    hide Holders;
    forall i | 0 <= i < |s.refs|
      ensures Holders(s.readers[r := Holding(idx)], i) == Holders(s.readers, i) + if i == idx then 1 else 0
    {
      HoldersUpdate(s.readers, r, Holding(idx), i);
    }
  }

  lemma ReaderKeeps(s: Pub, r: nat, spurious: bool)
    requires Inv(s) && r < |s.readers|
    ensures Inv(ReaderNext(s, r, spurious))
  {
    hide RefsOk, ContentsOk;
    assert s.current >= 0 ==> s.stamp[s.current] >= 0 by { CurrentFilled(s); }
    assert Target(s.readers[r]) >= 0 ==> s.stamp[Target(s.readers[r])] >= 0 by { TargetFilled(s, r); }
    match s.readers[r]
    case RIdle =>
    case LoadCurrent(attempt) =>
      SetReader(s, r, RIdle);
      if s.current >= 0 {
        SetReader(s, r, LoadRefs(s.current, attempt));
      }
    case LoadRefs(idx, attempt) => SetReader(s, r, Cas(idx, s.refs[idx], attempt));
    case Cas(idx, seen, attempt) =>
      SetReader(s, r, LoadCurrent(attempt + 1));
      SetReader(s, r, Cas(idx, s.refs[idx], attempt));
      if seen < WRITER_OWNED && s.refs[idx] == seen {
        PinKeeps(s, r, idx);
      }
    case Holding(_) =>
  }

  lemma CurrentFilled(s: Pub)
    requires Inv(s)
    ensures s.current >= 0 ==> s.stamp[s.current] >= 0
  {
  }

  lemma TargetFilled(s: Pub, r: nat)
    requires Inv(s) && r < |s.readers|
    ensures Target(s.readers[r]) >= 0 ==> s.stamp[Target(s.readers[r])] >= 0
  {
  }

  lemma ReleaseKeeps(s: Pub, r: nat)
    requires Inv(s) && r < |s.readers|
    ensures Inv(ReleaseNext(s, r))
  {
    hide Holders;
    if s.readers[r].Holding? {
      var idx := s.readers[r].idx;
      HoldersBound(s.readers, idx);
      forall i | 0 <= i < |s.refs|
        ensures Holders(s.readers[r := RIdle], i) + (if i == idx then 1 else 0) == Holders(s.readers, i)
      {
        HoldersUpdate(s.readers, r, RIdle, i);
      }
    }
  }

  lemma StepKeeps(s: Pub, m: Move)
    requires Inv(s)
    ensures Inv(Step(s, m))
    ensures |Step(s, m).readers| == |s.readers| && |Step(s, m).refs| == |s.refs|
  {
    StepSizes(s, m);
    hide RefsOk, ContentsOk, WriterNext, ReaderNext, ReleaseNext;
    match m
    case BeginWrite(p) => BeginKeeps(s, p);
    case WriterStep => WriterKeeps(s);
    case Read(r) =>
      if r < |s.readers| && s.readers[r].RIdle? {
        SetReader(s, r, LoadCurrent(0));
      }
    case ReaderStep(r, spurious) =>
      if r < |s.readers| {
        ReaderKeeps(s, r, spurious);
      }
    case Release(r) =>
      if r < |s.readers| {
        ReleaseKeeps(s, r);
      }
  }

  lemma StepSizes(s: Pub, m: Move)
    requires Sane(s)
    ensures |Step(s, m).readers| == |s.readers| && |Step(s, m).refs| == |s.refs|
  {
  }

  lemma BeginKeeps(s: Pub, p: Payload)
    requires Inv(s)
    ensures Inv(Step(s, BeginWrite(p)))
  {
    hide Holders;
  }

  // ---------------------------------------------------------------------------
  // Runs
  // ---------------------------------------------------------------------------

  /** Every state of a run satisfies the invariant, so that it can be run on. */
  ghost function Run(s: Pub, moves: seq<Move>): (r: Pub)
    requires Inv(s)
    ensures Inv(r) && |r.readers| == |s.readers| && |r.refs| == |s.refs|
  {
    if moves == [] then s
    else
      var r := Run(s, moves[..|moves| - 1]);
      StepKeeps(r, moves[|moves| - 1]);
      Step(r, moves[|moves| - 1])
  }

  lemma StartOk(buffers: nat, width: nat, readers: nat)
    requires buffers >= 3 && readers < WRITER_OWNED
    ensures Inv(Start(buffers, width, readers))
  {
    var s := Start(buffers, width, readers);
    forall i | 0 <= i < buffers
      ensures Holders(s.readers, i) == 0
    {
      NoHolders(s.readers, i);
    }
  }

  lemma {:induction false} NoHolders(readers: seq<Reader>, i: nat)
    requires forall r :: 0 <= r < |readers| ==> readers[r] == RIdle
    ensures Holders(readers, i) == 0
  {
    if readers != [] {
      NoHolders(readers[..|readers| - 1], i);
    }
  }

  /** Snapshot safety: in every reachable state a pinned buffer is not the writer's, counts its
      holders exactly, and holds the complete payload of one finished fill. */
  lemma PinnedIsComplete(buffers: nat, width: nat, readers: nat, moves: seq<Move>, r: nat)
    requires buffers >= 3 && r < readers < WRITER_OWNED
    ensures Inv(Start(buffers, width, readers))
    ensures var s := Run(Start(buffers, width, readers), moves);
            s.readers[r].Holding? ==>
              var i := s.readers[r].idx;
              && !Owned(s.writer, i)
              && 0 < s.refs[i] == Holders(s.readers, i) < WRITER_OWNED
              && 0 <= s.stamp[i] < |s.fills| && s.cells[i] == s.fills[s.stamp[i]]
  {
    StartOk(buffers, width, readers);
    var s := Run(Start(buffers, width, readers), moves);
    if s.readers[r].Holding? {
      HoldersBound(s.readers, s.readers[r].idx);
    }
  }

  /** While a reader keeps its pin, no step changes the buffer under it. */
  lemma PinnedIsStable(s: Pub, m: Move, r: nat)
    requires Inv(s) && r < |s.readers| && s.readers[r].Holding?
    ensures var s' := Step(s, m);
            && |s'.readers| == |s.readers|
            && (s'.readers[r] == s.readers[r] || (m == Release(r) && s'.readers[r] == RIdle))
            && s'.cells[s.readers[r].idx] == s.cells[s.readers[r].idx]
  {
    HoldersBound(s.readers, s.readers[r].idx);
  }

  // ---------------------------------------------------------------------------
  // Writer progress
  // ---------------------------------------------------------------------------

  lemma {:induction false} HolderExists(readers: seq<Reader>, i: nat)
    requires Holders(readers, i) > 0
    ensures exists r :: 0 <= r < |readers| && readers[r] == Holding(i)
  {
    var n := |readers| - 1;
    if readers[n] != Holding(i) {
      HolderExists(readers[..n], i);
      var r :| 0 <= r < n && readers[..n][r] == Holding(i);
      assert readers[r] == Holding(i);
    }
  }

  lemma {:induction false} ReferredBound(readers: seq<Reader>, current: int)
    ensures |Referred(readers, current)| <= |readers|
  {
    if readers == [] {
      assert Referred(readers, current) == {};
    } else {
      var n := |readers| - 1;
      ReferredBound(readers[..n], current);
      var t := Target(readers[n]);
      assert Referred(readers, current) == Referred(readers[..n], current) + if t >= 0 && t != current then {t} else {};
    }
  }

  /** What a scan has learnt: every buffer it passed over is the published one or was referred to
      by a reader when the scan began, and readers have not spread to others since. */
  ghost predicate ScanOk(s: Pub)
    requires Sane(s)
  {
    s.writer.Scan? ==>
      && s.writer.current == s.current
      && |s.writer.blocked| <= |s.readers|
      && Referred(s.readers, s.current) <= s.writer.blocked
      && forall k :: 0 <= k < s.writer.attempt ==>
           Ahead(s.hint, k, |s.refs|) == s.current || Ahead(s.hint, k, |s.refs|) in s.writer.blocked
  }

  lemma ScanStep(s: Pub)
    requires Inv(s) && ScanOk(s) && s.writer.Scan?
    ensures ScanOk(WriterNext(s))
  {
    hide Holders;
    var n := |s.refs|;
    if s.writer.attempt < n {
      var idx := Ahead(s.hint, s.writer.attempt, n);
      if idx != s.current && s.refs[idx] != 0 {
        HolderExists(s.readers, idx);
        var r :| 0 <= r < |s.readers| && s.readers[r] == Holding(idx);
        assert Target(s.readers[r]) in Referred(s.readers, s.current);
      }
    }
  }

  /** From `s` to `s'` only reader `r` moved: it gave up its buffer, kept it, or turned to the published one. */
  ghost predicate OnlyReader(s: Pub, s': Pub, r: nat) {
    && r < |s.readers| == |s'.readers| && |s'.refs| == |s.refs|
    && s' == s.(refs := s'.refs, readers := s'.readers) && s'.readers == s.readers[r := s'.readers[r]]
    && (Target(s'.readers[r]) < 0 || Target(s'.readers[r]) == Target(s.readers[r]) || Target(s'.readers[r]) == s.current)
  }

  lemma ReaderMoves(s: Pub, m: Move, r: nat)
    requires Sane(s) && r < |s.readers| && (m == Read(r) || m == Release(r) || (m.ReaderStep? && m.r == r))
    ensures OnlyReader(s, Step(s, m), r)
  {
  }

  lemma ReadersNarrow(s: Pub, s': Pub, r: nat)
    requires Sane(s) && Sane(s') && ScanOk(s) && OnlyReader(s, s', r)
    ensures ScanOk(s')
  {
    forall t | t in Referred(s'.readers, s'.current)
      ensures t in Referred(s.readers, s.current)
    {
      var q :| 0 <= q < |s'.readers| && Target(s'.readers[q]) == t;
      assert Target(s.readers[q]) == t;
    }
  }

  /** The reader that a move is about, if there is one. */
  function Mover(s: Pub, m: Move): int {
    match m
    case Read(r) => if r < |s.readers| then r else -1
    case ReaderStep(r, _) => if r < |s.readers| then r else -1
    case Release(r) => if r < |s.readers| then r else -1
    case _ => -1
  }

  lemma StepScanOk(s: Pub, m: Move)
    requires Inv(s) && ScanOk(s)
    ensures Sane(Step(s, m)) && ScanOk(Step(s, m))
  {
    hide RefsOk, ContentsOk, Referred, ReaderNext, ReleaseNext;
    StepKeeps(s, m);
    if Mover(s, m) >= 0 {
      ReaderMoves(s, m, Mover(s, m));
      ReadersNarrow(s, Step(s, m), Mover(s, m));
    } else if m.BeginWrite? {
      ReferredBound(s.readers, s.current);
    } else if s.writer.Scan? {
      ScanStep(s);
    }
  }

  /** A scan cannot have passed over every buffer: each reader accounts for at most one. */
  lemma ScanFindsOne(s: Pub)
    requires Sane(s) && ScanOk(s) && s.writer.Scan? && |s.readers| + 2 <= |s.refs|
    ensures s.writer.attempt < |s.refs|
  {
    if s.writer.attempt == |s.refs| {
      var n := |s.refs|;
      BelowAll(n);
      forall i | i in Below(n)
        ensures i in s.writer.blocked + {s.current}
      {
        assert Ahead(s.hint, Dist(s.hint, i, n), n) == i;
      }
      Fits(Below(n), s.writer.blocked + {s.current});
    }
  }

  ghost function Below(n: nat): set<int> {
    if n == 0 then {} else Below(n - 1) + {n - 1}
  }

  lemma {:induction false} BelowAll(n: nat)
    ensures |Below(n)| == n
    ensures forall i :: i in Below(n) <==> 0 <= i < n
  {
    if n > 0 {
      BelowAll(n - 1);
    }
  }

  lemma Fits(a: set<int>, b: set<int>)
    requires a <= b
    ensures |a| <= |b|
  {
    assert b == a + (b - a);
  }

  lemma StepNeverFails(s: Pub, m: Move)
    requires Inv(s) && ScanOk(s) && |s.readers| + 2 <= |s.refs|
    ensures Step(s, m).failures == s.failures
  {
    hide RefsOk, ContentsOk, ScanOk;
    if s.writer.Scan? {
      ScanFindsOne(s);
    }
  }

  /** Writer progress: with at most N-2 readers, each holding at most one buffer, no write ever
      fails to claim a buffer, however the readers pin and release during its scan. */
  lemma {:induction false} WriterNeverStarves(buffers: nat, width: nat, readers: nat, moves: seq<Move>)
    requires buffers >= 3 && readers + 2 <= buffers && readers < WRITER_OWNED
    ensures Inv(Start(buffers, width, readers))
    ensures var s := Run(Start(buffers, width, readers), moves);
            ScanOk(s) && s.failures == 0
  {
    StartOk(buffers, width, readers);
    StartScanOk(buffers, width, readers);
    hide Inv, ScanOk, Step, Start;
    var s0 := Start(buffers, width, readers);
    if moves != [] {
      var n := |moves| - 1;
      WriterNeverStarves(buffers, width, readers, moves[..n]);
      var s := Run(s0, moves[..n]);
      StepScanOk(s, moves[n]);
      StepNeverFails(s, moves[n]);
    }
  }

  lemma StartScanOk(buffers: nat, width: nat, readers: nat)
    requires Inv(Start(buffers, width, readers))
    ensures var s := Start(buffers, width, readers);
            ScanOk(s) && s.failures == 0 && |s.readers| == readers && |s.refs| == buffers
  {
  }

  // ---------------------------------------------------------------------------
  // The bound is exact: with N-1 readers the writer can starve
  // ---------------------------------------------------------------------------

  lemma {:induction false} RunConcat(s: Pub, a: seq<Move>, b: seq<Move>)
    requires Inv(s)
    ensures Run(s, a + b) == Run(Run(s, a), b)
  {
    hide Inv, Step;
    if b == [] {
      assert a + b == a;
    } else {
      var n := |b| - 1;
      RunConcat(s, a, b[..n]);
      assert (a + b)[..|a + b| - 1] == a + b[..n];
    }
  }

  lemma RunOne(s: Pub, m: Move)
    requires Inv(s)
    ensures Run(s, [m]) == Step(s, m)
  {
    assert [m][..0] == [];
  }

  lemma RunTwo(s: Pub, m: Move, rest: seq<Move>)
    requires Inv(s)
    ensures Inv(Step(s, m)) && Run(s, [m] + rest) == Run(Step(s, m), rest)
  {
    hide Inv, Step;
    RunOne(s, m);
    RunConcat(s, [m], rest);
  }

  lemma RunPair(s: Pub, a: Move, b: Move)
    requires Inv(s)
    ensures Inv(Step(s, a)) && Run(s, [a] + [b]) == Step(Step(s, a), b)
  {
    hide RefsOk, ContentsOk, Step;
    RunTwo(s, a, [b]);
    RunOne(Step(s, a), b);
  }

  function Times(m: Move, n: nat): seq<Move> {
    seq(n, _ => m)
  }

  lemma RunTimes(s: Pub, m: Move, n: nat)
    requires Inv(s) && n > 0
    ensures Run(s, Times(m, n)) == Step(Run(s, Times(m, n - 1)), m)
  {
    hide Inv, Step;
    assert Times(m, n)[..n - 1] == Times(m, n - 1);
  }

  /** The first `k` buffers have been filled with `p` and published in turn, each pinned by a reader of its own. */
  ghost function Pinned(buffers: nat, readers: nat, p: Payload, k: nat): Pub {
    Pub(seq(buffers, i => if i < k then 1 else 0), seq(buffers, i => if i < k then p else seq(|p|, _ => 0)),
        k - 1, k, k, WIdle, seq(readers, r => if 0 <= r < k then Holding(r) else RIdle), seq(k, _ => p),
        seq(buffers, i => if i < k then i else -1), 0)
  }

  /** So has buffer `k`, which no reader has pinned yet. */
  ghost function Published(buffers: nat, readers: nat, p: Payload, k: nat): Pub
    requires k < buffers
  {
    var s := Pinned(buffers, readers, p, k);
    s.(current := k, version := k + 1, hint := Next(k, buffers), fills := s.fills + [p], stamp := s.stamp[k := k],
       cells := s.cells[k := p])
  }

  lemma {:induction false} FillRuns(s: Pub, n: nat)
    requires Inv(s) && s.writer.Fill? && s.writer.done == 0 && n <= |s.writer.payload|
    ensures var idx, p := s.writer.idx, s.writer.payload;
            Run(s, Times(WriterStep, n))
            == s.(cells := s.cells[idx := p[..n] + s.cells[idx][n..]], writer := Fill(idx, p, n))
  {
    hide Run, RefsOk, ContentsOk;
    var idx, p := s.writer.idx, s.writer.payload;
    if n == 0 {
      RunNone(s);
      assert Times(WriterStep, 0) == [];
      assert p[..0] + s.cells[idx][0..] == s.cells[idx];
      assert s.cells[idx := s.cells[idx]] == s.cells;
    } else {
      FillRuns(s, n - 1);
      RunTimes(s, WriterStep, n);
      FillOne(s.cells, idx, p, n);
    }
  }

  lemma FillOne(cells: seq<Payload>, idx: nat, p: Payload, n: nat)
    requires idx < |cells| && 0 < n <= |p| == |cells[idx]|
    ensures var had := cells[idx := p[..n - 1] + cells[idx][n - 1..]];
            had[idx := had[idx][n - 1 := p[n - 1]]] == cells[idx := p[..n] + cells[idx][n..]]
  {
    assert (p[..n - 1] + cells[idx][n - 1..])[n - 1 := p[n - 1]] == p[..n] + cells[idx][n..];
  }

  lemma RunNone(s: Pub)
    requires Inv(s)
    ensures Run(s, []) == s
  {
  }

  /** The buffer next in turn is free for a payload of the size of `p`. */
  ghost predicate NextIsFree(s: Pub, p: Payload) {
    && Sane(s) && s.writer.WIdle? && s.hint != s.current && s.refs[s.hint] == 0
    && forall i :: 0 <= i < |s.cells| ==> |s.cells[i]| == |p|
  }

  function ClaimMoves(p: Payload): seq<Move> {
    [BeginWrite(p)] + ([WriterStep] + Times(WriterStep, |p|))
  }

  /** Claim and fill the next buffer. */
  lemma ClaimAndFill(s: Pub, p: Payload)
    requires Inv(s) && NextIsFree(s, p)
    ensures Run(s, ClaimMoves(p))
            == s.(refs := s.refs[s.hint := WRITER_OWNED], cells := s.cells[s.hint := p],
                  writer := Fill(s.hint, p, |p|), hint := Next(s.hint, |s.refs|))
  {
    hide Run, RefsOk, ContentsOk, Referred;
    var k := s.hint;
    var s1 := s.(writer := Scan(s.current, 0, p, Referred(s.readers, s.current)));
    assert Step(s, BeginWrite(p)) == s1;
    RunTwo(s, BeginWrite(p), [WriterStep] + Times(WriterStep, |p|));
    var s2 := s.(refs := s.refs[k := WRITER_OWNED], writer := Fill(k, p, 0), hint := Next(k, |s.refs|));
    assert Step(s1, WriterStep) == s2;
    RunTwo(s1, WriterStep, Times(WriterStep, |p|));
    FillRuns(s2, |p|);
    assert p[..|p|] + s2.cells[k][|p|..] == p;
  }

  function PublishMoves(p: Payload): seq<Move> {
    ClaimMoves(p) + Times(WriterStep, 3)
  }

  /** And publish it. */
  lemma PublishRuns(s: Pub, p: Payload)
    requires Inv(s) && NextIsFree(s, p)
    ensures Run(s, PublishMoves(p))
            == s.(cells := s.cells[s.hint := p], current := s.hint, version := s.version + 1, hint := Next(s.hint, |s.refs|),
                  fills := s.fills + [p], stamp := s.stamp[s.hint := |s.fills|])
  {
    hide Run, RefsOk, ContentsOk, ClaimMoves;
    ClaimAndFill(s, p);
    RunConcat(s, ClaimMoves(p), Times(WriterStep, 3));
    FinishFill(Run(s, ClaimMoves(p)));
    assert s.refs[s.hint := WRITER_OWNED][s.hint := 0] == s.refs;
  }

  lemma PublishNext(s: Pub, buffers: nat, readers: nat, p: Payload, k: nat)
    requires buffers >= 3 && k < buffers && k <= readers && s == Pinned(buffers, readers, p, k) && Inv(s)
    ensures Run(s, PublishMoves(p)) == Published(buffers, readers, p, k)
  {
    hide Run, RefsOk, ContentsOk, PublishMoves;
    PublishRuns(s, p);
  }

  lemma FinishFill(s: Pub)
    requires Inv(s) && s.writer.Fill? && s.writer.done == |s.writer.payload|
    ensures var idx := s.writer.idx;
            Run(s, Times(WriterStep, 3))
            == s.(refs := s.refs[idx := 0], writer := WIdle, fills := s.fills + [s.writer.payload],
                  stamp := s.stamp[idx := |s.fills|], current := idx, version := s.version + 1)
  {
    hide Run, RefsOk, ContentsOk, Referred, ReaderNext, ReleaseNext;
    RunTimes(s, WriterStep, 3);
    RunTimes(s, WriterStep, 2);
    RunTimes(s, WriterStep, 1);
    assert Times(WriterStep, 0) == [];
    RunNone(s);
  }

  function LoadMoves(r: nat): seq<Move> {
    [Read(r)] + [ReaderStep(r, false)]
  }

  lemma LoadRuns(s: Pub, r: nat)
    requires Inv(s) && r < |s.readers| && s.readers[r].RIdle? && s.current >= 0
    ensures Run(s, LoadMoves(r)) == s.(readers := s.readers[r := LoadRefs(s.current, 0)])
  {
    hide Run, RefsOk, ContentsOk;
    var step := ReaderStep(r, false);
    RunPair(s, Read(r), step);
    var s1 := s.(readers := s.readers[r := LoadCurrent(0)]);
    assert Step(s, Read(r)) == s1;
    assert s1.readers[r := LoadRefs(s.current, 0)] == s.readers[r := LoadRefs(s.current, 0)];
  }

  function SwapMoves(r: nat): seq<Move> {
    [ReaderStep(r, false)] + [ReaderStep(r, false)]
  }

  /** A reader that has loaded an index and is then left alone pins that buffer, published or not. */
  lemma SwapRuns(s: Pub, r: nat, idx: nat)
    requires Inv(s) && r < |s.readers| && s.readers[r] == LoadRefs(idx, 0) && !Owned(s.writer, idx)
    ensures Run(s, SwapMoves(r)) == s.(refs := s.refs[idx := s.refs[idx] + 1], readers := s.readers[r := Holding(idx)])
  {
    CountIsSmall(s, idx);
    hide Run, Step, RefsOk, ContentsOk, Owned;
    RunPair(s, ReaderStep(r, false), ReaderStep(r, false));
    CountedSwapped(s, r, idx);
  }

  lemma CountedSwapped(s: Pub, r: nat, idx: nat)
    requires Sane(s) && r < |s.readers| && s.readers[r] == LoadRefs(idx, 0) && Sane(Step(s, ReaderStep(r, false)))
    requires s.refs[idx] < WRITER_OWNED
    ensures Step(Step(s, ReaderStep(r, false)), ReaderStep(r, false))
            == s.(refs := s.refs[idx := s.refs[idx] + 1], readers := s.readers[r := Holding(idx)])
  {
    hide Step;
    Counted(s, r, idx);
    Swapped(Step(s, ReaderStep(r, false)), r, idx);
  }

  lemma Counted(s: Pub, r: nat, idx: nat)
    requires Sane(s) && r < |s.readers| && s.readers[r] == LoadRefs(idx, 0)
    ensures idx < |s.refs|
    ensures Step(s, ReaderStep(r, false)) == s.(readers := s.readers[r := Cas(idx, s.refs[idx], 0)])
  {
  }

  lemma Swapped(s: Pub, r: nat, idx: nat)
    requires Sane(s) && r < |s.readers| && idx < |s.refs|
    requires s.readers[r] == Cas(idx, s.refs[idx], 0) && s.refs[idx] < WRITER_OWNED
    ensures Step(s, ReaderStep(r, false)) == s.(refs := s.refs[idx := s.refs[idx] + 1], readers := s.readers[r := Holding(idx)])
  {
  }

  lemma CountIsSmall(s: Pub, i: nat)
    requires Inv(s) && i < |s.refs| && !Owned(s.writer, i)
    ensures s.refs[i] < WRITER_OWNED
  {
    HoldersBound(s.readers, i);
  }

  function PinMoves(r: nat): seq<Move> {
    LoadMoves(r) + SwapMoves(r)
  }

  /** An idle reader that is left alone pins the published buffer. */
  lemma PinRuns(s: Pub, r: nat)
    requires Inv(s) && r < |s.readers| && s.readers[r].RIdle? && s.current >= 0 && !Owned(s.writer, s.current)
    ensures Run(s, PinMoves(r))
            == s.(refs := s.refs[s.current := s.refs[s.current] + 1], readers := s.readers[r := Holding(s.current)])
  {
    hide Run, RefsOk, ContentsOk, LoadMoves, SwapMoves;
    LoadRuns(s, r);
    var s1 := Run(s, LoadMoves(r));
    RunConcat(s, LoadMoves(r), SwapMoves(r));
    SwapRuns(s1, r, s.current);
    assert s1.readers[r := Holding(s.current)] == s.readers[r := Holding(s.current)];
  }

  /** Reader `k` pins the buffer just published. */
  lemma PinNext(s: Pub, buffers: nat, readers: nat, p: Payload, k: nat)
    requires buffers >= 3 && k + 1 < buffers && k < readers && s == Published(buffers, readers, p, k) && Inv(s)
    ensures Run(s, PinMoves(k)) == Pinned(buffers, readers, p, k + 1)
  {
    hide Run, RefsOk, ContentsOk, PinMoves;
    PinRuns(s, k);
    var t := Pinned(buffers, readers, p, k + 1);
    assert s.readers[k := Holding(k)] == t.readers;
    assert s.refs[k := 1] == t.refs && s.stamp == t.stamp && s.fills == t.fills && s.cells == t.cells;
  }

  lemma StartIsPinned(buffers: nat, readers: nat, p: Payload)
    ensures Start(buffers, |p|, readers) == Pinned(buffers, readers, p, 0)
  {
    var s, t := Start(buffers, |p|, readers), Pinned(buffers, readers, p, 0);
    forall i | 0 <= i < buffers
      ensures s.cells[i] == t.cells[i]
    {
    }
    assert s.cells == t.cells;
    assert s.refs == t.refs && s.readers == t.readers && s.fills == t.fills && s.stamp == t.stamp;
  }

  /** Some run leads from `s0` to `s`. */
  ghost predicate Reach(s0: Pub, s: Pub)
    requires Inv(s0)
  {
    exists moves :: Run(s0, moves) == s
  }

  lemma ReachOn(s0: Pub, s: Pub, more: seq<Move>)
    requires Inv(s0) && Inv(s) && Reach(s0, s)
    ensures Reach(s0, Run(s, more))
  {
    hide Run, Inv;
    var moves :| Run(s0, moves) == s;
    RunConcat(s0, moves, more);
    assert Run(s0, moves + more) == Run(s, more);
  }

  lemma ReachStart(s0: Pub)
    requires Inv(s0)
    ensures Reach(s0, s0)
  {
    assert Run(s0, []) == s0;
  }

  lemma {:induction false} ReachPinned(s0: Pub, buffers: nat, readers: nat, p: Payload, k: nat)
    requires 3 <= buffers <= readers + 1 && k < buffers && s0 == Pinned(buffers, readers, p, 0) && Inv(s0)
    ensures Inv(Pinned(buffers, readers, p, k)) && Reach(s0, Pinned(buffers, readers, p, k))
  {
    hide Pinned, Published, Inv, Run, Reach, PublishMoves, PinMoves;
    if k == 0 {
      ReachStart(s0);
    } else {
      ReachPinned(s0, buffers, readers, p, k - 1);
      var s := Pinned(buffers, readers, p, k - 1);
      PublishNext(s, buffers, readers, p, k - 1);
      ReachOn(s0, s, PublishMoves(p));
      var t := Published(buffers, readers, p, k - 1);
      PinNext(t, buffers, readers, p, k - 1);
      ReachOn(s0, t, PinMoves(k - 1));
    }
  }

  /** Every buffer but the published one is pinned. */
  ghost predicate AllBusy(s: Pub)
    requires Sane(s)
  {
    forall i :: 0 <= i < |s.refs| && i != s.current ==> s.refs[i] != 0
  }

  lemma ScanPasses(s: Pub)
    requires Sane(s) && AllBusy(s) && s.writer.Scan? && s.writer.current == s.current && s.writer.attempt < |s.refs|
    ensures Step(s, WriterStep) == s.(writer := s.writer.(attempt := s.writer.attempt + 1))
  {
  }

  lemma {:induction false} ScanAll(s: Pub, n: nat)
    requires Inv(s) && AllBusy(s) && s.writer.Scan? && s.writer.current == s.current && s.writer.attempt == 0
    requires n <= |s.refs|
    ensures Run(s, Times(WriterStep, n)) == s.(writer := s.writer.(attempt := n))
  {
    hide Run, Step, RefsOk, ContentsOk;
    if n == 0 {
      RunNone(s);
      assert Times(WriterStep, 0) == [];
    } else {
      ScanAll(s, n - 1);
      RunTimes(s, WriterStep, n);
      ScanPasses(Run(s, Times(WriterStep, n - 1)));
    }
  }

  /** The writer is idle and a write of `p` would find no buffer. */
  ghost predicate Stuck(s: Pub, p: Payload) {
    Sane(s) && AllBusy(s) && s.writer.WIdle? && forall i :: 0 <= i < |s.cells| ==> |s.cells[i]| == |p|
  }

  /** Begin a write and try every buffer. */
  lemma FailedScan(s: Pub, p: Payload)
    requires Inv(s) && Stuck(s, p)
    ensures Run(s, [BeginWrite(p)] + Times(WriterStep, |s.refs| + 1)).failures == s.failures + 1
  {
    hide Run, RefsOk, ContentsOk, Referred;
    RunTwo(s, BeginWrite(p), Times(WriterStep, |s.refs| + 1));
    var s1 := s.(writer := Scan(s.current, 0, p, Referred(s.readers, s.current)));
    assert Step(s, BeginWrite(p)) == s1;
    ScanAll(s1, |s.refs|);
    RunTimes(s1, WriterStep, |s.refs| + 1);
  }

  lemma PublishedIsStuck(s: Pub, buffers: nat, readers: nat, p: Payload)
    requires 3 <= buffers && s == Published(buffers, readers, p, buffers - 1) && Inv(s)
    ensures Stuck(s, p)
  {
    hide RefsOk, ContentsOk;
  }

  /** Some run makes a write fail. */
  ghost predicate CanStarve(s0: Pub)
    requires Inv(s0)
  {
    exists s :: Reach(s0, s) && s.failures > 0
  }

  lemma StuckStarves(s0: Pub, s: Pub, p: Payload)
    requires Inv(s0) && Inv(s) && Reach(s0, s) && Stuck(s, p)
    ensures CanStarve(s0)
  {
    hide Run, Inv, Reach, Stuck, Times;
    var fail := [BeginWrite(p)] + Times(WriterStep, |s.refs| + 1);
    FailedScan(s, p);
    ReachOn(s0, s, fail);
    assert Reach(s0, Run(s, fail)) && Run(s, fail).failures > 0;
  }

  /** With N-1 readers or more, whatever payload is being written, some run makes the write fail. */
  lemma WriterCanStarve(buffers: nat, readers: nat, p: Payload)
    requires 3 <= buffers <= readers + 1 && readers < WRITER_OWNED
    ensures Inv(Start(buffers, |p|, readers)) && CanStarve(Start(buffers, |p|, readers))
  {
    StartOk(buffers, |p|, readers);
    hide Start, Pinned, Inv, CanStarve;
    StartIsPinned(buffers, readers, p);
    PinnedStarves(Start(buffers, |p|, readers), buffers, readers, p);
  }

  lemma PinnedStarves(s0: Pub, buffers: nat, readers: nat, p: Payload)
    requires 3 <= buffers <= readers + 1 && s0 == Pinned(buffers, readers, p, 0) && Inv(s0)
    ensures CanStarve(s0)
  {
    hide Run, Pinned, Published, Inv, Stuck, Reach, CanStarve, PublishMoves;
    var k := buffers - 1;
    ReachPinned(s0, buffers, readers, p, k);
    var s := Pinned(buffers, readers, p, k);
    PublishNext(s, buffers, readers, p, k);
    ReachOn(s0, s, PublishMoves(p));
    var t := Published(buffers, readers, p, k);
    PublishedIsStuck(t, buffers, readers, p);
    StuckStarves(s0, t, p);
  }

  /** For buffers of every size, a write can fail exactly when there are more readers than buffers less two. */
  lemma StarvesIff(buffers: nat, width: nat, readers: nat)
    requires buffers >= 3 && readers < WRITER_OWNED
    ensures Inv(Start(buffers, width, readers))
    ensures CanStarve(Start(buffers, width, readers)) <==> readers + 2 > buffers
  {
    StartOk(buffers, width, readers);
    hide Run, Start, Inv, ScanOk;
    var s0 := Start(buffers, width, readers);
    if readers + 2 > buffers {
      WriterCanStarve(buffers, readers, seq(width, _ => 1));
    } else {
      forall moves ensures Run(s0, moves).failures == 0 {
        WriterNeverStarves(buffers, width, readers, moves);
      }
    }
  }

  // ---------------------------------------------------------------------------
  // How recent a pin is
  // ---------------------------------------------------------------------------

  /** Fills are published in order, each before the next one begins; the published buffer is left alone. */
  ghost predicate InOrder(s: Pub)
    requires Sane(s)
  {
    && Newest(s) == |s.fills| - (if s.writer.Publish? then 2 else 1)
    && (s.writer.Publish? ==> s.stamp[s.writer.idx] == |s.fills| - 1)
    && (s.writer.Scan? ==> s.writer.current == s.current)
    && (s.writer.Fill? || s.writer.Publish? ==> s.writer.idx != s.current)
    && (s.current < 0 ==> forall r :: 0 <= r < |s.readers| ==> Target(s.readers[r]) < 0)
  }

  /** The fill last published, or -1. */
  ghost function Newest(s: Pub): int
    requires Sane(s)
  {
    if s.current < 0 then -1 else s.stamp[s.current]
  }

  lemma WriterInOrder(s: Pub)
    requires Inv(s) && InOrder(s)
    ensures Sane(WriterNext(s)) && InOrder(WriterNext(s)) && Newest(s) <= Newest(WriterNext(s))
    ensures s.current >= 0 ==> WriterNext(s).current >= 0
  {
    WriterKeeps(s);
    hide RefsOk, Holders;
  }

  /** Readers leave fills, stamps and the writer alone. */
  lemma ReadersInOrder(s: Pub, s': Pub, r: nat)
    requires Sane(s) && Sane(s') && InOrder(s) && OnlyReader(s, s', r)
    ensures InOrder(s') && Newest(s') == Newest(s)
  {
  }

  lemma StepInOrder(s: Pub, m: Move)
    requires Inv(s) && InOrder(s)
    ensures Sane(Step(s, m)) && InOrder(Step(s, m)) && Newest(s) <= Newest(Step(s, m))
    ensures s.current >= 0 ==> Step(s, m).current >= 0
  {
    StepKeeps(s, m);
    hide RefsOk, ContentsOk, Referred, WriterNext, ReaderNext, ReleaseNext;
    if Mover(s, m) >= 0 {
      ReaderMoves(s, m, Mover(s, m));
      ReadersInOrder(s, Step(s, m), Mover(s, m));
    } else if m == WriterStep {
      WriterInOrder(s);
    }
  }

  /** Reader `r` can only get fills from `least` on. */
  ghost predicate AtLeast(s: Pub, r: nat, least: int)
    requires Sane(s) && r < |s.readers|
  {
    least <= Newest(s) && (Target(s.readers[r]) >= 0 ==> least <= s.stamp[Target(s.readers[r])])
  }

  lemma StepAtLeast(s: Pub, m: Move, r: nat, least: int)
    requires Inv(s) && InOrder(s) && r < |s.readers| && AtLeast(s, r, least)
    ensures Sane(Step(s, m)) && |Step(s, m).readers| == |s.readers| && AtLeast(Step(s, m), r, least)
  {
    StepKeeps(s, m);
    StepInOrder(s, m);
    StampsGrow(s, m);
    hide RefsOk, ContentsOk, Referred, InOrder, Newest;
    StepTarget(s, m, r);
  }

  /** A reader turns to the published buffer or stays with the one it has. */
  lemma StepTarget(s: Pub, m: Move, r: nat)
    requires Sane(s) && r < |s.readers|
    ensures |Step(s, m).readers| == |s.readers|
    ensures var t := Target(Step(s, m).readers[r]);
            t < 0 || t == Target(s.readers[r]) || (t == s.current && Step(s, m).current == s.current && Step(s, m).stamp == s.stamp)
  {
    hide Referred;
  }

  lemma StampsGrow(s: Pub, m: Move)
    requires Inv(s)
    ensures |Step(s, m).stamp| == |s.stamp|
    ensures forall i :: 0 <= i < |s.stamp| ==> s.stamp[i] <= Step(s, m).stamp[i]
  {
    hide RefsOk, Referred, Holders;
  }

  lemma {:induction false} RunInOrder(s: Pub, moves: seq<Move>)
    requires Inv(s) && InOrder(s)
    ensures InOrder(Run(s, moves)) && Newest(s) <= Newest(Run(s, moves))
    ensures s.current >= 0 ==> Run(s, moves).current >= 0
  {
    hide Inv, InOrder, Newest, Step;
    if moves != [] {
      RunInOrder(s, moves[..|moves| - 1]);
      StepInOrder(Run(s, moves[..|moves| - 1]), moves[|moves| - 1]);
    }
  }

  lemma {:induction false} RunAtLeast(s: Pub, moves: seq<Move>, r: nat, least: int)
    requires Inv(s) && InOrder(s) && r < |s.readers| && AtLeast(s, r, least)
    ensures AtLeast(Run(s, moves), r, least)
  {
    hide Inv, InOrder, AtLeast, Newest, Step;
    if moves != [] {
      var n := |moves| - 1;
      RunAtLeast(s, moves[..n], r, least);
      RunInOrder(s, moves[..n]);
      StepAtLeast(Run(s, moves[..n]), moves[n], r, least);
    }
  }

  lemma StartInOrder(buffers: nat, width: nat, readers: nat)
    requires Inv(Start(buffers, width, readers))
    ensures InOrder(Start(buffers, width, readers))
  {
  }

  /** A reachable state: in order, and everything later is too. */
  lemma ReachedInOrder(buffers: nat, width: nat, readers: nat, moves: seq<Move>)
    requires buffers >= 3 && readers < WRITER_OWNED
    ensures Inv(Start(buffers, width, readers)) && InOrder(Run(Start(buffers, width, readers), moves))
  {
    StartOk(buffers, width, readers);
    StartInOrder(buffers, width, readers);
    hide Start, Inv, InOrder;
    RunInOrder(Start(buffers, width, readers), moves);
  }

  /** The fill that a reader has pinned. */
  ghost function PinOf(s: Pub, r: nat): int
    requires Inv(s) && r < |s.readers| && s.readers[r].Holding?
  {
    s.stamp[s.readers[r].idx]
  }

  /** A pin is at least as new as what was published when the reader last referred to no buffer, and so at
      every load of the index before it. */
  lemma PinIsRecent(buffers: nat, width: nat, readers: nat, before: seq<Move>, after: seq<Move>, r: nat)
    requires buffers >= 3 && r < readers < WRITER_OWNED
    ensures Inv(Start(buffers, width, readers))
    ensures var s := Run(Start(buffers, width, readers), before);
            var s' := Run(s, after);
            Target(s.readers[r]) < 0 && s'.readers[r].Holding? ==> Newest(s) <= PinOf(s', r)
  {
    ReachedInOrder(buffers, width, readers, before);
    hide Start, InOrder, RefsOk, ContentsOk, Newest, Run;
    var s := Run(Start(buffers, width, readers), before);
    if Target(s.readers[r]) < 0 {
      RunAtLeast(s, after, r, Newest(s));
    }
  }

  /** Some continuation makes reader `r` pin an older fill than `fill`. */
  ghost predicate CanPinOlder(s: Pub, r: nat, fill: int)
    requires Inv(s) && r < |s.readers|
  {
    exists moves :: PinsOlder(Run(s, moves), r, fill)
  }

  ghost predicate PinsOlder(s: Pub, r: nat, fill: int)
    requires Inv(s) && r < |s.readers|
  {
    s.readers[r].Holding? && PinOf(s, r) < fill
  }

  /** `fill` is complete and its buffer open to readers, but it is not published yet. */
  ghost predicate AwaitsPublication(s: Pub, fill: int)
    requires Sane(s)
  {
    s.writer.Publish? && s.stamp[s.writer.idx] == fill
  }

  lemma PinOlder(s: Pub, r: nat, fill: int)
    requires Inv(s) && InOrder(s) && r < |s.readers| && s.readers[r].RIdle? && s.current >= 0 && Newest(s) < fill
    ensures CanPinOlder(s, r, fill)
  {
    hide Run, PinMoves;
    PinRuns(s, r);
    assert PinsOlder(Run(s, PinMoves(r)), r, fill);
  }

  /** When a reader's pins can go backwards: after a pin of `fill` has been released, a later pin can be older
      if and only if `fill` still awaits publication. */
  lemma GoesBackIff(buffers: nat, width: nat, readers: nat, before: seq<Move>, between: seq<Move>, r: nat)
    requires buffers >= 3 && r < readers < WRITER_OWNED
    ensures Inv(Start(buffers, width, readers))
    ensures var s := Run(Start(buffers, width, readers), before);
            var s' := Run(s, between);
            s.readers[r].Holding? && s'.readers[r].RIdle? ==>
              (CanPinOlder(s', r, PinOf(s, r)) <==> AwaitsPublication(s', PinOf(s, r)))
  {
    ReachedInOrder(buffers, width, readers, before);
    hide Start, RefsOk, ContentsOk, Run, CanPinOlder;
    var s := Run(Start(buffers, width, readers), before);
    var s' := Run(s, between);
    if s.readers[r].Holding? && s'.readers[r].RIdle? {
      var fill := PinOf(s, r);
      RunInOrder(s, between);
      FillsOnlyGrow(s, between);
      PinIsFill(s, r);
      if AwaitsPublication(s', fill) {
        PinOlder(s', r, fill);
      } else {
        assert fill <= Newest(s');
        NeverOlder(s', r, fill);
      }
    }
  }

  lemma PinIsFill(s: Pub, r: nat)
    requires Inv(s) && r < |s.readers| && s.readers[r].Holding?
    ensures 0 <= PinOf(s, r) < |s.fills|
  {
  }

  lemma {:induction false} FillsOnlyGrow(s: Pub, moves: seq<Move>)
    requires Inv(s)
    ensures |s.fills| <= |Run(s, moves).fills|
  {
    hide RefsOk, ContentsOk;
    if moves != [] {
      FillsOnlyGrow(s, moves[..|moves| - 1]);
    }
  }

  lemma NeverOlder(s: Pub, r: nat, fill: int)
    requires Inv(s) && InOrder(s) && r < |s.readers| && s.readers[r].RIdle? && fill <= Newest(s)
    ensures !CanPinOlder(s, r, fill)
  {
    hide InOrder, RefsOk, ContentsOk, Newest, Run;
    forall moves
      ensures !PinsOlder(Run(s, moves), r, fill)
    {
      RunAtLeast(s, moves, r, fill);
    }
  }

  /** Pins never go back by more than one fill. */
  lemma BackByOneAtMost(buffers: nat, width: nat, readers: nat, before: seq<Move>, after: seq<Move>, r: nat)
    requires buffers >= 3 && r < readers < WRITER_OWNED
    ensures Inv(Start(buffers, width, readers))
    ensures var s := Run(Start(buffers, width, readers), before);
            var s' := Run(s, after);
            s.readers[r].Holding? && s'.readers[r].Holding? ==> PinOf(s', r) >= PinOf(s, r) - 1
  {
    ReachedInOrder(buffers, width, readers, before);
    hide Start, RefsOk, ContentsOk, Run;
    var s := Run(Start(buffers, width, readers), before);
    if s.readers[r].Holding? {
      PinIsFill(s, r);
      RunAtLeast(s, after, r, PinOf(s, r) - 1);
    }
  }

  /** The first `k` buffers have been filled with `p` and published in turn; reader 0 loaded the index of the
      first one and has gone no further. */
  ghost function Lagging(buffers: nat, readers: nat, p: Payload, k: nat): Pub
    requires 0 < k <= buffers && readers > 0
  {
    Pub(seq(buffers, _ => 0), seq(buffers, i => if i < k then p else seq(|p|, _ => 0)), k - 1, k, Next(k - 1, buffers), WIdle,
        seq(readers, r => if r == 0 then LoadRefs(0, 0) else RIdle), seq(k, _ => p),
        seq(buffers, i => if i < k then i else -1), 0)
  }

  lemma {:induction false} ReachLagging(s0: Pub, buffers: nat, readers: nat, p: Payload, k: nat)
    requires buffers >= 3 && readers > 0 && 0 < k <= buffers && s0 == Start(buffers, |p|, readers) && Inv(s0)
    ensures Inv(Lagging(buffers, readers, p, k)) && Reach(s0, Lagging(buffers, readers, p, k))
  {
    hide Inv, Run, Reach, PublishMoves, LoadMoves, Lagging, Start;
    if k == 1 {
      FirstLags(s0, buffers, readers, p);
      ReachStart(s0);
      ReachOn(s0, s0, PublishMoves(p) + LoadMoves(0));
    } else {
      ReachLagging(s0, buffers, readers, p, k - 1);
      var s := Lagging(buffers, readers, p, k - 1);
      NextLags(s, buffers, readers, p, k - 1);
      ReachOn(s0, s, PublishMoves(p));
    }
  }

  lemma NextLags(s: Pub, buffers: nat, readers: nat, p: Payload, k: nat)
    requires buffers >= 3 && readers > 0 && 0 < k < buffers && s == Lagging(buffers, readers, p, k) && Inv(s)
    ensures Run(s, PublishMoves(p)) == Lagging(buffers, readers, p, k + 1)
  {
    hide Run, RefsOk, ContentsOk, PublishMoves;
    PublishRuns(s, p);
    var t := Lagging(buffers, readers, p, k + 1);
    assert s.cells[k := p] == t.cells && s.fills + [p] == t.fills && s.stamp[k := k] == t.stamp;
  }

  lemma FirstLags(s: Pub, buffers: nat, readers: nat, p: Payload)
    requires buffers >= 3 && readers > 0 && s == Start(buffers, |p|, readers) && Inv(s)
    ensures Run(s, PublishMoves(p) + LoadMoves(0)) == Lagging(buffers, readers, p, 1)
  {
    hide Run, RefsOk, ContentsOk, PublishMoves, LoadMoves;
    PublishRuns(s, p);
    RunConcat(s, PublishMoves(p), LoadMoves(0));
    LoadRuns(Run(s, PublishMoves(p)), 0);
    var t := Lagging(buffers, readers, p, 1);
    assert s.cells[0 := p] == t.cells && s.fills + [p] == t.fills && s.stamp[0 := 0] == t.stamp;
    assert s.readers[0 := LoadRefs(0, 0)] == t.readers;
  }

  /** With the writer about to publish buffer 0 again, reader 0 pins it. */
  function OvertakeMoves(p: Payload): seq<Move> {
    (ClaimMoves(p) + [WriterStep]) + SwapMoves(0)
  }

  lemma Overtakes(s: Pub, buffers: nat, readers: nat, p: Payload)
    requires buffers >= 3 && readers > 0 && s == Lagging(buffers, readers, p, buffers) && Inv(s)
    ensures var t := Run(s, OvertakeMoves(p));
            t.readers[0] == Holding(0) && t.stamp[0] == buffers && t.writer == Publish(0) && |t.fills| == buffers + 1
  {
    hide Run, RefsOk, ContentsOk, ClaimMoves, SwapMoves;
    ClaimAndFill(s, p);
    var s1 := Run(s, ClaimMoves(p));
    RunConcat(s, ClaimMoves(p), [WriterStep]);
    RunOne(s1, WriterStep);
    var s2 := Step(s1, WriterStep);
    RunConcat(s, ClaimMoves(p) + [WriterStep], SwapMoves(0));
    SwapRuns(s2, 0, 0);
  }

  /** It does happen: whatever the number of buffers and the payload, some run leads a reader to a fill that
      awaits publication, so that by the rule above its next pin can be older. */
  lemma PinsCanGoBack(buffers: nat, readers: nat, p: Payload) returns (before: seq<Move>, between: seq<Move>)
    requires buffers >= 3 && 0 < readers < WRITER_OWNED
    ensures Inv(Start(buffers, |p|, readers))
    ensures var s := Run(Start(buffers, |p|, readers), before);
            var s' := Run(s, between);
            && s.readers[0].Holding? && PinOf(s, 0) == buffers
            && s'.readers[0].RIdle? && CanPinOlder(s', 0, PinOf(s, 0))
  {
    StartOk(buffers, |p|, readers);
    hide Start, Lagging, Inv, Run, Reach, OvertakeMoves, CanPinOlder;
    var s0 := Start(buffers, |p|, readers);
    ReachLagging(s0, buffers, readers, p, buffers);
    var lag := Lagging(buffers, readers, p, buffers);
    Overtakes(lag, buffers, readers, p);
    ReachOn(s0, lag, OvertakeMoves(p));
    before := MovesTo(s0, Run(lag, OvertakeMoves(p)));
    between := [Release(0)];
    ReleasedStill(Run(s0, before));
    GoesBackIff(buffers, |p|, readers, before, between, 0);
  }

  lemma MovesTo(s0: Pub, s: Pub) returns (moves: seq<Move>)
    requires Inv(s0) && Reach(s0, s)
    ensures Run(s0, moves) == s
  {
    hide Run, Inv;
    moves :| Run(s0, moves) == s;
  }

  lemma ReleasedStill(s: Pub)
    requires Inv(s) && |s.readers| > 0 && s.readers[0].Holding? && s.writer == Publish(s.readers[0].idx)
    ensures var s' := Run(s, [Release(0)]);
            s'.readers[0].RIdle? && AwaitsPublication(s', PinOf(s, 0))
  {
    hide RefsOk, ContentsOk, Run;
    RunOne(s, Release(0));
  }

  // ---------------------------------------------------------------------------
  // When a read gives up
  // ---------------------------------------------------------------------------

  /** How often the current read of `r` has met a buffer that the writer had marked. */
  ghost function Marks(s0: Pub, moves: seq<Move>, r: nat): nat
    requires Inv(s0) && r < |s0.readers|
  {
    if moves == [] then 0
    else
      var n := |moves| - 1;
      MarksAfter(Run(s0, moves[..n]).readers[r], moves[n], r, Marks(s0, moves[..n], r))
  }

  /** A new read starts counting; meeting a mark counts. */
  ghost function MarksAfter(rd: Reader, m: Move, r: nat, marks: nat): nat {
    if m == Read(r) && rd.RIdle? then 0
    else if m.ReaderStep? && m.r == r && rd.Cas? && rd.seen >= 0x8000_0000 then marks + 1
    else marks
  }

  lemma AttemptStep(s: Pub, m: Move, r: nat, k: nat)
    requires Sane(s) && r < |s.readers| && AttemptIs(s.readers[r], k)
    ensures |Step(s, m).readers| == |s.readers| && AttemptIs(Step(s, m).readers[r], MarksAfter(s.readers[r], m, r, k))
  {
    hide WriterNext, Referred;
    if m == WriterStep {
      WriterLeavesReaders(s);
    }
  }

  lemma WriterLeavesReaders(s: Pub)
    requires Sane(s)
    ensures WriterNext(s).readers == s.readers
  {
  }

  /** The attempt a reader is at. */
  ghost predicate AttemptIs(rd: Reader, k: nat) {
    match rd
    case LoadCurrent(a) => a == k
    case LoadRefs(_, a) => a == k
    case Cas(_, _, a) => a == k
    case _ => true
  }

  lemma {:induction false} AttemptsAreMarks(s0: Pub, moves: seq<Move>, r: nat)
    requires Inv(s0) && r < |s0.readers| && s0.readers[r].RIdle?
    ensures AttemptIs(Run(s0, moves).readers[r], Marks(s0, moves, r))
  {
    hide RefsOk, ContentsOk, Step, AttemptIs, MarksAfter;
    if moves == [] {
      IdleAttempt(s0.readers[r]);
    } else {
      var n := |moves| - 1;
      AttemptsAreMarks(s0, moves[..n], r);
      AttemptStep(Run(s0, moves[..n]), moves[n], r, Marks(s0, moves[..n], r));
    }
  }

  lemma IdleAttempt(rd: Reader)
    requires rd.RIdle?
    ensures AttemptIs(rd, 0)
  {
  }

  /** A read that is about to load the index gives up if and only if nothing has been published or it has met the
      writer's mark sixteen times. */
  lemma GivesUpIff(buffers: nat, width: nat, readers: nat, moves: seq<Move>, r: nat, spurious: bool)
    requires buffers >= 3 && r < readers < WRITER_OWNED
    ensures Inv(Start(buffers, width, readers))
    ensures var s0 := Start(buffers, width, readers);
            var s := Run(s0, moves);
            s.readers[r].LoadCurrent? ==>
              (Step(s, ReaderStep(r, spurious)).readers[r].RIdle? <==> s.current < 0 || Marks(s0, moves, r) >= 16)
  {
    StartOk(buffers, width, readers);
    var s0 := Start(buffers, width, readers);
    assert s0.readers[r].RIdle?;
    hide Start, RefsOk, ContentsOk, Run, Marks;
    AttemptsAreMarks(s0, moves, r);
  }
}
