/** The seqlock as a transition system: one writer and many readers, each step one atomic load
    or store of the sequence counter or of one payload word. */
module Seqlock {
  import opened Words

  datatype Writer = WIdle | Storing(payload: seq<u64>, done: nat)

  /** `Copying` remembers the counter value and the store that was current when it was loaded. */
  datatype Phase = RIdle | Begin | Copying(before: u32, store: nat, copied: seq<u64>)

  /** What a load returned: the newest store when its copy began, the newest when its check passed, and the copy. */
  datatype Result = Result(store: nat, seen: nat, payload: seq<u64>)

  datatype Reader = Reader(phase: Phase, results: seq<Result>)

  /** `history[0]` is the zeroed initial value and `history[k]` the payload of the k-th store. */
  datatype Lock = Lock(counter: u32, words: seq<u64>, writer: Writer, readers: seq<Reader>, history: seq<seq<u64>>)

  datatype Move = Store(payload: seq<u64>) | WriterStep | Load(r: nat) | ReaderStep(r: nat) | GiveUp(r: nat)

  ghost function Start(width: nat, readers: nat): (s: Lock)
    ensures |s.history| > 0
  {
    Lock(0, seq(width, _ => 0), WIdle, seq(readers, _ => Reader(RIdle, [])), [seq(width, _ => 0)])
  }

  function WriterNext(s: Lock): Lock {
    match s.writer
    case WIdle => s
    case Storing(p, done) =>
      if done < |s.words| && done < |p| then s.(words := s.words[done := p[done]], writer := Storing(p, done + 1))
      else s.(counter := (s.counter + 1) % TWO32, writer := WIdle, history := s.history + [p])
  }

  function ReaderNext(s: Lock, rd: Reader): Reader
    requires |s.history| > 0
  {
    match rd.phase
    case RIdle => rd
    case Begin =>
      if s.counter % 2 == 1 then rd  // writer mid-update: try again
      else rd.(phase := Copying(s.counter, |s.history| - 1, []))
    case Copying(before, store, copied) =>
      if |copied| < |s.words| then rd.(phase := Copying(before, store, copied + [s.words[|copied|]]))
      else if s.counter == before then Reader(RIdle, rd.results + [Result(store, |s.history| - 1, copied)])
      else rd.(phase := Begin)
  }

  function Step(s: Lock, m: Move): (r: Lock)
    requires |s.history| > 0
    ensures |r.history| > 0
  {
    match m
    case Store(p) =>
      if s.writer.WIdle? && |p| == |s.words| then s.(counter := (s.counter + 1) % TWO32, writer := Storing(p, 0)) else s
    case WriterStep => WriterNext(s)
    case Load(r) =>
      if r < |s.readers| && s.readers[r].phase.RIdle? then s.(readers := s.readers[r := s.readers[r].(phase := Begin)]) else s
    case ReaderStep(r) =>
      if r < |s.readers| then s.(readers := s.readers[r := ReaderNext(s, s.readers[r])]) else s
    case GiveUp(r) =>
      if r < |s.readers| then s.(readers := s.readers[r := s.readers[r].(phase := RIdle)]) else s
  }

  ghost function Run(s: Lock, moves: seq<Move>): (r: Lock)
    requires |s.history| > 0
    ensures |r.history| > 0
  {
    if moves == [] then s else Step(Run(s, moves[..|moves| - 1]), moves[|moves| - 1])
  }

  // ---------------------------------------------------------------------------
  // Invariant
  // ---------------------------------------------------------------------------

  /** Half-steps of the counter since the start: two per completed store, one for a store in progress. */
  ghost function Ticks(s: Lock): nat
    requires |s.history| > 0
  {
    2 * (|s.history| - 1) + if s.writer.WIdle? then 0 else 1
  }

  ghost predicate WriterOk(s: Lock)
    requires |s.history| > 0
  {
    && s.counter == Ticks(s) % TWO32
    && (match s.writer
        case WIdle => s.words == s.history[|s.history| - 1]
        case Storing(p, done) => |p| == |s.words| && done <= |p| && s.words[..done] == p[..done])
  }

  /** Every load spanned a multiple of 2^31 stores; one that spanned none returned the payload of its
      store; none saw a store newer than `upTo`, and each began no earlier than the one before it ended. */
  ghost predicate ResultsOk(history: seq<seq<u64>>, results: seq<Result>, upTo: nat) {
    && (forall k :: 0 <= k < |results| ==> ResultOk(history, results[k], upTo))
    && (forall j, k :: 0 <= j < k < |results| ==> results[j].seen <= results[k].store)
  }

  ghost predicate ResultOk(history: seq<seq<u64>>, res: Result, upTo: nat) {
    && res.store <= res.seen <= upTo && res.seen < |history|
    && (res.seen - res.store) % 0x8000_0000 == 0
    && (res.seen == res.store ==> res.payload == history[res.store])
  }

  ghost predicate ReaderOk(history: seq<seq<u64>>, words: seq<u64>, ticks: nat, rd: Reader)
    requires |history| > 0
  {
    match rd.phase
    case RIdle => ResultsOk(history, rd.results, |history| - 1)
    case Begin => ResultsOk(history, rd.results, |history| - 1)
    case Copying(before, store, copied) =>
      && store < |history|
      && ResultsOk(history, rd.results, store)
      && before == 2 * store % TWO32
      && |copied| <= |words|
      && (ticks == 2 * store ==> copied == words[..|copied|])
  }

  ghost predicate Inv(s: Lock) {
    && |s.history| > 0
    && (forall k :: 0 <= k < |s.history| ==> |s.history[k]| == |s.words|)
    && WriterOk(s)
    && (forall r :: 0 <= r < |s.readers| ==> ReaderOk(s.history, s.words, Ticks(s), s.readers[r]))
  }

  /** An unchanged counter means that no store is in progress and that a multiple of 2^31 have
      completed since; with none completed no store touched the words. */
  lemma UnchangedMeansWrapped(s: Lock, store: nat)
    requires |s.history| > 0 && s.counter == Ticks(s) % TWO32
    requires store < |s.history| && s.counter == 2 * store % TWO32
    ensures s.writer.WIdle? && (|s.history| - 1 - store) % 0x8000_0000 == 0
  {
    var d := Ticks(s) - 2 * store;
    SameRemainder(Ticks(s), 2 * store);
    assert d % TWO32 == 0;
    HalfMultiple(|s.history| - 1 - store, d);
  }

  lemma SameRemainder(a: nat, b: nat)
    requires b <= a && a % TWO32 == b % TWO32
    ensures (a - b) % TWO32 == 0
  {
  }

  lemma HalfMultiple(x: nat, d: nat)
    requires d % TWO32 == 0 && (d == 2 * x || d == 2 * x + 1)
    ensures d == 2 * x && x % 0x8000_0000 == 0
  {
    var q := d / TWO32;
    assert d == q * TWO32;
    assert x == q * 0x8000_0000;
  }

  lemma ReaderKeeps(s: Lock, r: nat)
    requires Inv(s) && r < |s.readers|
    ensures ReaderOk(s.history, s.words, Ticks(s), ReaderNext(s, s.readers[r]))
  {
    var rd := s.readers[r];
    assert ReaderOk(s.history, s.words, Ticks(s), rd);
    match rd.phase
    case RIdle =>
    case Begin =>
    case Copying(before, store, copied) =>
      if |copied| == |s.words| && s.counter == before {
        UnchangedMeansWrapped(s, store);
        assert s.words[..|copied|] == s.words;
      }
  }

  /** Once a newer store has begun, a reader's partial copy no longer promises anything. */
  lemma ReaderOutlived(history: seq<seq<u64>>, words: seq<u64>, ticks: nat,
                       history': seq<seq<u64>>, words': seq<u64>, ticks': nat, rd: Reader)
    requires |history| > 0 && history <= history' && |words'| == |words|
    requires ReaderOk(history, words, ticks, rd) && ticks' > 2 * (|history| - 1)
    ensures ReaderOk(history', words', ticks', rd)
  {
  }

  lemma StoreBegins(s: Lock, p: seq<u64>)
    requires Inv(s) && s.writer.WIdle? && |p| == |s.words|
    ensures Inv(s.(counter := (s.counter + 1) % TWO32, writer := Storing(p, 0)))
  {
    hide ReaderOk;
    var s' := s.(counter := (s.counter + 1) % TWO32, writer := Storing(p, 0));
    forall r | 0 <= r < |s'.readers|
      ensures ReaderOk(s'.history, s'.words, Ticks(s'), s'.readers[r])
    {
      ReaderOutlived(s.history, s.words, Ticks(s), s'.history, s'.words, Ticks(s'), s.readers[r]);
    }
  }

  lemma ReadersOutlived(s: Lock, s': Lock)
    requires Inv(s) && s.writer.Storing? && |s'.history| > 0
    requires s.history <= s'.history && |s'.words| == |s.words| && s'.readers == s.readers && Ticks(s') >= Ticks(s)
    ensures forall r :: 0 <= r < |s'.readers| ==> ReaderOk(s'.history, s'.words, Ticks(s'), s'.readers[r])
  {
    hide ReaderOk;
    forall r | 0 <= r < |s'.readers|
      ensures ReaderOk(s'.history, s'.words, Ticks(s'), s'.readers[r])
    {
      ReaderOutlived(s.history, s.words, Ticks(s), s'.history, s'.words, Ticks(s'), s.readers[r]);
    }
  }

  lemma WordWritten(words: seq<u64>, p: seq<u64>, done: nat)
    requires done < |words| == |p| && words[..done] == p[..done]
    ensures words[done := p[done]][..done + 1] == p[..done + 1]
  {
    var w := words[done := p[done]];
    assert w[..done] == words[..done];
    assert w[..done + 1] == w[..done] + [w[done]] && p[..done + 1] == p[..done] + [p[done]];
  }

  lemma StoreEnds(s: Lock)
    requires Inv(s) && s.writer.Storing? && s.writer.done == |s.words|
    ensures Inv(WriterNext(s))
  {
    hide ReaderOk;
    ReadersOutlived(s, WriterNext(s));
    assert s.words[..s.writer.done] == s.words && s.writer.payload[..s.writer.done] == s.writer.payload;
    assert (Ticks(s) % TWO32 + 1) % TWO32 == (Ticks(s) + 1) % TWO32;
  }

  lemma WriterKeeps(s: Lock)
    requires Inv(s)
    ensures Inv(WriterNext(s))
  {
    hide ReaderOk;
    if s.writer.Storing? {
      if s.writer.done < |s.words| {
        ReadersOutlived(s, WriterNext(s));
        WordWritten(s.words, s.writer.payload, s.writer.done);
      } else {
        StoreEnds(s);
      }
    }
  }

  lemma UpdateReader(s: Lock, r: nat, rd: Reader)
    requires Inv(s) && r < |s.readers| && ReaderOk(s.history, s.words, Ticks(s), rd)
    ensures Inv(s.(readers := s.readers[r := rd]))
  {
    var s' := s.(readers := s.readers[r := rd]);
    forall k | 0 <= k < |s'.readers|
      ensures ReaderOk(s'.history, s'.words, Ticks(s'), s'.readers[k])
    {
      assert ReaderOk(s.history, s.words, Ticks(s), s.readers[k]);
    }
  }

  lemma CallsKeep(s: Lock, r: nat)
    requires Inv(s) && r < |s.readers|
    ensures Inv(s.(readers := s.readers[r := s.readers[r].(phase := RIdle)]))
    ensures s.readers[r].phase.RIdle? ==> Inv(s.(readers := s.readers[r := s.readers[r].(phase := Begin)]))
  {
    assert ReaderOk(s.history, s.words, Ticks(s), s.readers[r]);
    UpdateReader(s, r, s.readers[r].(phase := RIdle));
    if s.readers[r].phase.RIdle? {
      UpdateReader(s, r, s.readers[r].(phase := Begin));
    }
  }

  lemma StepKeeps(s: Lock, m: Move)
    requires Inv(s)
    ensures Inv(Step(s, m))
  {
    hide WriterOk, ReaderOk, WriterNext, ReaderNext;
    match m
    case Store(p) =>
      if s.writer.WIdle? && |p| == |s.words| {
        StoreBegins(s, p);
      }
    case WriterStep => WriterKeeps(s);
    case Load(r) =>
      if r < |s.readers| {
        CallsKeep(s, r);
      }
    case ReaderStep(r) =>
      if r < |s.readers| {
        ReaderKeeps(s, r);
        UpdateReader(s, r, ReaderNext(s, s.readers[r]));
      }
    case GiveUp(r) =>
      if r < |s.readers| {
        CallsKeep(s, r);
      }
  }

  /** A load may span this many stores without harm: none at all, or a number that does not bring the
      32-bit counter back to where it was. */
  predicate Harmless(d: nat) {
    d == 0 || d % 0x8000_0000 != 0
  }

  /** A load that succeeds returns the newest completed store at that very instant, with no store in
      progress, unless it spans a positive multiple of 2^31 stores. */
  lemma SuccessIsCurrent(s: Lock, r: nat)
    requires Inv(s) && r < |s.readers| && s.readers[r].phase.Copying?
    requires Harmless(|s.history| - 1 - s.readers[r].phase.store)
    requires |s.readers[r].phase.copied| == |s.words| && s.counter == s.readers[r].phase.before
    ensures s.writer.WIdle?
    ensures ReaderNext(s, s.readers[r]).results
            == s.readers[r].results + [Result(|s.history| - 1, |s.history| - 1, s.history[|s.history| - 1])]
  {
    assert ReaderOk(s.history, s.words, Ticks(s), s.readers[r]);
    UnchangedMeansWrapped(s, s.readers[r].phase.store);
    assert s.words[..|s.words|] == s.words;
  }

  lemma {:induction false} RunKeeps(width: nat, readers: nat, moves: seq<Move>)
    ensures Inv(Run(Start(width, readers), moves))
  {
    hide Step;
    if moves != [] {
      RunKeeps(width, readers, moves[..|moves| - 1]);
      StepKeeps(Run(Start(width, readers), moves[..|moves| - 1]), moves[|moves| - 1]);
    }
  }

  /** `res` is the `k`-th load of reader `r`. */
  ghost predicate Loaded(s: Lock, r: nat, k: nat, res: Result) {
    r < |s.readers| && k < |s.readers[r].results| && s.readers[r].results[k] == res
  }

  /** Linearizability: under every interleaving, each successful load that does not span a positive multiple
      of 2^31 stores returns the payload of one completed store (or the initial value), the one that was
      current from the start of its copy to its check; and no load began before the reader's previous one
      had ended. */
  lemma LoadsAreConsistent(width: nat, readers: nat, moves: seq<Move>, r: nat, k: nat, res: Result)
    requires Loaded(Run(Start(width, readers), moves), r, k, res)
    ensures var s := Run(Start(width, readers), moves);
            && res.store <= res.seen < |s.history|
            && (Harmless(res.seen - res.store) ==> res.seen == res.store && res.payload == s.history[res.store])
            && (k > 0 ==> s.readers[r].results[k - 1].seen <= res.store)
  {
    hide Run, Start;
    RunKeeps(width, readers, moves);
    var s := Run(Start(width, readers), moves);
    assert ReaderOk(s.history, s.words, Ticks(s), s.readers[r]);
    assert ResultsOk(s.history, s.readers[r].results, |s.history| - 1);
    assert ResultOk(s.history, s.readers[r].results[k], |s.history| - 1);
  }

  // ---------------------------------------------------------------------------
  // The condition is exact: a positive multiple of 2^31 stores brings the counter back
  // ---------------------------------------------------------------------------

  function Constant(width: nat, v: u64): (p: seq<u64>)
    ensures |p| == width && forall i :: 0 <= i < width ==> p[i] == v
  {
    seq(width, _ => v)
  }

  function Times(m: Move, n: nat): seq<Move> {
    seq(n, _ => m)
  }

  /** One complete store. */
  function StoreMoves(p: seq<u64>): seq<Move> {
    [Store(p)] + Times(WriterStep, |p| + 1)
  }

  ghost function Repeat(p: seq<u64>, k: nat): seq<Move> {
    if k == 0 then [] else Repeat(p, k - 1) + StoreMoves(p)
  }

  lemma {:induction false} RunConcat(s: Lock, a: seq<Move>, b: seq<Move>)
    requires |s.history| > 0
    ensures Run(s, a + b) == Run(Run(s, a), b)
  {
    if b == [] {
      assert a + b == a;
    } else {
      var n := |b| - 1;
      RunConcat(s, a, b[..n]);
      assert (a + b)[..|a + b| - 1] == a + b[..n];
    }
  }

  lemma RunOne(s: Lock, m: Move)
    requires |s.history| > 0
    ensures Run(s, [m]) == Step(s, m)
  {
    assert [m][..0] == [];
  }

  lemma RunNone(s: Lock)
    requires |s.history| > 0
    ensures Run(s, []) == s
  {
  }

  /** Running one more of the same move. */
  lemma RunTimes(s: Lock, m: Move, n: nat)
    requires |s.history| > 0 && n > 0
    ensures Run(s, Times(m, n)) == Step(Run(s, Times(m, n - 1)), m)
  {
    assert Times(m, n)[..n - 1] == Times(m, n - 1);
  }

  /** The writer after `n` words of a store. */
  lemma {:induction false} WordsRun(s: Lock, p: seq<u64>, n: nat)
    requires |s.history| > 0 && s.writer == Storing(p, 0) && |p| == |s.words| && n <= |p|
    ensures Run(s, Times(WriterStep, n)) == s.(words := p[..n] + s.words[n..], writer := Storing(p, n))
  {
    hide Run;
    if n == 0 {
      RunNone(s);
      assert Times(WriterStep, 0) == [] && p[..0] + s.words[0..] == s.words;
    } else {
      WordsRun(s, p, n - 1);
      RunTimes(s, WriterStep, n);
      assert (p[..n - 1] + s.words[n - 1..])[n - 1 := p[n - 1]] == p[..n] + s.words[n..];
    }
  }

  lemma StoreRuns(s: Lock, p: seq<u64>)
    requires |s.history| > 0 && s.writer.WIdle? && |p| == |s.words|
    ensures Run(s, StoreMoves(p)) == s.(counter := (s.counter + 2) % TWO32, words := p, history := s.history + [p])
  {
    hide Run;
    RunConcat(s, [Store(p)], Times(WriterStep, |p| + 1));
    RunOne(s, Store(p));
    var s1 := s.(counter := (s.counter + 1) % TWO32, writer := Storing(p, 0));
    RunTimes(s1, WriterStep, |p| + 1);
    WordsRun(s1, p, |p|);
    assert p[..|p|] + s.words[|p|..] == p;
    CounterTwice(s.counter);
  }

  lemma {:induction false} RepeatRuns(s: Lock, p: seq<u64>, k: nat)
    requires |s.history| > 0 && s.writer.WIdle? && |p| == |s.words|
    ensures var r := Run(s, Repeat(p, k));
            && r == s.(counter := (s.counter + 2 * k) % TWO32, words := if k > 0 then p else s.words,
                       history := s.history + seq(k, _ => p))
  {
    hide Run, StoreMoves;
    RunNone(s);
    if k == 0 {
      assert s.history + seq(0, _ => p) == s.history;
    } else {
      RepeatRuns(s, p, k - 1);
      var r := Run(s, Repeat(p, k - 1));
      RunConcat(s, Repeat(p, k - 1), StoreMoves(p));
      StoreRuns(r, p);
      CounterTwice(s.counter + 2 * (k - 1));
      assert s.history + seq(k - 1, _ => p) + [p] == s.history + seq(k, _ => p);
    }
  }

  lemma CounterTwice(x: nat)
    ensures (x % TWO32 + 2) % TWO32 == (x + 2) % TWO32
    ensures ((x + 1) % TWO32 + 1) % TWO32 == (x + 2) % TWO32
  {
  }

  /** The first reader in another phase. */
  function WithPhase(s: Lock, phase: Phase): Lock
    requires |s.readers| > 0
  {
    s.(readers := s.readers[0 := s.readers[0].(phase := phase)])
  }

  /** The first reader copies `n` more words. */
  lemma {:induction false} CopyRuns(s: Lock, before: u32, store: nat, copied: seq<u64>, n: nat)
    requires |s.history| > 0 && |s.readers| > 0 && s.readers[0].phase == Copying(before, store, copied)
    requires |copied| + n <= |s.words|
    ensures Run(s, Times(ReaderStep(0), n))
            == WithPhase(s, Copying(before, store, copied + s.words[|copied|..|copied| + n]))
  {
    hide Run;
    if n == 0 {
      RunNone(s);
      assert Times(ReaderStep(0), 0) == [] && copied + s.words[|copied|..|copied|] == copied;
      assert s.readers[0 := s.readers[0]] == s.readers;
    } else {
      CopyRuns(s, before, store, copied, n - 1);
      RunTimes(s, ReaderStep(0), n);
      var had := copied + s.words[|copied|..|copied| + n - 1];
      assert had + [s.words[|had|]] == copied + s.words[|copied|..|copied| + n];
      TwicePhase(s, Copying(before, store, had), Copying(before, store, had + [s.words[|had|]]));
    }
  }

  lemma TwicePhase(s: Lock, a: Phase, b: Phase)
    requires |s.readers| > 0
    ensures WithPhase(WithPhase(s, a), b) == WithPhase(s, b)
  {
    assert WithPhase(WithPhase(s, a), b).readers == WithPhase(s, b).readers;
  }

  /** A load that has copied the first word of the initial value. */
  function FirstWord(): seq<Move> {
    [Load(0)] + [ReaderStep(0)] + Times(ReaderStep(0), 1)
  }

  lemma FirstWordRuns(width: nat, readers: nat)
    requires width >= 1 && readers >= 1
    ensures var s := Start(width, readers);
            Run(s, FirstWord()) == WithPhase(s, Copying(0, 0, [0]))
  {
    hide Run;
    var s := Start(width, readers);
    RunConcat(s, [Load(0)] + [ReaderStep(0)], Times(ReaderStep(0), 1));
    RunConcat(s, [Load(0)], [ReaderStep(0)]);
    RunOne(s, Load(0));
    var s1 := WithPhase(s, Begin);
    RunOne(s1, ReaderStep(0));
    TwicePhase(s, Begin, Copying(0, 0, []));
    var s2 := WithPhase(s, Copying(0, 0, []));
    CopyRuns(s2, 0, 0, [], 1);
    assert [] + s.words[0..1] == [0];
    TwicePhase(s, Copying(0, 0, []), Copying(0, 0, [0]));
  }

  /** Interrupted after its first word by `d` stores, a positive multiple of 2^31, the load passes its check. */
  ghost function TornMoves(width: nat, d: nat): seq<Move>
    requires width >= 1
  {
    FirstWord() + Repeat(Constant(width, 7), d) + Times(ReaderStep(0), width - 1) + [ReaderStep(0)]
  }

  lemma TornRuns(width: nat, readers: nat, d: nat)
    requires width >= 2 && readers >= 1 && d > 0 && d % 0x8000_0000 == 0
    ensures var s := Run(Start(width, readers), TornMoves(width, d));
            && s.history == [Constant(width, 0)] + seq(d, _ => Constant(width, 7))
            && Loaded(s, 0, 0, Result(0, d, [0] + Constant(width - 1, 7)))
  {
    hide Run, Repeat;
    var p := Constant(width, 7);
    var s0 := Start(width, readers);
    FirstWordRuns(width, readers);
    var s1 := Run(s0, FirstWord());
    RepeatRuns(s1, p, d);
    var s2 := Run(s1, Repeat(p, d));
    assert (2 * d) % TWO32 == 0;
    CopyRuns(s2, 0, 0, [0], width - 1);
    assert [0] + p[1..width] == [0] + Constant(width - 1, 7);
    var s3 := Run(s2, Times(ReaderStep(0), width - 1));
    RunConcat(s0, FirstWord(), Repeat(p, d));
    RunConcat(s0, FirstWord() + Repeat(p, d), Times(ReaderStep(0), width - 1));
    RunConcat(s0, FirstWord() + Repeat(p, d) + Times(ReaderStep(0), width - 1), [ReaderStep(0)]);
    RunOne(s3, ReaderStep(0));
  }

  /** Some run hands a reader, from a load spanning `d` stores, a payload that was never stored. */
  ghost predicate CanTear(width: nat, readers: nat, d: nat) {
    exists moves, r, k, res ::
      && Loaded(Run(Start(width, readers), moves), r, k, res)
      && res.seen == res.store + d && res.payload !in Run(Start(width, readers), moves).history
  }

  lemma WrappedTears(width: nat, readers: nat, d: nat)
    requires width >= 2 && readers >= 1 && !Harmless(d)
    ensures CanTear(width, readers, d)
  {
    hide Run, Start, TornMoves, Loaded;
    TornRuns(width, readers, d);
    var s := Run(Start(width, readers), TornMoves(width, d));
    var res := Result(0, d, [0] + Constant(width - 1, 7));
    assert res.payload[0] == 0 && res.payload[1] == 7;
    assert forall h :: h in s.history ==> h[0] == h[1];
    assert Loaded(s, 0, 0, res) && res.payload !in s.history;
  }

  /** For payloads of two words or more, a load that spans `d` stores can return a value that was never
      stored exactly when `d` is a positive multiple of 2^31. */
  lemma TornIffWrapped(width: nat, readers: nat, d: nat)
    requires width >= 2 && readers >= 1
    ensures CanTear(width, readers, d) <==> !Harmless(d)
  {
    hide Run, Start, Loaded;
    if !Harmless(d) {
      WrappedTears(width, readers, d);
    } else if CanTear(width, readers, d) {
      var moves, r, k, res :|
        && Loaded(Run(Start(width, readers), moves), r, k, res)
        && res.seen == res.store + d && res.payload !in Run(Start(width, readers), moves).history;
      LoadsAreConsistent(width, readers, moves, r, k, res);
    }
  }
}
