/** The single-producer single-consumer ring as a transition system: every step is one atomic
    load or store, or one slot copy, and the two sides interleave freely. */
module SpscRing {
  import opened Cyclic
  import opened Words

  /** What the producer is doing: `Reload` is about to load the consumer's index, `Write` has
      copied `done` of the `n` elements it will publish. */
  datatype Producer<T> = PIdle | Reload(vals: seq<T>, bulk: bool) | Write(vals: seq<T>, n: nat, done: nat)

  datatype Consumer<T> = CIdle | Refresh(max: nat) | Read(n: nat, out: seq<T>)

  /** Indices are free-running 64-bit words. `accepted` and `consumed` are the histories of both ends;
      `seenTail` and `seenHead` say how much had been consumed and accepted when the cached indices were
      loaded. */
  datatype Ring<T> = Ring(
    capacity: u64, slots: seq<T>, head: u64, tail: u64, cachedTail: u64, cachedHead: u64,
    prod: Producer<T>, cons: Consumer<T>, accepted: seq<T>, consumed: seq<T>, seenTail: nat, seenHead: nat)

  datatype Move<T> = Push(v: T) | PushBulk(vs: seq<T>) | Pop | PopBulk(max: nat) | Produce | Consume

  /** Sizes fit: enough to index slots and staged elements. */
  predicate Sane<T>(s: Ring<T>) {
    && s.capacity > 0 && |s.slots| == s.capacity
    && (s.prod.Write? ==> s.prod.done <= s.prod.n <= |s.prod.vals|)
  }

  /** The largest power of two of 64 bits, beyond which `std::bit_ceil` is undefined. */
  const MAX_CAPACITY: nat := 0x8000_0000_0000_0000

  function Capacity(requested: nat): (r: u64)
    requires requested <= MAX_CAPACITY
    ensures IsPow2(r) && r >= 2 && r >= requested
  {
    BitCeil(if requested < 2 then 2 else requested)
  }

  ghost function Start<T>(requested: nat, zero: T): (s: Ring<T>)
    requires requested <= MAX_CAPACITY
    ensures Sane(s)
  {
    Ring(Capacity(requested), seq(Capacity(requested), _ => zero), 0, 0, 0, 0, PIdle, CIdle, [], [], 0, 0)
  }

  function Min(a: nat, b: nat): nat {
    if a < b then a else b
  }

  /** The slot `k` places after index `i`. */
  function Slot(i: u64, k: nat, capacity: u64): (r: nat)
    requires capacity > 0
    ensures r < capacity
  {
    Mask((i + k) % TWO64, capacity)
  }

  // ---------------------------------------------------------------------------
  // Producer
  // ---------------------------------------------------------------------------

  /** Elements that the producer believes to be in the ring. */
  function Used<T>(s: Ring<T>): u64 {
    Sub64(s.head, s.cachedTail)
  }

  /** Slots that it believes to be free. */
  function FreeSlots<T>(s: Ring<T>): u64 {
    Sub64(s.capacity, Used(s))
  }

  /** The cached index leaves too little room. */
  predicate Short<T>(s: Ring<T>, vals: seq<T>, bulk: bool) {
    if bulk then FreeSlots(s) < |vals| else Used(s) >= s.capacity
  }

  function CallPush<T>(s: Ring<T>, vals: seq<T>, bulk: bool): Ring<T> {
    s.(prod := if Short(s, vals, bulk) then Reload(vals, bulk) else Write(vals, |vals|, 0))
  }

  /** After the reload: a bulk push writes what fits, a single one writes or gives up. */
  function StartWrite<T>(s: Ring<T>, vals: seq<T>, bulk: bool): Ring<T> {
    s.(prod := if bulk then Write(vals, Min(FreeSlots(s), |vals|), 0)
               else if Used(s) >= s.capacity then PIdle
               else Write(vals, |vals|, 0))
  }

  function ProducerStep<T>(s: Ring<T>): (r: Ring<T>)
    requires Sane(s)
    ensures Sane(r) && r.capacity == s.capacity
  {
    match s.prod
    case PIdle => s
    case Reload(vals, bulk) => StartWrite(s.(cachedTail := s.tail, seenTail := |s.consumed|), vals, bulk)
    case Write(vals, n, done) =>
      if done < n then
        s.(slots := s.slots[Slot(s.head, done, s.capacity) := vals[done]], prod := Write(vals, n, done + 1))
      else
        s.(head := (s.head + n) % TWO64, accepted := s.accepted + vals[..n], prod := PIdle)
  }

  // ---------------------------------------------------------------------------
  // Consumer
  // ---------------------------------------------------------------------------

  /** Elements that the consumer knows to be in the ring. */
  function Ready<T>(s: Ring<T>): u64 {
    Sub64(s.cachedHead, s.tail)
  }

  function CallPop<T>(s: Ring<T>, max: nat): Ring<T> {
    s.(cons := if s.tail == s.cachedHead then Refresh(max) else Read(Min(Ready(s), max), []))
  }

  function StartRead<T>(s: Ring<T>, max: nat): Ring<T> {
    s.(cons := if s.tail == s.cachedHead then CIdle else Read(Min(Ready(s), max), []))
  }

  function ConsumerStep<T>(s: Ring<T>): (r: Ring<T>)
    requires Sane(s)
    ensures Sane(r) && r.capacity == s.capacity
  {
    match s.cons
    case CIdle => s
    case Refresh(max) => StartRead(s.(cachedHead := s.head, seenHead := |s.accepted|), max)
    case Read(n, out) =>
      if |out| < n then
        s.(cons := Read(n, out + [s.slots[Slot(s.tail, |out|, s.capacity)]]))
      else
        s.(tail := (s.tail + n) % TWO64, consumed := s.consumed + out, cons := CIdle)
  }

  function Step<T>(s: Ring<T>, m: Move<T>): (r: Ring<T>)
    requires Sane(s)
    ensures Sane(r) && r.capacity == s.capacity
  {
    match m
    case Push(v) => if s.prod.PIdle? then CallPush(s, [v], false) else s
    case PushBulk(vs) => if s.prod.PIdle? then CallPush(s, vs, true) else s
    case Pop => if s.cons.CIdle? then CallPop(s, 1) else s
    case PopBulk(max) => if s.cons.CIdle? then CallPop(s, max) else s
    case Produce => ProducerStep(s)
    case Consume => ConsumerStep(s)
  }

  ghost function Run<T>(s: Ring<T>, moves: seq<Move<T>>): (r: Ring<T>)
    requires Sane(s)
    ensures Sane(r) && r.capacity == s.capacity
  {
    if moves == [] then s else Step(Run(s, moves[..|moves| - 1]), moves[|moves| - 1])
  }

  // ---------------------------------------------------------------------------
  // Wrap-around
  // ---------------------------------------------------------------------------

  /** The difference of two indices less than 2^64 apart survives the wrap-around. */
  lemma Gap(a: nat, b: nat)
    requires a <= b < a + TWO64
    ensures Sub64(b % TWO64, a % TWO64) == b - a
    ensures a % TWO64 == b % TWO64 <==> a == b
  {
  }

  /** Every capacity divides 2^64, so that an index finds its slot before and after it wraps. */
  lemma SlotOf(x: nat, k: nat, capacity: u64)
    requires IsPow2(capacity)
    ensures Slot(x % TWO64, k, capacity) == Mask(x + k, capacity)
  {
    WrapAdd(x, k);
    Pow2Word();
    Pow2Divides(capacity, TWO64);
    MaskOfRest(x + k, TWO64, capacity, TWO64 / capacity);
  }

  // ---------------------------------------------------------------------------
  // Safety
  // ---------------------------------------------------------------------------

  /** The slots hold the elements of `all` from number `from` on. */
  ghost predicate Kept<T>(slots: seq<T>, all: seq<T>, from: nat) {
    |slots| > 0 && forall j :: from <= j < |all| ==> slots[Mask(j, |slots|)] == all[j]
  }

  /** The first `done` of `vals` have been written beyond number `head`. */
  ghost predicate Staged<T>(slots: seq<T>, head: nat, vals: seq<T>, done: nat) {
    |slots| > 0 && done <= |vals| && forall k :: 0 <= k < done ==> slots[Mask(head + k, |slots|)] == vals[k]
  }

  /** Writing less than a lap beyond `from` hits no slot in use. */
  lemma WriteOne<T>(slots: seq<T>, all: seq<T>, from: nat, vals: seq<T>, done: nat)
    requires Kept(slots, all, from) && Staged(slots, |all|, vals, done) && done < |vals|
    requires from <= |all| && |all| + done < from + |slots|
    ensures var slots' := slots[Mask(|all| + done, |slots|) := vals[done]];
            Kept(slots', all, from) && Staged(slots', |all|, vals, done + 1)
    ensures forall j :: from <= j < |all| + done ==> Mask(j, |slots|) != Mask(|all| + done, |slots|)
  {
    hide Mask;
    forall j | from <= j < |all| + done
      ensures Mask(j, |slots|) != Mask(|all| + done, |slots|)
    {
      LapInjective(j, |all| + done, |slots|);
    }
  }

  lemma PublishStaged<T>(slots: seq<T>, all: seq<T>, from: nat, vals: seq<T>, n: nat)
    requires Kept(slots, all, from) && Staged(slots, |all|, vals, n)
    ensures Kept(slots, all + vals[..n], from)
  {
    hide Mask;
    var all' := all + vals[..n];
    forall j | from <= j < |all'|
      ensures slots[Mask(j, |slots|)] == all'[j]
    {
      if j >= |all| {
        assert slots[Mask(|all| + (j - |all|), |slots|)] == vals[j - |all|];
      }
    }
  }

  ghost predicate ProducerOk<T>(s: Ring<T>)
    requires Sane(s)
  {
    match s.prod
    case PIdle => true
    case Reload(vals, bulk) => !bulk ==> |vals| == 1
    case Write(vals, n, done) =>
      |s.accepted| + n - s.seenTail <= s.capacity && Staged(s.slots, |s.accepted|, vals, done)
  }

  ghost predicate ConsumerOk<T>(s: Ring<T>) {
    match s.cons
    case CIdle => true
    case Refresh(max) => true
    case Read(n, out) =>
      var tail := |s.consumed|;
      |out| <= n && tail + n <= s.seenHead && tail + |out| <= |s.accepted| && out == s.accepted[tail..tail + |out|]
  }

  /** The words are what the histories leave of their lengths in 64 bits. */
  ghost predicate IndicesOk<T>(s: Ring<T>) {
    && s.seenTail <= |s.consumed| <= s.seenHead <= |s.accepted| <= s.seenTail + s.capacity
    && s.head == |s.accepted| % TWO64 && s.tail == |s.consumed| % TWO64
    && s.cachedTail == s.seenTail % TWO64 && s.cachedHead == s.seenHead % TWO64
  }

  ghost predicate Inv<T>(s: Ring<T>) {
    && Sane(s) && IsPow2(s.capacity)
    && IndicesOk(s)
    && s.consumed <= s.accepted
    && Kept(s.slots, s.accepted, |s.consumed|)
    && ProducerOk(s)
    && ConsumerOk(s)
  }

  /** What either side computes from its words is what the histories say. */
  lemma WordsAgree<T>(s: Ring<T>)
    requires IndicesOk(s)
    ensures Used(s) == |s.accepted| - s.seenTail && FreeSlots(s) == s.capacity - (|s.accepted| - s.seenTail)
    ensures Ready(s) == s.seenHead - |s.consumed| && (s.tail == s.cachedHead <==> s.seenHead == |s.consumed|)
    ensures s.tail == s.head <==> |s.consumed| == |s.accepted|
  {
    hide Sub64;
    Gap(s.seenTail, |s.accepted|);
    Gap(|s.consumed|, s.seenHead);
    Gap(|s.consumed|, |s.accepted|);
    SmallGap(s.capacity, |s.accepted| - s.seenTail);
  }

  lemma SmallGap(a: u64, b: u64)
    requires b <= a
    ensures Sub64(a, b) == a - b
  {
  }

  /** Writing beyond the published elements hits no slot the consumer has yet to read, nor one
      just written. */
  lemma WriteIsFree<T>(s: Ring<T>, vals: seq<T>, n: nat, done: nat)
    requires Inv(s) && s.prod == Write(vals, n, done) && done < n
    ensures Inv(ProducerStep(s))
    ensures forall j :: |s.consumed| <= j < |s.accepted| + done ==> Mask(j, s.capacity) != Slot(s.head, done, s.capacity)
  {
    hide Mask, Slot, Kept, Staged;
    SlotOf(|s.accepted|, done, s.capacity);
    WriteOne(s.slots, s.accepted, |s.consumed|, vals, done);
  }

  lemma PublishKeeps<T>(s: Ring<T>, vals: seq<T>, n: nat)
    requires Inv(s) && s.prod == Write(vals, n, n)
    ensures Inv(ProducerStep(s))
  {
    PublishIndices(s, vals, n);
    hide Slot, IndicesOk, Kept, Staged;
    PublishStaged(s.slots, s.accepted, |s.consumed|, vals, n);
  }

  lemma PublishIndices<T>(s: Ring<T>, vals: seq<T>, n: nat)
    requires IndicesOk(s) && |s.accepted| + n <= s.seenTail + s.capacity && n <= |vals|
    ensures IndicesOk(s.(head := (s.head + n) % TWO64, accepted := s.accepted + vals[..n], prod := PIdle))
  {
    WrapAdd(|s.accepted|, n);
  }

  /** One more element copied out: it is the next one the producer published. */
  lemma CopyKeeps<T>(s: Ring<T>, n: nat, out: seq<T>)
    requires Inv(s) && s.cons == Read(n, out) && |out| < n
    ensures Inv(ConsumerStep(s))
  {
    hide Mask, Slot, ProducerOk;
    var tail := |s.consumed|;
    SlotOf(tail, |out|, s.capacity);
    assert s.slots[Mask(tail + |out|, s.capacity)] == s.accepted[tail + |out|];
    assert s.accepted[tail..tail + |out| + 1] == out + [s.accepted[tail + |out|]];
    SameProducer(s, ConsumerStep(s));
  }

  lemma TakeKeeps<T>(s: Ring<T>, n: nat, out: seq<T>)
    requires Inv(s) && s.cons == Read(n, out) && |out| == n
    ensures Inv(ConsumerStep(s))
  {
    hide Mask, Slot, ProducerOk, IndicesOk;
    TakeIndices(s, n, out);
    assert s.accepted[..|s.consumed| + n] == s.accepted[..|s.consumed|] + out;
    SameProducer(s, ConsumerStep(s));
  }

  lemma TakeIndices<T>(s: Ring<T>, n: nat, out: seq<T>)
    requires IndicesOk(s) && |s.consumed| + n <= s.seenHead && |out| == n
    ensures IndicesOk(s.(tail := (s.tail + n) % TWO64, consumed := s.consumed + out, cons := CIdle))
    ensures |s.consumed| <= |s.accepted|
  {
    WrapAdd(|s.consumed|, n);
  }

  lemma SameProducer<T>(s: Ring<T>, s': Ring<T>)
    requires Sane(s) && Sane(s') && ProducerOk(s)
    requires s' == s.(tail := s'.tail, cons := s'.cons, consumed := s'.consumed)
    ensures ProducerOk(s')
  {
    hide Mask;
  }

  lemma CallKeeps<T>(s: Ring<T>, vals: seq<T>, bulk: bool, max: nat)
    requires Inv(s) && (!bulk ==> |vals| == 1)
    ensures s.prod.PIdle? ==> Inv(CallPush(s, vals, bulk))
    ensures s.cons.CIdle? ==> Inv(CallPop(s, max))
  {
    hide Kept, Used, FreeSlots, Ready;
    WordsAgree(s);
  }

  lemma ReloadKeeps<T>(s: Ring<T>)
    requires Inv(s)
    ensures s.prod.Reload? ==> Inv(ProducerStep(s))
    ensures s.cons.Refresh? ==> Inv(ConsumerStep(s))
  {
    hide Kept, Used, FreeSlots, Ready;
    WordsAgree(s.(cachedTail := s.tail, seenTail := |s.consumed|));
    WordsAgree(s.(cachedHead := s.head, seenHead := |s.accepted|));
  }

  lemma StepKeeps<T>(s: Ring<T>, m: Move<T>)
    requires Inv(s)
    ensures Inv(Step(s, m))
  {
    hide CallPush, CallPop, ProducerStep, ConsumerStep, ProducerOk, ConsumerOk, IndicesOk, Kept;
    match m
    case Push(v) => CallKeeps(s, [v], false, 0);
    case PushBulk(vs) => CallKeeps(s, vs, true, 0);
    case Pop => CallKeeps(s, [], true, 1);
    case PopBulk(max) => CallKeeps(s, [], true, max);
    case Produce => ProducerKeeps(s);
    case Consume => ConsumerKeeps(s);
  }

  lemma ProducerKeeps<T>(s: Ring<T>)
    requires Inv(s)
    ensures Inv(ProducerStep(s))
  {
    hide IndicesOk, Kept, Staged;
    match s.prod
    case PIdle =>
    case Reload(_, _) => ReloadKeeps(s);
    case Write(vals, n, done) =>
      if done < n {
        WriteIsFree(s, vals, n, done);
      } else {
        PublishKeeps(s, vals, n);
      }
  }

  lemma ConsumerKeeps<T>(s: Ring<T>)
    requires Inv(s)
    ensures Inv(ConsumerStep(s))
  {
    hide IndicesOk, Kept;
    match s.cons
    case CIdle =>
    case Refresh(_) => ReloadKeeps(s);
    case Read(n, out) =>
      if |out| < n {
        CopyKeeps(s, n, out);
      } else {
        TakeKeeps(s, n, out);
      }
  }

  /** Under every interleaving of single and bulk operations, however often the indices wrap around, what
      has been consumed is a prefix of what was accepted, at most `capacity` elements are in flight, and
      the cached indices never run ahead of the real ones. */
  lemma {:induction false} RunIsFifo<T>(requested: nat, zero: T, moves: seq<Move<T>>)
    requires requested <= MAX_CAPACITY
    ensures var s := Run(Start(requested, zero), moves);
            && Inv(s)
            && s.consumed <= s.accepted
            && |s.accepted| - |s.consumed| <= Capacity(requested)
  {
    hide ProducerOk, ConsumerOk, Step;
    if moves != [] {
      RunIsFifo(requested, zero, moves[..|moves| - 1]);
      StepKeeps(Run(Start(requested, zero), moves[..|moves| - 1]), moves[|moves| - 1]);
    } else {
      StartOk(requested, zero);
    }
  }

  lemma StartOk<T>(requested: nat, zero: T)
    requires requested <= MAX_CAPACITY
    ensures Inv(Start(requested, zero))
  {
  }

  // ---------------------------------------------------------------------------
  // The ring is a queue
  // ---------------------------------------------------------------------------

  /** The elements published and not yet consumed. */
  ghost function Queue<T>(s: Ring<T>): seq<T>
    requires Inv(s)
  {
    s.accepted[|s.consumed|..]
  }

  /** A push is refused only at an instant when the ring really is full, and a pop comes back
      empty only at an instant when it really is empty; otherwise the operation goes ahead. */
  lemma RefusalsAreReal<T>(s: Ring<T>)
    requires Inv(s)
    ensures s.prod.Reload? && !s.prod.bulk ==> (ProducerStep(s).prod.PIdle? <==> |Queue(s)| == s.capacity)
    ensures s.prod.Reload? && s.prod.bulk ==>
              ProducerStep(s).prod == Write(s.prod.vals, Min(|s.prod.vals|, s.capacity - |Queue(s)|), 0)
    ensures s.cons.Refresh? ==> (ConsumerStep(s).cons.CIdle? <==> Queue(s) == [])
  {
    hide Kept, Slot, Used, FreeSlots, Ready, ProducerOk, ConsumerOk;
    WordsAgree(s.(cachedTail := s.tail, seenTail := |s.consumed|));
    WordsAgree(s.(cachedHead := s.head, seenHead := |s.accepted|));
  }

  /** Seen as a queue, a step publishes elements at the end, takes off exactly the first elements, which are
      the ones the consumer has copied, or does nothing. */
  lemma StepIsQueueStep<T>(s: Ring<T>, m: Move<T>)
    requires Inv(s)
    ensures Inv(Step(s, m))
    ensures var q, q' := Queue(s), Queue(Step(s, m));
            if m == Produce && s.prod.Write? && s.prod.done == s.prod.n then q' == q + s.prod.vals[..s.prod.n]
            else if m == Consume && s.cons.Read? && |s.cons.out| == s.cons.n then
              s.cons.n <= |q| && s.cons.out == q[..s.cons.n] && q' == q[s.cons.n..]
            else q' == q
  {
    StepKeeps(s, m);
    hide ProducerOk, ConsumerOk, Kept, Slot, IndicesOk;
    match m
    case Produce =>
      if s.prod.Write? {
        Published(s.accepted, |s.consumed|, s.prod.vals[..s.prod.n]);
      }
    case Consume =>
      if s.cons.Read? {
        CopiedFront(s);
        Dropped(s.accepted, |s.consumed|, s.cons.n);
      }
    case _ =>
  }

  lemma Published<T>(accepted: seq<T>, tail: nat, vals: seq<T>)
    requires tail <= |accepted|
    ensures (accepted + vals)[tail..] == accepted[tail..] + vals
  {
  }

  lemma Dropped<T>(accepted: seq<T>, tail: nat, n: nat)
    requires tail + n <= |accepted|
    ensures accepted[tail..tail + n] == accepted[tail..][..n] && accepted[tail + n..] == accepted[tail..][n..]
  {
  }

  lemma CopiedFront<T>(s: Ring<T>)
    requires Inv(s) && s.cons.Read?
    ensures |s.consumed| + s.cons.n <= |s.accepted|
    ensures |s.cons.out| == s.cons.n ==> s.cons.out == s.accepted[|s.consumed|..|s.consumed| + s.cons.n]
  {
    hide Kept, ProducerOk;
  }

  /** A pop that goes ahead takes at least one element, unless it may take none, and no more than it may. */
  lemma PopTakesSome<T>(s: Ring<T>, max: nat)
    requires Inv(s)
    ensures s.cons.CIdle? && CallPop(s, max).cons.Read? ==>
              CallPop(s, max).cons.n <= Min(max, |Queue(s)|) && (CallPop(s, max).cons.n == 0 ==> max == 0)
    ensures s.cons == Refresh(max) && ConsumerStep(s).cons.Read? ==>
              ConsumerStep(s).cons.n == Min(max, |Queue(s)|) && (ConsumerStep(s).cons.n == 0 ==> max == 0)
  {
    hide Kept, Slot, Ready, ProducerOk, ConsumerOk;
    WordsAgree(s);
    WordsAgree(s.(cachedHead := s.head, seenHead := |s.accepted|));
  }
}
