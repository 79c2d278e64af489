/** Byte and packet tallies of one subscriber, as unbounded sums and as the 64-bit counters
    that hold them, and the balance between what was charged and what was reported. */
module Usage {
  import opened Words

  /** Uplink and downlink bytes and packets, and the bytes of the three accounting slots. */
  datatype Tally = Tally(ulBytes: nat, dlBytes: nat, ulPackets: nat, dlPackets: nat, b0: nat, b1: nat, b2: nat)

  const Zero := Tally(0, 0, 0, 0, 0, 0, 0)

  predicate IsWord(t: Tally) {
    && t.ulBytes < TWO64 && t.dlBytes < TWO64 && t.ulPackets < TWO64 && t.dlPackets < TWO64
    && t.b0 < TWO64 && t.b1 < TWO64 && t.b2 < TWO64
  }

  /** A tally held in uint64_t fields. */
  type WordTally = t: Tally | IsWord(t) witness Zero

  function Plus(a: Tally, b: Tally): Tally {
    Tally(a.ulBytes + b.ulBytes, a.dlBytes + b.dlBytes, a.ulPackets + b.ulPackets, a.dlPackets + b.dlPackets,
          a.b0 + b.b0, a.b1 + b.b1, a.b2 + b.b2)
  }

  function Wrap(a: Tally): WordTally {
    Tally(a.ulBytes % TWO64, a.dlBytes % TWO64, a.ulPackets % TWO64, a.dlPackets % TWO64,
          a.b0 % TWO64, a.b1 % TWO64, a.b2 % TWO64)
  }

  /** Field-wise uint64_t subtraction. */
  function Delta(c: WordTally, e: WordTally): WordTally {
    Tally(Sub64(c.ulBytes, e.ulBytes), Sub64(c.dlBytes, e.dlBytes),
          Sub64(c.ulPackets, e.ulPackets), Sub64(c.dlPackets, e.dlPackets),
          Sub64(c.b0, e.b0), Sub64(c.b1, e.b1), Sub64(c.b2, e.b2))
  }

  type SlotIndex = i: nat | i < 3

  /** One packet of `bytes` bytes in one direction and one accounting slot. */
  function Packet(down: bool, slot: SlotIndex, bytes: nat): Tally {
    Tally(if down then 0 else bytes, if down then bytes else 0, if down then 0 else 1, if down then 1 else 0,
          if slot == 0 then bytes else 0, if slot == 1 then bytes else 0, if slot == 2 then bytes else 0)
  }

  /** Counter `c` holds the sum `charged`, marker `e` holds the sum `reported`, and the reports
      have not run ahead of the charges while those still fit the counter. */
  ghost predicate Even(c: nat, e: nat, charged: nat, reported: nat) {
    && c == charged % TWO64
    && e == reported % TWO64
    && (charged < TWO64 ==> reported <= charged)
  }

  ghost predicate Balanced(c: WordTally, e: WordTally, charged: Tally, reported: Tally) {
    && Even(c.ulBytes, e.ulBytes, charged.ulBytes, reported.ulBytes)
    && Even(c.dlBytes, e.dlBytes, charged.dlBytes, reported.dlBytes)
    && Even(c.ulPackets, e.ulPackets, charged.ulPackets, reported.ulPackets)
    && Even(c.dlPackets, e.dlPackets, charged.dlPackets, reported.dlPackets)
    && Even(c.b0, e.b0, charged.b0, reported.b0)
    && Even(c.b1, e.b1, charged.b1, reported.b1)
    && Even(c.b2, e.b2, charged.b2, reported.b2)
  }

  lemma EvenCharge(c: nat, e: nat, charged: nat, reported: nat, x: nat)
    requires Even(c, e, charged, reported)
    ensures Even((c + x) % TWO64, e, charged + x, reported)
  {
  }

  lemma EvenReport(c: u64, e: u64, charged: nat, reported: nat)
    requires Even(c, e, charged, reported)
    ensures (reported + Sub64(c, e)) % TWO64 == c
    ensures charged < TWO64 ==> reported + Sub64(c, e) == charged
  {
  }

  lemma ChargeKeepsBalance(c: WordTally, e: WordTally, charged: Tally, reported: Tally, x: Tally)
    requires Balanced(c, e, charged, reported)
    ensures Balanced(Wrap(Plus(c, x)), e, Plus(charged, x), reported)
  {
    EvenCharge(c.ulBytes, e.ulBytes, charged.ulBytes, reported.ulBytes, x.ulBytes);
    EvenCharge(c.dlBytes, e.dlBytes, charged.dlBytes, reported.dlBytes, x.dlBytes);
    EvenCharge(c.ulPackets, e.ulPackets, charged.ulPackets, reported.ulPackets, x.ulPackets);
    EvenCharge(c.dlPackets, e.dlPackets, charged.dlPackets, reported.dlPackets, x.dlPackets);
    EvenCharge(c.b0, e.b0, charged.b0, reported.b0, x.b0);
    EvenCharge(c.b1, e.b1, charged.b1, reported.b1, x.b1);
    EvenCharge(c.b2, e.b2, charged.b2, reported.b2, x.b2);
  }

  /** Reported plus pending is what was charged: modulo 2^64 always, exactly while it fits. */
  lemma Conservation(c: WordTally, e: WordTally, charged: Tally, reported: Tally)
    requires Balanced(c, e, charged, reported)
    ensures Wrap(Plus(reported, Delta(c, e))) == Wrap(charged) == c
    ensures IsWord(charged) ==> Plus(reported, Delta(c, e)) == charged
    ensures Balanced(c, c, charged, Plus(reported, Delta(c, e)))
  {
    EvenReport(c.ulBytes, e.ulBytes, charged.ulBytes, reported.ulBytes);
    EvenReport(c.dlBytes, e.dlBytes, charged.dlBytes, reported.dlBytes);
    EvenReport(c.ulPackets, e.ulPackets, charged.ulPackets, reported.ulPackets);
    EvenReport(c.dlPackets, e.dlPackets, charged.dlPackets, reported.dlPackets);
    EvenReport(c.b0, e.b0, charged.b0, reported.b0);
    EvenReport(c.b1, e.b1, charged.b1, reported.b1);
    EvenReport(c.b2, e.b2, charged.b2, reported.b2);
  }

  /** Once the marker has caught up with the counter, everything charged has been reported. */
  lemma CaughtUp(c: WordTally, charged: Tally, reported: Tally)
    requires Balanced(c, c, charged, reported)
    ensures Wrap(reported) == Wrap(charged) == c
    ensures IsWord(charged) ==> reported == charged
  {
    Conservation(c, c, charged, reported);
    assert Delta(c, c) == Zero;
  }

  /** Every byte is in one direction and in one slot. */
  predicate SlotsCover(t: Tally) {
    t.b0 + t.b1 + t.b2 == t.ulBytes + t.dlBytes
  }

  lemma EvenExact(c: nat, e: nat, charged: nat, reported: nat)
    requires Even(c, e, charged, reported) && charged < TWO64
    ensures c == charged && e == reported && reported <= charged
  {
  }

  /** No bytes pending in either direction leaves none pending in any slot. */
  lemma DirectionsCoverSlots(c: WordTally, e: WordTally, charged: Tally, reported: Tally)
    requires Balanced(c, e, charged, reported) && IsWord(charged)
    requires SlotsCover(charged) && SlotsCover(reported)
    requires c.ulBytes == e.ulBytes && c.dlBytes == e.dlBytes
    ensures c.b0 == e.b0 && c.b1 == e.b1 && c.b2 == e.b2
  {
    EvenExact(c.ulBytes, e.ulBytes, charged.ulBytes, reported.ulBytes);
    EvenExact(c.dlBytes, e.dlBytes, charged.dlBytes, reported.dlBytes);
    EvenExact(c.b0, e.b0, charged.b0, reported.b0);
    EvenExact(c.b1, e.b1, charged.b1, reported.b1);
    EvenExact(c.b2, e.b2, charged.b2, reported.b2);
  }
}
