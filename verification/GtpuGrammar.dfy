/** Which byte strings are GTP-U packets and what they say, position by position (sections 5.1 and 5.2 of 3GPP
    TS 29.281, section 5.5.2 of 3GPP TS 38.415), and that the parser accepts exactly those. */
module GtpuGrammar {
  import opened Words
  import opened Bytes
  import opened Gtpu

  // ---------------------------------------------------------------------------
  // Extension headers
  // ---------------------------------------------------------------------------

  /** An extension header starts at `p` and ends before `q`: its first byte counts its length in units of four. */
  predicate LinkAt(area: seq<u8>, p: nat, q: nat) {
    p < |area| && area[p] != 0 && q == p + 4 * area[p] as int && q <= |area|
  }

  /** Extension headers follow each other from the start of the area; `ps` holds where each starts and where
      the last ends. */
  predicate Links(area: seq<u8>, ps: seq<nat>) {
    |ps| > 0 && ps[0] == 0 && forall i :: 0 <= i < |ps| - 1 ==> LinkAt(area, ps[i], ps[i + 1])
  }

  lemma LinksGrow(area: seq<u8>, ps: seq<nat>, i: nat)
    requires Links(area, ps) && i < |ps|
    ensures i > 0 ==> 4 <= ps[i] <= |area|
  {
    if i > 0 {
      assert LinkAt(area, ps[i - 1], ps[i]);
    }
  }

  /** The type of the header that starts at `ps[i]`: the first is announced outside, each other by the last byte
      of the one before it. */
  function KindAt(area: seq<u8>, first: u8, ps: seq<nat>, i: nat): u8
    requires Links(area, ps) && i < |ps|
  {
    if i == 0 then first
    else
      LinksGrow(area, ps, i);
      area[ps[i] - 1]
  }

  /** No header before the end has the type that ends the chain. */
  ghost predicate AllLive(area: seq<u8>, first: u8, ps: seq<nat>)
    requires Links(area, ps)
  {
    forall i :: 0 <= i < |ps| - 1 ==> KindAt(area, first, ps, i) != 0
  }

  /** The QoS information of the last PDU Session Container, type 0x85: the PDU type is the upper half of its
      first byte; its second byte has the flow identifier in the lower six bits and the reflective indicator,
      which counts only downlink, in the next. */
  ghost function QosIn(area: seq<u8>, first: u8, ps: seq<nat>): Qos
    requires Links(area, ps)
    decreases |ps|
  {
    if |ps| == 1 then Qos(false, 0, 0, false)
    else
      var n := |ps| - 2;
      assert LinkAt(area, ps[n], ps[n + 1]);
      if KindAt(area, first, ps, n) == 0x85 then
        var a, b := area[ps[n] + 1], area[ps[n] + 2];
        Qos(true, b % 64, a / 16, a / 16 == 0 && b / 64 % 2 == 1)
      else
        Shorter(area, ps);
        QosIn(area, first, ps[..n + 1])
  }

  lemma Shorter(area: seq<u8>, ps: seq<nat>)
    requires Links(area, ps) && |ps| > 1
    ensures Links(area, ps[..|ps| - 1])
  {
    var qs := ps[..|ps| - 1];
    forall i | 0 <= i < |qs| - 1
      ensures LinkAt(area, qs[i], qs[i + 1])
    {
      assert LinkAt(area, ps[i], ps[i + 1]);
    }
  }

  lemma Longer(area: seq<u8>, ps: seq<nat>, q: nat)
    requires Links(area, ps) && LinkAt(area, ps[|ps| - 1], q)
    ensures Links(area, ps + [q])
  {
    var qs := ps + [q];
    forall i | 0 <= i < |qs| - 1
      ensures LinkAt(area, qs[i], qs[i + 1])
    {
      assert i < |ps| - 1 ==> LinkAt(area, ps[i], ps[i + 1]);
    }
  }

  /** The walk has come to the end of `ps`. */
  ghost predicate WalkedTo(area: seq<u8>, first: u8, ps: seq<nat>)
    requires Links(area, ps) && |ps| <= 17
  {
    var n := |ps| - 1;
    WalkChain(area, 0, first, 0, NoQos) == WalkChain(area, ps[n], KindAt(area, first, ps, n), n, QosIn(area, first, ps))
  }

  lemma LiveOn(area: seq<u8>, first: u8, ps: seq<nat>, q: nat)
    requires Links(area, ps) && Links(area, ps + [q]) && AllLive(area, first, ps)
    requires KindAt(area, first, ps, |ps| - 1) != 0
    ensures AllLive(area, first, ps + [q])
  {
    hide Links, LinkAt;
    forall i | 0 <= i < |ps|
      ensures KindAt(area, first, ps + [q], i) == KindAt(area, first, ps, i)
    {
      assert (ps + [q])[i] == ps[i];
    }
  }

  /** One more header changes the QoS information just as the walk does. */
  lemma QosOn(area: seq<u8>, first: u8, ps: seq<nat>, q: nat)
    requires Links(area, ps) && Links(area, ps + [q]) && LinkAt(area, ps[|ps| - 1], q)
    ensures QosIn(area, first, ps + [q])
            == Observe(KindAt(area, first, ps, |ps| - 1), area[ps[|ps| - 1] + 1..q - 1], QosIn(area, first, ps))
  {
    var qs, n := ps + [q], |ps| - 1;
    assert qs[..n + 1] == ps && qs[n] == ps[n];
    var content := area[ps[n] + 1..q - 1];
    assert content[0] == area[ps[n] + 1] && content[1] == area[ps[n] + 2];
  }

  lemma WalkLink(area: seq<u8>, p: nat, q: nat, kind: u8, links: nat, qos: Qos)
    requires LinkAt(area, p, q) && kind != 0 && links < 16
    ensures WalkChain(area, p, kind, links, qos)
            == WalkChain(area, q, area[q - 1], links + 1, Observe(kind, area[p + 1..q - 1], qos))
  {
    hide Observe;
  }

  lemma WalkOn(area: seq<u8>, first: u8, ps: seq<nat>, q: nat)
    requires Links(area, ps) && |ps| <= 16 && AllLive(area, first, ps) && WalkedTo(area, first, ps)
    requires KindAt(area, first, ps, |ps| - 1) != 0 && LinkAt(area, ps[|ps| - 1], q)
    ensures Links(area, ps + [q]) && AllLive(area, first, ps + [q]) && WalkedTo(area, first, ps + [q])
  {
    hide QosIn, Observe, AllLive, WalkChain;
    Longer(area, ps, q);
    LiveOn(area, first, ps, q);
    QosOn(area, first, ps, q);
    var qs, n := ps + [q], |ps| - 1;
    assert qs[n + 1] == q && KindAt(area, first, qs, n + 1) == area[q - 1];
    WalkLink(area, ps[n], q, KindAt(area, first, ps, n), n, QosIn(area, first, ps));
  }

  /** How a walk ends, told by the headers it has followed: `ps`. */
  ghost predicate Outcome(area: seq<u8>, first: u8, ps: seq<nat>, w: Chain)
    requires Links(area, ps)
  {
    var n := |ps| - 1;
    var at := ps[n];
    if KindAt(area, first, ps, n) == 0 then w == Walked(at, n, QosIn(area, first, ps))
    else if n == 16 then w == Broken(ExtChainTooLong)
    else if at >= |area| then w == Broken(Truncated)
    else if area[at] == 0 then w == Broken(BadExtHeader)
    else at + 4 * area[at] as int > |area| && w == Broken(Truncated)
  }

  lemma {:induction false} WalkFollows(area: seq<u8>, first: u8, ps: seq<nat>) returns (qs: seq<nat>)
    requires Links(area, ps) && |ps| <= 17 && AllLive(area, first, ps) && WalkedTo(area, first, ps)
    ensures Links(area, qs) && |qs| <= 17 && AllLive(area, first, qs)
    ensures Outcome(area, first, qs, WalkChain(area, 0, first, 0, NoQos))
    decreases 17 - |ps|
  {
    hide Observe, QosIn;
    var n := |ps| - 1;
    var at := ps[n];
    if KindAt(area, first, ps, n) != 0 && n < 16 && at < |area| && area[at] != 0 && at + 4 * area[at] as int <= |area| {
      WalkOn(area, first, ps, at + 4 * area[at] as int);
      qs := WalkFollows(area, first, ps + [at + 4 * area[at] as int]);
    } else {
      qs := ps;
    }
  }

  /** The walk over an extension area, exactly: it follows the headers that stand there, at most 16, up to the
      type that ends the chain, and reads the last container; it fails with the reason found at the place where
      it cannot go on. */
  lemma WalkExact(area: seq<u8>, first: u8) returns (ps: seq<nat>)
    ensures Links(area, ps) && |ps| <= 17 && AllLive(area, first, ps)
    ensures Outcome(area, first, ps, WalkChain(area, 0, first, 0, NoQos))
  {
    ps := WalkFollows(area, first, [0]);
  }

  // ---------------------------------------------------------------------------
  // Packets
  // ---------------------------------------------------------------------------

  /** Why a packet is rejected before its extension headers are looked at, if it is. */
  ghost function Rejection(frame: seq<u8>): Option<Status> {
    if |frame| < 8 then Some(Truncated)
    else if frame[0] / 32 != 1 then Some(BadVersion)
    else if frame[0] / 16 % 2 != 1 then Some(NotGtpU)
    else if |frame| < 8 + Number(frame[2..4]) then Some(Truncated)
    else if frame[0] % 8 != 0 && Number(frame[2..4]) < 4 then Some(BadLength)
    else None
  }

  /** The packet has the four optional bytes. */
  predicate Optional(frame: seq<u8>)
    requires |frame| >= 8
  {
    frame[0] % 8 != 0
  }

  /** The extension area, and the type of its first header: 0 unless the E flag announces one. */
  ghost function ExtArea(frame: seq<u8>): seq<u8>
    requires Rejection(frame).None? && Optional(frame)
  {
    frame[12..8 + Number(frame[2..4])]
  }

  ghost function FirstKind(frame: seq<u8>): u8
    requires Rejection(frame).None? && Optional(frame)
  {
    if frame[0] / 4 % 2 == 1 then frame[11] else 0
  }

  /** The fields that every header has. */
  ghost predicate FixedFields(frame: seq<u8>, h: Header)
    requires |frame| >= 8
  {
    h.msgType == frame[1] && h.declaredLen == Number(frame[2..4]) && h.teid == Number(frame[4..8])
  }

  /** Without optional bytes everything declared is payload. */
  ghost predicate PlainHeader(frame: seq<u8>, h: Header)
    requires Rejection(frame).None?
  {
    && FixedFields(frame, h) && h.payload == frame[8..8 + Number(frame[2..4])] && h.headerLen == 8
    && h.seqNo == 0 && h.npdu == 0 && h.qos == Qos(false, 0, 0, false) && h.extCount == 0
    && !h.hasSeq && !h.hasNpdu && !h.hasExt
  }

  /** With optional bytes, and `ps` the extension headers. */
  ghost predicate FullHeader(frame: seq<u8>, ps: seq<nat>, h: Header)
    requires Rejection(frame).None? && Optional(frame) && Links(ExtArea(frame), ps)
  {
    var n := |ps| - 1;
    && FixedFields(frame, h) && h.headerLen == 12 + ps[n] <= 8 + Number(frame[2..4])
    && h.payload == frame[12 + ps[n]..8 + Number(frame[2..4])]
    && h.seqNo == Number(frame[8..10]) && h.npdu == frame[10]
    && h.qos == QosIn(ExtArea(frame), FirstKind(frame), ps) && h.extCount == n
    && h.hasSeq == (frame[0] / 2 % 2 == 1) && h.hasNpdu == (frame[0] % 2 == 1) && h.hasExt == (FirstKind(frame) != 0)
  }

  /** What the parser makes of a frame that is not rejected at once. */
  ghost predicate Meaning(frame: seq<u8>, ps: seq<nat>, r: Parsed)
    requires Rejection(frame).None?
  {
    if !Optional(frame) then r.Ok? && PlainHeader(frame, r.h)
    else
      && Links(ExtArea(frame), ps) && |ps| <= 17 && AllLive(ExtArea(frame), FirstKind(frame), ps)
      && if KindAt(ExtArea(frame), FirstKind(frame), ps, |ps| - 1) == 0 then r.Ok? && FullHeader(frame, ps, r.h)
         else r.Err? && Outcome(ExtArea(frame), FirstKind(frame), ps, Broken(r.status))
  }

  lemma NumbersOf(frame: seq<u8>)
    requires |frame| >= 8
    ensures Load16(frame, 2) == Number(frame[2..4]) && Load32(frame, 4) == Number(frame[4..8])
    ensures |frame| >= 10 ==> Load16(frame, 8) == Number(frame[8..10])
  {
    LoadIsNumber(frame, 2);
    LoadIsNumber(frame, 4);
    LoadIsNumber(frame, 8);
  }

  lemma FlagBits(f: u8)
    ensures f % 8 == 0 <==> f / 4 % 2 == 0 && f / 2 % 2 == 0 && f % 2 == 0
  {
  }

  /** The parser, exactly: for every byte string the reason of the first check that fails, or the fields that
      stand at their places. */
  lemma ParseExact(frame: seq<u8>) returns (ps: seq<nat>)
    ensures Rejection(frame).Some? ==> Parse(frame) == Err(Rejection(frame).value)
    ensures Rejection(frame).None? ==> Meaning(frame, ps, Parse(frame))
  {
    ps := [0];
    if |frame| >= 8 {
      NumbersOf(frame);
      FlagBits(frame[0]);
      hide Load16, Load32, Number, WalkChain, Links, Outcome, AllLive, QosIn, KindAt;
      if Rejection(frame).None? && Optional(frame) {
        ps := WalkExact(ExtArea(frame), FirstKind(frame));
        ParseWithOptional(frame, ps);
      }
    }
  }

  /** The parse of a frame with optional bytes, in terms of the walk. */
  lemma ParseByWalk(f: seq<u8>, area: seq<u8>, first: u8)
    requires |f| >= 12 && Version(f[0]) == 1 && ProtocolType(f[0]) && 4 <= Load16(f, 2) <= |f| - 8
    requires ExtFlag(f[0]) || SeqFlag(f[0]) || NpduFlag(f[0])
    requires area == f[12..8 + Load16(f, 2)] && first == if ExtFlag(f[0]) then f[11] else 0
    ensures var w := WalkChain(area, 0, first, 0, NoQos);
            && (w.Broken? ==> Parse(f) == Err(w.status))
            && (w.Walked? ==>
                  && 12 + w.consumed <= 8 + Load16(f, 2)
                  && Parse(f) == Ok(Header(f[12 + w.consumed..8 + Load16(f, 2)], Load32(f, 4), Load16(f, 8),
                                           12 + w.consumed, Load16(f, 2), f[1], f[10], w.qos, w.links,
                                           SeqFlag(f[0]), NpduFlag(f[0]), first != 0)))
  {
    hide Version, ProtocolType, ExtFlag, SeqFlag, NpduFlag, Load16, Load32, WalkChain;
    WalkEnds(area, 0, 0, NoQos);
    ChainBounds(area, 0, first, 0, NoQos);
  }

  lemma ParseWithOptional(frame: seq<u8>, ps: seq<nat>)
    requires Rejection(frame).None? && Optional(frame)
    requires Links(ExtArea(frame), ps) && |ps| <= 17 && AllLive(ExtArea(frame), FirstKind(frame), ps)
    requires Outcome(ExtArea(frame), FirstKind(frame), ps, WalkChain(ExtArea(frame), 0, FirstKind(frame), 0, NoQos))
    ensures Meaning(frame, ps, Parse(frame))
  {
    hide Parse, Load16, Load32, Number, WalkChain, AllLive, QosIn, Links, KindAt;
    NumbersOf(frame);
    FlagBits(frame[0]);
    ParseByWalk(frame, ExtArea(frame), FirstKind(frame));
    hide Version, ProtocolType;
  }
}
