/** Diameter messages and their Gy content (section 3 of RFC 6733; sections 8.16 and 8.19 of RFC 4006):
    the extraction of usage reports, the request builder, and the round trip. */
module Gy {
  import opened Words
  import opened Bytes
  import opened Avps

  const HEADER_LEN: nat := 20
  const MAX_MESSAGE: nat := 0x10_0000
  const MAX_MSCC: nat := 8
  const CREDIT_CONTROL: nat := 272

  datatype Header = Header(
    avps: seq<u8>, msgLength: nat, command: nat, app: u32, hopByHop: u32, endToEnd: u32, flags: u8)

  datatype HeaderResult = Good(h: Header) | Bad(status: Status)

  function ParseHeader(buf: seq<u8>): (r: HeaderResult)
    ensures r.Good? ==> HEADER_LEN <= r.h.msgLength <= |buf| && |r.h.avps| == r.h.msgLength - HEADER_LEN
  {
    if |buf| < HEADER_LEN then Bad(Truncated)
    else if buf[0] != 1 then Bad(BadVersion)
    else
      var len := Load24(buf, 1);
      if len < HEADER_LEN || len > MAX_MESSAGE then Bad(BadLength)
      else if len % 4 != 0 then Bad(BadLength)
      else if |buf| < len then Bad(Truncated)
      else Good(Header(buf[HEADER_LEN..len], len, Load24(buf, 5), Load32(buf, 8), Load32(buf, 12), Load32(buf, 16), buf[4]))
  }

  function AsU32(a: Avp): Option<u32> {
    if |a.data| == 4 then Some(Load32(a.data, 0)) else None
  }

  /** Counters may also come as 32-bit values. */
  function AsU64(a: Avp): Option<u64> {
    if |a.data| == 8 then Some(Load64(a.data, 0))
    else if |a.data| == 4 then Some(Load32(a.data, 0))
    else None
  }

  function Or<T>(o: Option<T>, fallback: T): T {
    if o.Some? then o.value else fallback
  }

  // ---------------------------------------------------------------------------
  // IMSI digits
  // ---------------------------------------------------------------------------

  predicate IsDigit(c: u8) {
    0x30 <= c <= 0x39
  }

  predicate AllDigits(s: seq<u8>) {
    forall i :: 0 <= i < |s| ==> IsDigit(s[i])
  }

  /** The number the digits denote, in unbounded arithmetic. */
  function Value(s: seq<u8>): nat
    requires AllDigits(s)
  {
    if s == [] then 0 else Value(s[..|s| - 1]) * 10 + (s[|s| - 1] as int - 0x30)
  }

  function Pow10(n: nat): nat {
    if n == 0 then 1 else 10 * Pow10(n - 1)
  }

  lemma {:induction false} ValueBound(s: seq<u8>)
    requires AllDigits(s)
    ensures Value(s) < Pow10(|s|)
  {
    if s != [] {
      ValueBound(s[..|s| - 1]);
    }
  }

  lemma {:induction false} Pow10Grows(n: nat, m: nat)
    requires n <= m
    ensures Pow10(n) <= Pow10(m)
    decreases m
  {
    if n < m {
      Pow10Grows(n, m - 1);
    }
  }

  lemma Thousands(n: nat)
    ensures Pow10(n + 3) == 1000 * Pow10(n)
  {
    assert Pow10(n + 2) == 100 * Pow10(n);
  }

  /** Every digit string the packer accepts fits 64 bits. */
  lemma NoWrap(s: seq<u8>)
    requires AllDigits(s) && |s| <= 19
    ensures Value(s) < 0x1_0000_0000_0000_0000
  {
    ValueBound(s);
    Pow10Grows(|s|, 19);
    Thousands(0);
    Thousands(3);
    Thousands(6);
    Thousands(9);
    Thousands(12);
    Thousands(15);
    assert Pow10(19) == 10_000_000_000_000_000_000;
  }

  function Packed(s: seq<u8>): Option<u64> {
    if s == [] || |s| > 19 || !AllDigits(s) then None
    else
      NoWrap(s);
      Some(Value(s))
  }

  method PackImsi(s: seq<u8>) returns (r: Option<u64>)
    ensures r == Packed(s)
  {
    if s == [] || |s| > 19 {
      return None;
    }
    var v: u64 := 0;
    for i := 0 to |s|
      invariant AllDigits(s[..i]) && v == Value(s[..i])
    {
      if s[i] < 0x30 || s[i] > 0x39 {
        return None;
      }
      assert s[..i + 1][..i] == s[..i];
      assert AllDigits(s[..i + 1]);
      NoWrap(s[..i + 1]);
      v := (v * 10 + (s[i] as int - 0x30)) % 0x1_0000_0000_0000_0000;
    }
    assert s[..|s|] == s;
    return Some(v);
  }

  /** Packing loses nothing among identities of one length. */
  lemma {:induction false} PackedInjective(s: seq<u8>, t: seq<u8>)
    requires AllDigits(s) && AllDigits(t) && |s| == |t| && Value(s) == Value(t)
    ensures s == t
    decreases |s|
  {
    if s != [] {
      var n := |s| - 1;
      assert Value(s[..n]) == Value(t[..n]) && s[n] == t[n];
      PackedInjective(s[..n], t[..n]);
      assert s == s[..n] + [s[n]] && t == t[..n] + [t[n]];
    }
  }

  // ---------------------------------------------------------------------------
  // Extraction
  // ---------------------------------------------------------------------------

  datatype Mscc = Mscc(
    usedInput: u64, usedOutput: u64, usedTotal: u64, granted: u64, ratingGroup: u32, service: u32,
    hasRatingGroup: bool, hasService: bool, hasUsed: bool, hasGranted: bool)

  const NoMscc := Mscc(0, 0, 0, 0, 0, 0, false, false, false, false)

  datatype Message = Message(
    sessionId: seq<u8>, originHost: seq<u8>, originRealm: seq<u8>, msisdn: seq<u8>, mscc: seq<Mscc>, imsi: u64,
    requestType: u32, requestNumber: u32, resultCode: u32,
    isRequest: bool, hasImsi: bool, hasResultCode: bool, msccOverflow: bool)

  datatype Subscription = Subscription(kind: u32, data: seq<u8>)

  /** A visitor that never stops a walk, as a left fold over the AVPs it is shown. */
  function Fold<S>(step: (S, Avp) -> S, s: S, avps: seq<Avp>): S {
    if avps == [] then s else Fold(step, step(s, avps[0]), avps[1..])
  }

  function UsedStep(m: Mscc, a: Avp): Mscc {
    if a.code == 412 then m.(usedInput := Or(AsU64(a), m.usedInput))
    else if a.code == 414 then m.(usedOutput := Or(AsU64(a), m.usedOutput))
    else if a.code == 421 then m.(usedTotal := Or(AsU64(a), m.usedTotal))
    else m
  }

  function Used(m: Mscc, a: Avp): Mscc {
    var r := Fold(UsedStep, m.(hasUsed := true), ForEachAvp(a.data, 2).avps);
    if r.usedTotal == 0 then r.(usedTotal := Add64(r.usedInput, r.usedOutput)) else r
  }

  function GrantedStep(m: Mscc, a: Avp): Mscc {
    if a.code == 421 then m.(granted := Or(AsU64(a), m.granted)) else m
  }

  function Granted(m: Mscc, a: Avp): Mscc {
    Fold(GrantedStep, m.(hasGranted := true), ForEachAvp(a.data, 3).avps)
  }

  function MsccStep(m: Mscc, a: Avp): Mscc {
    if a.code == 432 then m.(ratingGroup := Or(AsU32(a), m.ratingGroup), hasRatingGroup := AsU32(a).Some?)
    else if a.code == 439 then m.(service := Or(AsU32(a), m.service), hasService := AsU32(a).Some?)
    else if a.code == 446 then Used(m, a)
    else if a.code == 431 then Granted(m, a)
    else m
  }

  function MsccOf(a: Avp): Mscc {
    Fold(MsccStep, NoMscc, ForEachAvp(a.data, 1).avps)
  }

  function SubscriptionStep(s: Subscription, a: Avp): Subscription {
    if a.code == 450 then s.(kind := Or(AsU32(a), s.kind))
    else if a.code == 444 then s.(data := a.data)
    else s
  }

  function SubscriptionOf(a: Avp): Subscription {
    Fold(SubscriptionStep, Subscription(0xFFFF_FFFF, []), ForEachAvp(a.data, 1).avps)
  }

  function WithSubscription(m: Message, s: Subscription): Message {
    if s.kind == 1 then m.(imsi := Or(Packed(s.data), m.imsi), hasImsi := Packed(s.data).Some?)
    else if s.kind == 0 then m.(msisdn := s.data)
    else m
  }

  function MessageStep(m: Message, a: Avp): Message {
    if a.code == 263 then m.(sessionId := a.data)
    else if a.code == 264 then m.(originHost := a.data)
    else if a.code == 296 then m.(originRealm := a.data)
    else if a.code == 416 then m.(requestType := Or(AsU32(a), m.requestType))
    else if a.code == 415 then m.(requestNumber := Or(AsU32(a), m.requestNumber))
    else if a.code == 268 then m.(resultCode := Or(AsU32(a), m.resultCode), hasResultCode := AsU32(a).Some?)
    else if a.code == 443 then WithSubscription(m, SubscriptionOf(a))
    else if a.code == 456 then
      if |m.mscc| < MAX_MSCC then m.(mscc := m.mscc + [MsccOf(a)]) else m.(msccOverflow := true)
    else m
  }

  function Blank(isRequest: bool): Message {
    Message([], [], [], [], [], 0, 0, 0, 0, isRequest, false, false, false)
  }

  datatype Extracted = Extracted(status: Status, m: Message)

  function Extract(h: Header): Extracted {
    var w := ForEachAvp(h.avps, 0);
    Extracted(w.status, Fold(MessageStep, Blank(h.flags >= 0x80), w.avps))
  }

  method ParseUsed(m: Mscc, a: Avp) returns (r: Mscc)
    ensures r == Used(m, a)
  {
    hide UsedStep;
    r := m.(hasUsed := true);
    var w := WalkArea(a.data, 2);
    for i := 0 to |w.avps|
      invariant Fold(UsedStep, m.(hasUsed := true), w.avps) == Fold(UsedStep, r, w.avps[i..])
    {
      assert w.avps[i..][1..] == w.avps[i + 1..];
      r := UsedStep(r, w.avps[i]);
    }
    if r.usedTotal == 0 {
      r := r.(usedTotal := Add64(r.usedInput, r.usedOutput));
    }
  }

  method ParseGranted(m: Mscc, a: Avp) returns (r: Mscc)
    ensures r == Granted(m, a)
  {
    hide GrantedStep;
    r := m.(hasGranted := true);
    var w := WalkArea(a.data, 3);
    for i := 0 to |w.avps|
      invariant Fold(GrantedStep, m.(hasGranted := true), w.avps) == Fold(GrantedStep, r, w.avps[i..])
    {
      assert w.avps[i..][1..] == w.avps[i + 1..];
      r := GrantedStep(r, w.avps[i]);
    }
  }

  method ParseMscc(a: Avp) returns (r: Mscc)
    ensures r == MsccOf(a)
  {
    hide Used, Granted, AsU32;
    r := NoMscc;
    var w := WalkArea(a.data, 1);
    for i := 0 to |w.avps|
      invariant Fold(MsccStep, NoMscc, w.avps) == Fold(MsccStep, r, w.avps[i..])
    {
      assert w.avps[i..][1..] == w.avps[i + 1..];
      var sub := w.avps[i];
      match sub.code {
        case 432 => r := r.(ratingGroup := Or(AsU32(sub), r.ratingGroup), hasRatingGroup := AsU32(sub).Some?);
        case 439 => r := r.(service := Or(AsU32(sub), r.service), hasService := AsU32(sub).Some?);
        case 446 => r := ParseUsed(r, sub);
        case 431 => r := ParseGranted(r, sub);
        case _ =>
      }
    }
  }

  method ParseSubscription(m: Message, a: Avp) returns (r: Message)
    ensures r == WithSubscription(m, SubscriptionOf(a))
  {
    hide SubscriptionStep, Packed;
    var s := Subscription(0xFFFF_FFFF, []);
    var w := WalkArea(a.data, 1);
    for i := 0 to |w.avps|
      invariant Fold(SubscriptionStep, Subscription(0xFFFF_FFFF, []), w.avps) == Fold(SubscriptionStep, s, w.avps[i..])
    {
      assert w.avps[i..][1..] == w.avps[i + 1..];
      s := SubscriptionStep(s, w.avps[i]);
    }
    r := m;
    if s.kind == 1 {
      var imsi := PackImsi(s.data);
      r := r.(imsi := Or(imsi, r.imsi), hasImsi := imsi.Some?);
    } else if s.kind == 0 {
      r := r.(msisdn := s.data);
    }
  }

  method ParseGy(h: Header) returns (r: Extracted)
    ensures r == Extract(h)
  {
    hide AsU32, MsccOf, SubscriptionOf, WithSubscription;
    var m := Blank(h.flags >= 0x80);
    var w := WalkArea(h.avps, 0);
    for i := 0 to |w.avps|
      invariant Fold(MessageStep, Blank(h.flags >= 0x80), w.avps) == Fold(MessageStep, m, w.avps[i..])
    {
      assert w.avps[i..][1..] == w.avps[i + 1..];
      m := ParseOne(m, w.avps[i]);
    }
    return Extracted(w.status, m);
  }

  method ParseOne(m: Message, a: Avp) returns (r: Message)
    ensures r == MessageStep(m, a)
  {
    hide AsU32, MsccOf, SubscriptionOf, WithSubscription;
    r := m;
    match a.code {
      case 263 => r := r.(sessionId := a.data);
      case 264 => r := r.(originHost := a.data);
      case 296 => r := r.(originRealm := a.data);
      case 416 => r := r.(requestType := Or(AsU32(a), r.requestType));
      case 415 => r := r.(requestNumber := Or(AsU32(a), r.requestNumber));
      case 268 => r := r.(resultCode := Or(AsU32(a), r.resultCode), hasResultCode := AsU32(a).Some?);
      case 443 => r := ParseSubscription(r, a);
      case 456 =>
        if |r.mscc| < MAX_MSCC {
          var block := ParseMscc(a);
          r := r.(mscc := r.mscc + [block]);
        } else {
          r := r.(msccOverflow := true);
        }
      case _ =>
    }
  }

  /** The service blocks among the AVPs of a message. */
  function Blocks(avps: seq<Avp>): seq<Avp> {
    if avps == [] then []
    else
      var n := |avps| - 1;
      Blocks(avps[..n]) + if avps[n].code == 456 then [avps[n]] else []
  }

  function FirstOf(n: nat, blocks: seq<Avp>): seq<Mscc> {
    seq(if |blocks| < n then |blocks| else n, i requires 0 <= i < |blocks| => MsccOf(blocks[i]))
  }

  lemma {:induction false} FoldSnoc<S>(step: (S, Avp) -> S, s: S, avps: seq<Avp>, a: Avp)
    ensures Fold(step, s, avps + [a]) == step(Fold(step, s, avps), a)
    decreases |avps|
  {
    if avps == [] {
      assert avps + [a] == [a] && [a][1..] == [];
    } else {
      assert (avps + [a])[1..] == avps[1..] + [a];
      FoldSnoc(step, step(s, avps[0]), avps[1..], a);
    }
  }

  lemma StepBlocks(m: Message, a: Avp)
    ensures var r := MessageStep(m, a);
            && (a.code != 456 ==> r.mscc == m.mscc && r.msccOverflow == m.msccOverflow)
            && (a.code == 456 && |m.mscc| < MAX_MSCC ==> r.mscc == m.mscc + [MsccOf(a)] && r.msccOverflow == m.msccOverflow)
            && (a.code == 456 && |m.mscc| >= MAX_MSCC ==> r.mscc == m.mscc && r.msccOverflow)
  {
    hide AsU32, MsccOf, SubscriptionOf, Packed;
  }

  /** However many service blocks a message carries, the first eight are kept, in order, and the overflow
      flag says exactly whether there were more. */
  lemma {:induction false} FirstEightKept(isRequest: bool, avps: seq<Avp>)
    ensures var m := Fold(MessageStep, Blank(isRequest), avps);
            m.mscc == FirstOf(MAX_MSCC, Blocks(avps)) && (m.msccOverflow <==> |Blocks(avps)| > MAX_MSCC)
    decreases |avps|
  {
    hide MessageStep, MsccOf;
    if avps != [] {
      var n := |avps| - 1;
      FirstEightKept(isRequest, avps[..n]);
      assert avps == avps[..n] + [avps[n]];
      FoldSnoc(MessageStep, Blank(isRequest), avps[..n], avps[n]);
      StepBlocks(Fold(MessageStep, Blank(isRequest), avps[..n]), avps[n]);
    }
  }

  // ---------------------------------------------------------------------------
  // Building a request
  // ---------------------------------------------------------------------------

  datatype Spec = Spec(
    sessionId: seq<u8>, originHost: seq<u8>, originRealm: seq<u8>, imsi: seq<u8>, requestType: u32, requestNumber: u32,
    ratingGroup: u32, usedInput: u64, usedOutput: u64, includeMscc: bool)

  function BuildMessage(command: nat, app: u32, request: bool, avps: seq<u8>, hopByHop: u32, endToEnd: u32): seq<u8>
    requires command < 0x100_0000
  {
    [1] + Be24((HEADER_LEN + |avps|) % 0x100_0000) + [if request then 0x80 else 0] + Be24(command)
    + Be32(app) + Be32(hopByHop) + Be32(endToEnd) + avps
  }

  function Mandatory(code: u32, data: seq<u8>): Item {
    Item(code, 0x40, 0, data)
  }

  function SubscriptionItems(s: Spec): seq<Item> {
    [Mandatory(450, Be32(1)), Mandatory(444, s.imsi)]
  }

  function UsedItems(s: Spec): seq<Item> {
    [Mandatory(412, Be64(s.usedInput)), Mandatory(414, Be64(s.usedOutput)),
     Mandatory(421, Be64(Add64(s.usedInput, s.usedOutput)))]
  }

  function MsccItems(s: Spec): seq<Item> {
    [Mandatory(432, Be32(s.ratingGroup)), Mandatory(446, EncodeAll(UsedItems(s)))]
  }

  function RequestItems(s: Spec): seq<Item> {
    [Mandatory(263, s.sessionId), Mandatory(264, s.originHost), Mandatory(296, s.originRealm),
     Mandatory(416, Be32(s.requestType)), Mandatory(415, Be32(s.requestNumber)),
     Mandatory(443, EncodeAll(SubscriptionItems(s)))]
    + if s.includeMscc then [Mandatory(456, EncodeAll(MsccItems(s)))] else []
  }

  function Request(s: Spec): seq<u8> {
    BuildMessage(CREDIT_CONTROL, 4, true, EncodeAll(RequestItems(s)), 0x1111_1111, 0x2222_2222)
  }

  lemma {:induction false} EncodeAllSnoc(items: seq<Item>, i: Item)
    ensures EncodeAll(items + [i]) == EncodeAll(items) + EncodeAvp(i)
    decreases |items|
  {
    hide EncodeAvp;
    if items == [] {
      assert items + [i] == [i] && [i][1..] == [];
      assert EncodeAll([i][1..]) == [];
    } else {
      assert (items + [i])[0] == items[0] && (items + [i])[1..] == items[1..] + [i];
      EncodeAllSnoc(items[1..], i);
    }
  }

  /** Appends the next of the AVPs `all`, `n` of which are already in `out`. */
  method Append(out: seq<u8>, ghost all: seq<Item>, ghost n: nat, i: Item) returns (r: seq<u8>)
    requires n < |all| && all[n] == i && out == EncodeAll(all[..n])
    ensures r == EncodeAll(all[..n + 1])
  {
    hide EncodeAvp, EncodeAll;
    EncodedIsAligned(all[..n]);
    EncodeAllSnoc(all[..n], i);
    assert all[..n + 1] == all[..n] + [i];
    r := PutAvp(out, i);
  }

  lemma Ends(items: seq<Item>)
    ensures EncodeAll(items[..0]) == [] && items[..|items|] == items
  {
  }

  method BuildUsed(s: Spec) returns (usu: seq<u8>)
    ensures usu == EncodeAll(UsedItems(s))
  {
    hide EncodeAll, Be64;
    ghost var all := UsedItems(s);
    Ends(all);
    usu := Append([], all, 0, Mandatory(412, Be64(s.usedInput)));
    usu := Append(usu, all, 1, Mandatory(414, Be64(s.usedOutput)));
    usu := Append(usu, all, 2, Mandatory(421, Be64(Add64(s.usedInput, s.usedOutput))));
  }

  method BuildCcr(s: Spec) returns (out: seq<u8>)
    ensures out == Request(s)
  {
    hide EncodeAll, Be64, Be32, Be24;
    ghost var all, subs, blocks := RequestItems(s), SubscriptionItems(s), MsccItems(s);
    Ends(all);
    Ends(subs);
    Ends(blocks);
    var avps := Append([], all, 0, Mandatory(263, s.sessionId));
    avps := Append(avps, all, 1, Mandatory(264, s.originHost));
    avps := Append(avps, all, 2, Mandatory(296, s.originRealm));
    avps := Append(avps, all, 3, Mandatory(416, Be32(s.requestType)));
    avps := Append(avps, all, 4, Mandatory(415, Be32(s.requestNumber)));

    var sub := Append([], subs, 0, Mandatory(450, Be32(1)));
    sub := Append(sub, subs, 1, Mandatory(444, s.imsi));
    avps := Append(avps, all, 5, Mandatory(443, sub));

    if s.includeMscc {
      var usu := BuildUsed(s);
      var mscc := Append([], blocks, 0, Mandatory(432, Be32(s.ratingGroup)));
      mscc := Append(mscc, blocks, 1, Mandatory(446, usu));
      avps := Append(avps, all, 6, Mandatory(456, mscc));
    }
    assert avps == EncodeAll(all);
    return BuildMessage(CREDIT_CONTROL, 4, true, avps, 0x1111_1111, 0x2222_2222);
  }

  // ---------------------------------------------------------------------------
  // The round trip
  // ---------------------------------------------------------------------------

  lemma {:induction false} SmallFits(items: seq<Item>)
    requires |EncodeAll(items)| < 0x100_0000
    ensures AllFit(items)
    ensures forall k :: 0 <= k < |items| ==> |items[k].data| < |EncodeAll(items)|
    decreases |items|
  {
    hide EncodeAvp;
    if items != [] {
      SmallFits(items[1..]);
      forall k | 0 <= k < |items| ensures Size(items[k]) < 0x100_0000 && |items[k].data| < |EncodeAll(items)| {
        assert k > 0 ==> items[k] == items[1..][k - 1];
      }
    }
  }

  lemma FoldCons<S>(step: (S, Avp) -> S, s: S, a: Avp, rest: seq<Avp>)
    ensures Fold(step, s, [a] + rest) == Fold(step, step(s, a), rest)
  {
    assert ([a] + rest)[1..] == rest;
  }

  lemma U32Read(code: u32, v: u32)
    ensures AsU32(Seen(Mandatory(code, Be32(v)))) == Some(v)
  {
    LoadBe32(Be32(v), 0, v);
  }

  lemma U64Read(code: u32, v: u64)
    ensures AsU64(Seen(Mandatory(code, Be64(v)))) == Some(v)
  {
    hide Be32;
    assert Be64(v)[0..8] == Be64(v);
    LoadBe64(Be64(v), 0, v);
  }

  lemma UsedRead(m: Mscc, s: Spec)
    requires |EncodeAll(UsedItems(s))| < 0x100_0000
    ensures Used(m, Seen(Mandatory(446, EncodeAll(UsedItems(s)))))
            == m.(hasUsed := true, usedInput := s.usedInput, usedOutput := s.usedOutput,
                  usedTotal := Add64(s.usedInput, s.usedOutput))
  {
    hide AsU64, EncodeAll, Be64, ForEachAvp, AllFit, Add64;
    var items := UsedItems(s);
    SmallFits(items);
    AreaRoundTrip(items, 2);
    var x, y, z := Seen(items[0]), Seen(items[1]), Seen(items[2]);
    assert SeenAll(items) == [x] + ([y] + ([z] + []));
    var m0 := m.(hasUsed := true);
    var m1 := UsedStep(m0, x);
    var m2 := UsedStep(m1, y);
    FoldCons(UsedStep, m0, x, [y] + ([z] + []));
    FoldCons(UsedStep, m1, y, [z] + []);
    FoldCons(UsedStep, m2, z, []);
    U64Read(412, s.usedInput);
    U64Read(414, s.usedOutput);
    U64Read(421, Add64(s.usedInput, s.usedOutput));
  }

  lemma MsccRead(s: Spec)
    requires |EncodeAll(MsccItems(s))| < 0x100_0000
    ensures MsccOf(Seen(Mandatory(456, EncodeAll(MsccItems(s)))))
            == Mscc(s.usedInput, s.usedOutput, Add64(s.usedInput, s.usedOutput), 0, s.ratingGroup, 0, true, false, true, false)
  {
    hide AsU32, EncodeAll, Be32, ForEachAvp, AllFit, Add64, Used, UsedItems;
    var items := MsccItems(s);
    SmallFits(items);
    AreaRoundTrip(items, 1);
    var x, y := Seen(items[0]), Seen(items[1]);
    assert SeenAll(items) == [x] + ([y] + []);
    var m1 := MsccStep(NoMscc, x);
    FoldCons(MsccStep, NoMscc, x, [y] + []);
    FoldCons(MsccStep, m1, y, []);
    U32Read(432, s.ratingGroup);
    assert |items[1].data| < |EncodeAll(items)|;
    UsedRead(m1, s);
  }

  lemma SubscriptionRead(s: Spec)
    requires |EncodeAll(SubscriptionItems(s))| < 0x100_0000
    ensures SubscriptionOf(Seen(Mandatory(443, EncodeAll(SubscriptionItems(s))))) == Subscription(1, s.imsi)
  {
    hide AsU32, EncodeAll, Be32, ForEachAvp, AllFit;
    var items := SubscriptionItems(s);
    SmallFits(items);
    AreaRoundTrip(items, 1);
    var x, y := Seen(items[0]), Seen(items[1]);
    assert SeenAll(items) == [x] + ([y] + []);
    var s0 := Subscription(0xFFFF_FFFF, []);
    FoldCons(SubscriptionStep, s0, x, [y] + []);
    FoldCons(SubscriptionStep, SubscriptionStep(s0, x), y, []);
    U32Read(450, 1);
  }

  /** What the extraction recovers from the request built from `s`. */
  function Reported(s: Spec): Message {
    Message(s.sessionId, s.originHost, s.originRealm, [],
            if s.includeMscc then
              [Mscc(s.usedInput, s.usedOutput, Add64(s.usedInput, s.usedOutput), 0, s.ratingGroup, 0, true, false, true, false)]
            else [],
            Or(Packed(s.imsi), 0), s.requestType, s.requestNumber, 0, true, Packed(s.imsi).Some?, false, false)
  }

  /** The first five AVPs. */
  lemma NamesRead(s: Spec, rest: seq<Avp>)
    ensures var h := RequestItems(s);
            Fold(MessageStep, Blank(true), [Seen(h[0])] + ([Seen(h[1])] + ([Seen(h[2])] + ([Seen(h[3])] + ([Seen(h[4])] + rest)))))
            == Fold(MessageStep, Blank(true).(sessionId := s.sessionId, originHost := s.originHost, originRealm := s.originRealm,
                                              requestType := s.requestType, requestNumber := s.requestNumber), rest)
  {
    hide AsU32, EncodeAll, Be32, MsccOf, SubscriptionOf, WithSubscription;
    var h := RequestItems(s);
    var a, b, c, d, e := Seen(h[0]), Seen(h[1]), Seen(h[2]), Seen(h[3]), Seen(h[4]);
    var m0 := Blank(true);
    var m1 := m0.(sessionId := s.sessionId);
    var m2 := m1.(originHost := s.originHost);
    var m3 := m2.(originRealm := s.originRealm);
    var m4 := m3.(requestType := s.requestType);
    U32Read(416, s.requestType);
    U32Read(415, s.requestNumber);
    FoldCons(MessageStep, m0, a, [b] + ([c] + ([d] + ([e] + rest))));
    FoldCons(MessageStep, m1, b, [c] + ([d] + ([e] + rest)));
    FoldCons(MessageStep, m2, c, [d] + ([e] + rest));
    FoldCons(MessageStep, m3, d, [e] + rest);
    FoldCons(MessageStep, m4, e, rest);
  }

  lemma GroupsRead(s: Spec, m: Message)
    requires |EncodeAll(RequestItems(s))| < 0x100_0000
    requires m == Blank(true).(sessionId := s.sessionId, originHost := s.originHost, originRealm := s.originRealm,
                               requestType := s.requestType, requestNumber := s.requestNumber)
    ensures Fold(MessageStep, m, SeenAll(RequestItems(s)[5..])) == Reported(s)
  {
    hide EncodeAll, Be32, MsccOf, SubscriptionOf, Packed, Add64, AllFit;
    var h := RequestItems(s);
    SmallFits(h);
    assert |h[5].data| < |EncodeAll(h)|;
    SubscriptionRead(s);
    var f := Seen(h[5]);
    var m1 := MessageStep(m, f);
    if s.includeMscc {
      var g := Seen(h[6]);
      assert |h[6].data| < |EncodeAll(h)|;
      MsccRead(s);
      assert SeenAll(h[5..]) == [f] + ([g] + []);
      FoldCons(MessageStep, m, f, [g] + []);
      FoldCons(MessageStep, m1, g, []);
    } else {
      assert SeenAll(h[5..]) == [f] + [];
      FoldCons(MessageStep, m, f, []);
    }
  }

  /** The AVP area of a built request gives the whole report back. */
  lemma ReportRoundTrip(s: Spec, h: Header)
    requires |EncodeAll(RequestItems(s))| < 0x100_0000
    requires h.avps == EncodeAll(RequestItems(s)) && h.flags >= 0x80
    ensures Extract(h) == Extracted(Okay, Reported(s))
  {
    hide EncodeAll, ForEachAvp, AllFit, MessageStep, Reported, Seen, Blank;
    var all := RequestItems(s);
    SmallFits(all);
    AreaRoundTrip(all, 0);
    var rest := SeenAll(all[5..]);
    assert SeenAll(all) == [Seen(all[0])] + ([Seen(all[1])] + ([Seen(all[2])] + ([Seen(all[3])] + ([Seen(all[4])] + rest))));
    NamesRead(s, rest);
    GroupsRead(s, Blank(true).(sessionId := s.sessionId, originHost := s.originHost, originRealm := s.originRealm,
                               requestType := s.requestType, requestNumber := s.requestNumber));
  }

  lemma HeaderSlices(a: u8, b: seq<u8>, c: u8, d: seq<u8>, e: seq<u8>, f: seq<u8>, g: seq<u8>, rest: seq<u8>)
    requires |b| == |d| == 3 && |e| == |f| == |g| == 4
    ensures var w := [a] + b + [c] + d + e + f + g + rest;
            && |w| >= 20 && w[0] == a && w[1..4] == b && w[4] == c && w[5..8] == d
            && w[8..12] == e && w[12..16] == f && w[16..20] == g && w[20..] == rest
  {
    var w := [a] + b + [c] + d + e + f + g + rest;
    assert w[1..4] == b;
    assert w[5..8] == d;
    assert w[8..12] == e;
    assert w[12..16] == f;
    assert w[16..20] == g;
  }

  /** A framed AVP area comes back with its header fields, whatever follows it. */
  lemma HeaderRoundTrip(command: nat, app: u32, request: bool, avps: seq<u8>, hopByHop: u32, endToEnd: u32, tail: seq<u8>)
    requires command < 0x100_0000 && HEADER_LEN + |avps| <= MAX_MESSAGE && |avps| % 4 == 0
    ensures ParseHeader(BuildMessage(command, app, request, avps, hopByHop, endToEnd) + tail)
            == Good(Header(avps, HEADER_LEN + |avps|, command, app, hopByHop, endToEnd, if request then 0x80 else 0))
  {
    hide Be24, Be32, Load24, Load32;
    var flags: u8 := if request then 0x80 else 0;
    var len := HEADER_LEN + |avps|;
    var b := BuildMessage(command, app, request, avps, hopByHop, endToEnd) + tail;
    HeaderSlices(1, Be24(len), flags, Be24(command), Be32(app), Be32(hopByHop), Be32(endToEnd), avps + tail);
    assert b == [1] + Be24(len) + [flags] + Be24(command) + Be32(app) + Be32(hopByHop) + Be32(endToEnd) + (avps + tail);
    LoadBe24(b, 1, len);
    LoadBe24(b, 5, command);
    LoadBe32(b, 8, app);
    LoadBe32(b, 12, hopByHop);
    LoadBe32(b, 16, endToEnd);
    assert b[20..len] == b[20..][..|avps|] == avps;
  }

  // ---------------------------------------------------------------------------
  // Streams of messages
  // ---------------------------------------------------------------------------

  datatype MessageResult = Parsed(h: Header, m: Message) | Rejected(status: Status)

  /** One message at the front of `buf`; only credit-control messages are looked into. */
  function ParseMessage(buf: seq<u8>): (r: MessageResult)
    ensures r.Parsed? ==> HEADER_LEN <= r.h.msgLength <= |buf|
  {
    match ParseHeader(buf)
    case Bad(st) => Rejected(st)
    case Good(h) =>
      if h.command != CREDIT_CONTROL then Parsed(h, Blank(false))
      else
        var e := Extract(h);
        if e.status != Okay then Rejected(e.status) else Parsed(h, e.m)
  }

  datatype Event = Event(
    ts: u64, imsi: u64, usedInput: u64, usedOutput: u64, usedTotal: u64, granted: u64, ratingGroup: u32,
    requestType: u32, requestNumber: u32, resultCode: u32,
    isRequest: bool, hasUsed: bool, hasGranted: bool, hasImsi: bool)

  function EventOf(m: Message, block: Mscc, ts: u64): Event {
    Event(ts, m.imsi, block.usedInput, block.usedOutput, block.usedTotal, block.granted, block.ratingGroup,
          m.requestType, m.requestNumber, m.resultCode, m.isRequest, block.hasUsed, block.hasGranted, m.hasImsi)
  }

  /** One event for each service block, and one for a message that has none. */
  function EventsOf(m: Message, ts: u64): (r: seq<Event>)
    ensures |r| == if m.mscc == [] then 1 else |m.mscc|
  {
    if m.mscc == [] then [EventOf(m, NoMscc, ts)]
    else seq(|m.mscc|, i requires 0 <= i < |m.mscc| => EventOf(m, m.mscc[i], ts))
  }

  /** What a buffer of messages says: its events, how many messages parse, and whether all did. */
  datatype Scan = Scan(events: seq<Event>, messages: nat, clean: bool)

  function ScanBuffer(buf: seq<u8>, ts: u64): Scan
    decreases |buf|
  {
    if |buf| < HEADER_LEN then Scan([], 0, true)
    else
      match ParseMessage(buf)
      case Rejected(_) => Scan([], 0, false)
      case Parsed(h, m) =>
        var rest := ScanBuffer(buf[h.msgLength..], ts);
        Scan((if h.command == CREDIT_CONTROL then EventsOf(m, ts) else []) + rest.events, 1 + rest.messages, rest.clean)
  }

  function Requests(specs: seq<Spec>): seq<u8> {
    if specs == [] then [] else Request(specs[0]) + Requests(specs[1..])
  }

  /** The event a receiver gets for one request. */
  function ReportedEvent(s: Spec, ts: u64): Event {
    Event(ts, Or(Packed(s.imsi), 0),
          if s.includeMscc then s.usedInput else 0, if s.includeMscc then s.usedOutput else 0,
          if s.includeMscc then (s.usedInput + s.usedOutput) % TWO64 else 0, 0,
          if s.includeMscc then s.ratingGroup else 0,
          s.requestType, s.requestNumber, 0, true, s.includeMscc, false, Packed(s.imsi).Some?)
  }

  lemma RequestRoundTrip(s: Spec, tail: seq<u8>)
    requires |Request(s)| <= MAX_MESSAGE
    ensures var r := ParseMessage(Request(s) + tail);
            && r.Parsed? && r.h.command == CREDIT_CONTROL && r.h.msgLength == |Request(s)| && r.m == Reported(s)
  {
    hide EncodeAll, RequestItems, ParseHeader, Extract, Reported, Be24, Be32;
    var avps := EncodeAll(RequestItems(s));
    EncodedIsAligned(RequestItems(s));
    HeaderRoundTrip(CREDIT_CONTROL, 4, true, avps, 0x1111_1111, 0x2222_2222, tail);
    var h := ParseHeader(Request(s) + tail).h;
    ReportRoundTrip(s, h);
  }

  lemma ReportedEvents(s: Spec, ts: u64)
    ensures EventsOf(Reported(s), ts) == [ReportedEvent(s, ts)]
  {
    hide Packed;
  }

  function ReportedAll(specs: seq<Spec>, ts: u64): seq<Event> {
    seq(|specs|, i requires 0 <= i < |specs| => ReportedEvent(specs[i], ts))
  }

  lemma ScanRequest(s: Spec, rest: seq<u8>, ts: u64)
    requires |Request(s)| <= MAX_MESSAGE
    ensures var t := ScanBuffer(rest, ts);
            ScanBuffer(Request(s) + rest, ts) == Scan([ReportedEvent(s, ts)] + t.events, 1 + t.messages, t.clean)
  {
    hide Request, ParseMessage, ReportedEvent, EventsOf, Reported;
    RequestRoundTrip(s, rest);
    ReportedEvents(s, ts);
    assert (Request(s) + rest)[|Request(s)|..] == rest;
  }

  /** A buffer that starts with whole requests gives exactly their events, in order, before anything
      that the bytes after them give. */
  lemma {:induction false} StreamRoundTrip(specs: seq<Spec>, tail: seq<u8>, ts: u64)
    requires forall i :: 0 <= i < |specs| ==> |Request(specs[i])| <= MAX_MESSAGE
    ensures var t := ScanBuffer(tail, ts);
            ScanBuffer(Requests(specs) + tail, ts)
            == Scan(ReportedAll(specs, ts) + t.events, |specs| + t.messages, t.clean)
    decreases |specs|
  {
    hide Request, ReportedEvent, ScanBuffer;
    var t := ScanBuffer(tail, ts);
    if specs == [] {
      assert Requests(specs) + tail == tail && ReportedAll(specs, ts) + t.events == t.events;
    } else {
      var rest := Requests(specs[1..]) + tail;
      assert Requests(specs) + tail == Request(specs[0]) + rest;
      ScanRequest(specs[0], rest, ts);
      StreamRoundTrip(specs[1..], tail, ts);
      assert ReportedAll(specs, ts) == [ReportedEvent(specs[0], ts)] + ReportedAll(specs[1..], ts);
    }
  }
}
