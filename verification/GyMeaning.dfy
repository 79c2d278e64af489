/** What a credit-control message says, told from the AVPs it holds and independently of how they are visited
    (sections 8.16, 8.19 and 8.46 of RFC 4006): which value counts when a code occurs several times, is missing or
    has data of another size. */
module GyMeaning {
  import opened Words
  import opened Bytes
  import opened Avps
  import opened Gy

  // ---------------------------------------------------------------------------
  // Reading a list of AVPs
  // ---------------------------------------------------------------------------

  /** The last value of code `c` that has 4 or 8 bytes, or else `otherwise`. */
  ghost function Last64(xs: seq<Avp>, c: u32, otherwise: nat): nat {
    if xs == [] then otherwise
    else
      var a := xs[|xs| - 1];
      if a.code == c && (|a.data| == 4 || |a.data| == 8) then Number(a.data) else Last64(xs[..|xs| - 1], c, otherwise)
  }

  /** The last value of code `c` that has 4 bytes, or else `otherwise`. */
  ghost function Last32(xs: seq<Avp>, c: u32, otherwise: nat): nat {
    if xs == [] then otherwise
    else
      var a := xs[|xs| - 1];
      if a.code == c && |a.data| == 4 then Number(a.data) else Last32(xs[..|xs| - 1], c, otherwise)
  }

  /** The data of the last AVP of code `c`, or none. */
  ghost function LastData(xs: seq<Avp>, c: u32): seq<u8> {
    if xs == [] then []
    else if xs[|xs| - 1].code == c then xs[|xs| - 1].data
    else LastData(xs[..|xs| - 1], c)
  }

  /** There is an AVP of code `c`, and the last one has 4 bytes. */
  ghost predicate LastIs32(xs: seq<Avp>, c: u32) {
    xs != [] && if xs[|xs| - 1].code == c then |xs[|xs| - 1].data| == 4 else LastIs32(xs[..|xs| - 1], c)
  }

  ghost predicate Has(xs: seq<Avp>, c: u32) {
    exists i :: 0 <= i < |xs| && xs[i].code == c
  }

  lemma HasMore(xs: seq<Avp>, a: Avp, c: u32)
    ensures Has(xs + [a], c) <==> Has(xs, c) || a.code == c
  {
    var ys := xs + [a];
    if Has(xs, c) {
      var i :| 0 <= i < |xs| && xs[i].code == c;
      assert ys[i].code == c;
    }
    if a.code == c {
      assert ys[|xs|].code == c;
    }
    if Has(ys, c) {
      var i :| 0 <= i < |ys| && ys[i].code == c;
      assert i < |xs| ==> xs[i].code == c;
    }
  }

  /** All readers at once, for one more AVP. */
  lemma LastMore(xs: seq<Avp>, a: Avp, c: u32, otherwise: nat)
    ensures Last64(xs + [a], c, otherwise)
            == if a.code == c && (|a.data| == 4 || |a.data| == 8) then Number(a.data) else Last64(xs, c, otherwise)
    ensures Last32(xs + [a], c, otherwise) == if a.code == c && |a.data| == 4 then Number(a.data) else Last32(xs, c, otherwise)
    ensures LastData(xs + [a], c) == if a.code == c then a.data else LastData(xs, c)
    ensures LastIs32(xs + [a], c) == if a.code == c then |a.data| == 4 else LastIs32(xs, c)
  {
    assert (xs + [a])[..|xs|] == xs;
  }

  lemma LastNone(c: u32, otherwise: nat)
    ensures Last64([], c, otherwise) == otherwise && Last32([], c, otherwise) == otherwise
    ensures LastData([], c) == [] && !LastIs32([], c) && !Has([], c)
  {
  }

  lemma AsNumber(a: Avp)
    ensures AsU32(a) == if |a.data| == 4 then Some(Number(a.data)) else None
    ensures AsU64(a) == if |a.data| == 8 || |a.data| == 4 then Some(Number(a.data)) else None
  {
    if |a.data| == 4 {
      LoadIsNumber(a.data, 0);
      assert a.data[0..4] == a.data;
    } else if |a.data| == 8 {
      Load64IsNumber(a.data, 0);
      assert a.data[0..8] == a.data;
    }
  }

  // ---------------------------------------------------------------------------
  // Used and granted units
  // ---------------------------------------------------------------------------

  /** Octets reported so far. */
  datatype Octets = Octets(input: nat, output: nat, total: nat)

  /** One Used-Service-Unit with AVPs `xs`: the last CC-Input-Octets (412), CC-Output-Octets (414) and
      CC-Total-Octets (421); a total of 0 is replaced by input plus output. */
  ghost function UsedIn(u: Octets, xs: seq<Avp>): Octets {
    var i, o, t := Last64(xs, 412, u.input), Last64(xs, 414, u.output), Last64(xs, 421, u.total);
    Octets(i, o, if t != 0 then t else (i + o) % TWO64)
  }

  ghost predicate OctetsAre(m: Mscc, u: Octets) {
    m.usedInput == u.input && m.usedOutput == u.output && m.usedTotal == u.total
  }

  lemma {:induction false} UsedFold(m: Mscc, xs: seq<Avp>)
    ensures Fold(UsedStep, m, xs)
            == m.(usedInput := Fold(UsedStep, m, xs).usedInput, usedOutput := Fold(UsedStep, m, xs).usedOutput,
                  usedTotal := Fold(UsedStep, m, xs).usedTotal)
    ensures Fold(UsedStep, m, xs).usedInput == Last64(xs, 412, m.usedInput)
    ensures Fold(UsedStep, m, xs).usedOutput == Last64(xs, 414, m.usedOutput)
    ensures Fold(UsedStep, m, xs).usedTotal == Last64(xs, 421, m.usedTotal)
    decreases |xs|
  {
    if xs != [] {
      var n := |xs| - 1;
      var a := xs[n];
      UsedFold(m, xs[..n]);
      assert xs == xs[..n] + [a];
      FoldSnoc(UsedStep, m, xs[..n], a);
      LastMore(xs[..n], a, 412, m.usedInput);
      LastMore(xs[..n], a, 414, m.usedOutput);
      LastMore(xs[..n], a, 421, m.usedTotal);
      AsNumber(a);
      hide Fold, AsU64, Last64, Number;
    }
  }

  /** A Used-Service-Unit sets the octets to those its AVPs say, and nothing else. */
  lemma UsedMeans(m: Mscc, a: Avp, u: Octets)
    requires OctetsAre(m, u)
    ensures var r := Used(m, a);
            && OctetsAre(r, UsedIn(u, ForEachAvp(a.data, 2).avps)) && r.hasUsed
            && r == m.(usedInput := r.usedInput, usedOutput := r.usedOutput, usedTotal := r.usedTotal, hasUsed := true)
  {
    hide Fold, Last64, ForEachAvp;
    UsedFold(m.(hasUsed := true), ForEachAvp(a.data, 2).avps);
  }

  lemma {:induction false} GrantedFold(m: Mscc, xs: seq<Avp>)
    ensures Fold(GrantedStep, m, xs) == m.(granted := Fold(GrantedStep, m, xs).granted)
    ensures Fold(GrantedStep, m, xs).granted == Last64(xs, 421, m.granted)
    decreases |xs|
  {
    if xs != [] {
      var n := |xs| - 1;
      var a := xs[n];
      GrantedFold(m, xs[..n]);
      assert xs == xs[..n] + [a];
      FoldSnoc(GrantedStep, m, xs[..n], a);
      LastMore(xs[..n], a, 421, m.granted);
      AsNumber(a);
      hide Fold, AsU64, Last64, Number;
    }
  }

  // ---------------------------------------------------------------------------
  // A service block
  // ---------------------------------------------------------------------------

  /** The octets after all Used-Service-Units (446) among `xs`, in order. */
  ghost function UsedBy(xs: seq<Avp>): Octets {
    if xs == [] then Octets(0, 0, 0)
    else
      var u := UsedBy(xs[..|xs| - 1]);
      if xs[|xs| - 1].code == 446 then UsedIn(u, ForEachAvp(xs[|xs| - 1].data, 2).avps) else u
  }

  /** The total of all Granted-Service-Units (431). */
  ghost function GrantedBy(xs: seq<Avp>): nat {
    if xs == [] then 0
    else
      var g := GrantedBy(xs[..|xs| - 1]);
      if xs[|xs| - 1].code == 431 then Last64(ForEachAvp(xs[|xs| - 1].data, 3).avps, 421, g) else g
  }

  /** What a service block with AVPs `xs` says. */
  ghost predicate BlockSays(m: Mscc, xs: seq<Avp>) {
    && OctetsAre(m, UsedBy(xs)) && m.hasUsed == Has(xs, 446)
    && m.granted == GrantedBy(xs) && m.hasGranted == Has(xs, 431)
    && m.ratingGroup == Last32(xs, 432, 0) && m.hasRatingGroup == LastIs32(xs, 432)
    && m.service == Last32(xs, 439, 0) && m.hasService == LastIs32(xs, 439)
  }

  lemma ByMore(xs: seq<Avp>, a: Avp)
    ensures UsedBy(xs + [a]) == if a.code == 446 then UsedIn(UsedBy(xs), ForEachAvp(a.data, 2).avps) else UsedBy(xs)
    ensures GrantedBy(xs + [a]) == if a.code == 431 then Last64(ForEachAvp(a.data, 3).avps, 421, GrantedBy(xs)) else GrantedBy(xs)
  {
    assert (xs + [a])[..|xs|] == xs;
  }

  lemma BlockMore(m: Mscc, xs: seq<Avp>, a: Avp)
    requires BlockSays(m, xs)
    ensures BlockSays(MsccStep(m, a), xs + [a])
  {
    ByMore(xs, a);
    LastMore(xs, a, 432, 0);
    LastMore(xs, a, 439, 0);
    HasMore(xs, a, 446);
    HasMore(xs, a, 431);
    AsNumber(a);
    UsedMeans(m, a, UsedBy(xs));
    GrantedFold(m.(hasGranted := true), ForEachAvp(a.data, 3).avps);
    hide Used, UsedIn, UsedBy, GrantedBy, Last32, Last64, LastIs32, Has, ForEachAvp, AsU32, Number, Fold;
  }

  lemma {:induction false} BlockFold(xs: seq<Avp>)
    ensures BlockSays(Fold(MsccStep, NoMscc, xs), xs)
    decreases |xs|
  {
    hide BlockSays, MsccStep;
    if xs == [] {
      NoBlock();
    } else {
      var n := |xs| - 1;
      BlockFold(xs[..n]);
      assert xs == xs[..n] + [xs[n]];
      FoldSnoc(MsccStep, NoMscc, xs[..n], xs[n]);
      BlockMore(Fold(MsccStep, NoMscc, xs[..n]), xs[..n], xs[n]);
    }
  }

  lemma NoBlock()
    ensures BlockSays(NoMscc, [])
  {
    LastNone(432, 0);
    LastNone(439, 0);
    LastNone(446, 0);
    LastNone(431, 0);
  }

  /** A service block is extracted as it says. */
  lemma BlockMeans(a: Avp)
    ensures BlockSays(MsccOf(a), ForEachAvp(a.data, 1).avps)
  {
    hide Fold, BlockSays, ForEachAvp;
    BlockFold(ForEachAvp(a.data, 1).avps);
  }

  // ---------------------------------------------------------------------------
  // The subscriber
  // ---------------------------------------------------------------------------

  datatype Subscriber = Subscriber(imsi: nat, has: bool, msisdn: seq<u8>)

  /** One Subscription-Id with AVPs `xs`: of type 1 its data is an IMSI, which counts if it is 1 to 19 digits; of
      type 0 it is an MSISDN. */
  ghost function SubscriberIn(s: Subscriber, xs: seq<Avp>): Subscriber {
    var kind, data := Last32(xs, 450, 0xFFFF_FFFF), LastData(xs, 444);
    if kind == 1 then
      if 1 <= |data| <= 19 && AllDigits(data) then Subscriber(Value(data), true, s.msisdn) else s.(has := false)
    else if kind == 0 then s.(msisdn := data)
    else s
  }

  ghost function SubscriberBy(xs: seq<Avp>): Subscriber {
    if xs == [] then Subscriber(0, false, [])
    else
      var s := SubscriberBy(xs[..|xs| - 1]);
      if xs[|xs| - 1].code == 443 then SubscriberIn(s, ForEachAvp(xs[|xs| - 1].data, 1).avps) else s
  }

  lemma {:induction false} SubscriptionFold(xs: seq<Avp>)
    ensures Fold(SubscriptionStep, Subscription(0xFFFF_FFFF, []), xs)
            == Subscription(Fold(SubscriptionStep, Subscription(0xFFFF_FFFF, []), xs).kind, LastData(xs, 444))
    ensures Fold(SubscriptionStep, Subscription(0xFFFF_FFFF, []), xs).kind == Last32(xs, 450, 0xFFFF_FFFF)
    decreases |xs|
  {
    var s0 := Subscription(0xFFFF_FFFF, []);
    if xs == [] {
      LastNone(444, 0);
    } else {
      var n := |xs| - 1;
      SubscriptionFold(xs[..n]);
      assert xs == xs[..n] + [xs[n]];
      FoldSnoc(SubscriptionStep, s0, xs[..n], xs[n]);
      LastMore(xs[..n], xs[n], 450, 0xFFFF_FFFF);
      LastMore(xs[..n], xs[n], 444, 0);
      AsNumber(xs[n]);
      hide Fold, AsU32, Last32, LastData, Number;
    }
  }

  ghost predicate SubscriberIs(m: Message, s: Subscriber) {
    m.imsi == s.imsi && m.hasImsi == s.has && m.msisdn == s.msisdn
  }

  lemma SubscriptionMeans(m: Message, a: Avp, s: Subscriber)
    requires SubscriberIs(m, s)
    ensures var r := WithSubscription(m, SubscriptionOf(a));
            && SubscriberIs(r, SubscriberIn(s, ForEachAvp(a.data, 1).avps))
            && r == m.(imsi := r.imsi, hasImsi := r.hasImsi, msisdn := r.msisdn)
  {
    hide Fold, Last32, LastData, ForEachAvp, Value, AllDigits;
    SubscriptionFold(ForEachAvp(a.data, 1).avps);
  }

  // ---------------------------------------------------------------------------
  // The message
  // ---------------------------------------------------------------------------

  /** What a message with AVPs `xs` says, its service blocks aside. */
  ghost predicate MessageSays(m: Message, xs: seq<Avp>) {
    NamesSay(m, xs) && NumbersSay(m, xs) && SubscriberIs(m, SubscriberBy(xs))
  }

  ghost predicate NamesSay(m: Message, xs: seq<Avp>) {
    m.sessionId == LastData(xs, 263) && m.originHost == LastData(xs, 264) && m.originRealm == LastData(xs, 296)
  }

  ghost predicate NumbersSay(m: Message, xs: seq<Avp>) {
    && m.requestType == Last32(xs, 416, 0) && m.requestNumber == Last32(xs, 415, 0)
    && m.resultCode == Last32(xs, 268, 0) && m.hasResultCode == LastIs32(xs, 268)
  }

  lemma SubscriberMore(xs: seq<Avp>, a: Avp)
    ensures SubscriberBy(xs + [a])
            == if a.code == 443 then SubscriberIn(SubscriberBy(xs), ForEachAvp(a.data, 1).avps) else SubscriberBy(xs)
  {
    assert (xs + [a])[..|xs|] == xs;
  }

  lemma Touches(m: Message, s: Subscription)
    ensures var r := WithSubscription(m, s);
            r == m.(imsi := r.imsi, hasImsi := r.hasImsi, msisdn := r.msisdn)
  {
    hide Packed;
  }

  lemma StepNames(m: Message, a: Avp)
    ensures var r := MessageStep(m, a);
            && r.sessionId == (if a.code == 263 then a.data else m.sessionId)
            && r.originHost == (if a.code == 264 then a.data else m.originHost)
            && r.originRealm == (if a.code == 296 then a.data else m.originRealm)
            && r.isRequest == m.isRequest
  {
    hide AsU32, SubscriptionOf, WithSubscription, MsccOf;
    Touches(m, SubscriptionOf(a));
  }

  lemma StepNumbers(m: Message, a: Avp)
    ensures var r := MessageStep(m, a);
            && r.requestType == (if a.code == 416 then Or(AsU32(a), m.requestType) else m.requestType)
            && r.requestNumber == (if a.code == 415 then Or(AsU32(a), m.requestNumber) else m.requestNumber)
            && r.resultCode == (if a.code == 268 then Or(AsU32(a), m.resultCode) else m.resultCode)
            && r.hasResultCode == (if a.code == 268 then AsU32(a).Some? else m.hasResultCode)
  {
    hide AsU32, SubscriptionOf, WithSubscription, MsccOf;
    Touches(m, SubscriptionOf(a));
  }

  lemma StepSubscriber(m: Message, a: Avp)
    ensures var r := MessageStep(m, a);
            if a.code == 443 then r == WithSubscription(m, SubscriptionOf(a))
            else r.imsi == m.imsi && r.hasImsi == m.hasImsi && r.msisdn == m.msisdn
  {
    hide AsU32, WithSubscription, SubscriptionOf, MsccOf, Or;
  }

  lemma NamesMore(m: Message, xs: seq<Avp>, a: Avp)
    requires NamesSay(m, xs)
    ensures NamesSay(MessageStep(m, a), xs + [a]) && MessageStep(m, a).isRequest == m.isRequest
  {
    hide MessageStep, LastData;
    StepNames(m, a);
    LastMore(xs, a, 263, 0);
    LastMore(xs, a, 264, 0);
    LastMore(xs, a, 296, 0);
  }

  lemma NumbersMore(m: Message, xs: seq<Avp>, a: Avp)
    requires NumbersSay(m, xs)
    ensures NumbersSay(MessageStep(m, a), xs + [a])
  {
    hide MessageStep, Last32, LastIs32, AsU32, Number;
    StepNumbers(m, a);
    LastMore(xs, a, 416, 0);
    LastMore(xs, a, 415, 0);
    LastMore(xs, a, 268, 0);
    AsNumber(a);
  }

  lemma MessageMore(m: Message, xs: seq<Avp>, a: Avp)
    requires MessageSays(m, xs)
    ensures MessageSays(MessageStep(m, a), xs + [a]) && MessageStep(m, a).isRequest == m.isRequest
  {
    hide NamesSay, NumbersSay, SubscriberBy, SubscriberIn, ForEachAvp, MessageStep, WithSubscription, SubscriptionOf;
    NamesMore(m, xs, a);
    NumbersMore(m, xs, a);
    StepSubscriber(m, a);
    SubscriberMore(xs, a);
    SubscriptionMeans(m, a, SubscriberBy(xs));
  }

  lemma {:induction false} MessageFold(isRequest: bool, xs: seq<Avp>)
    ensures MessageSays(Fold(MessageStep, Blank(isRequest), xs), xs)
    ensures Fold(MessageStep, Blank(isRequest), xs).isRequest == isRequest
    decreases |xs|
  {
    hide MessageSays, MessageStep;
    if xs == [] {
      NoMessage(isRequest);
    } else {
      var n := |xs| - 1;
      MessageFold(isRequest, xs[..n]);
      assert xs == xs[..n] + [xs[n]];
      FoldSnoc(MessageStep, Blank(isRequest), xs[..n], xs[n]);
      MessageMore(Fold(MessageStep, Blank(isRequest), xs[..n]), xs[..n], xs[n]);
    }
  }

  lemma NoMessage(isRequest: bool)
    ensures MessageSays(Blank(isRequest), [])
  {
    LastNone(263, 0);
    LastNone(264, 0);
    LastNone(296, 0);
    LastNone(416, 0);
    LastNone(415, 0);
    LastNone(268, 0);
  }

  /** The AVPs of the message, and of its service block number `i`. */
  ghost function TopAvps(h: Header): seq<Avp> {
    ForEachAvp(h.avps, 0).avps
  }

  ghost function BlockAvps(h: Header, i: nat): seq<Avp>
    requires i < |Blocks(TopAvps(h))|
  {
    ForEachAvp(Blocks(TopAvps(h))[i].data, 1).avps
  }

  /** Extraction gives what the message says: its fields, and its first eight service blocks each as it says. */
  lemma MessageMeans(h: Header)
    ensures var m := Extract(h).m;
            && MessageSays(m, TopAvps(h)) && m.isRequest == (h.flags / 128 % 2 == 1)
            && |m.mscc| == (if |Blocks(TopAvps(h))| < 8 then |Blocks(TopAvps(h))| else 8)
            && m.msccOverflow == (|Blocks(TopAvps(h))| > 8)
            && forall i :: 0 <= i < |m.mscc| ==> BlockSays(m.mscc[i], BlockAvps(h, i))
  {
    hide Fold, ForEachAvp, MessageSays, BlockSays, Blocks;
    var xs := TopAvps(h);
    MessageFold(h.flags >= 0x80, xs);
    FirstEightKept(h.flags >= 0x80, xs);
    var m := Extract(h).m;
    forall i | 0 <= i < |m.mscc|
      ensures BlockSays(m.mscc[i], BlockAvps(h, i))
    {
      BlockMeans(Blocks(xs)[i]);
    }
  }

  // ---------------------------------------------------------------------------
  // Events
  // ---------------------------------------------------------------------------

  /** The event of a message from which `m` was extracted, for octets `u`, grant `g` and rating group `rg`. */
  ghost predicate EventSays(ev: Event, m: Message, ts: u64, u: Octets, g: nat, rg: nat, hasUsed: bool, hasGranted: bool) {
    && ev.ts == ts && ev.imsi == m.imsi && ev.hasImsi == m.hasImsi && ev.isRequest == m.isRequest
    && ev.requestType == m.requestType && ev.requestNumber == m.requestNumber && ev.resultCode == m.resultCode
    && ev.usedInput == u.input && ev.usedOutput == u.output && ev.usedTotal == u.total && ev.hasUsed == hasUsed
    && ev.granted == g && ev.hasGranted == hasGranted && ev.ratingGroup == rg
  }

  /** A message gives one event for each of its first eight service blocks, with what that block says; without
      any it gives one event with no usage. */
  lemma EventsMean(h: Header, ts: u64)
    ensures var m, evs := Extract(h).m, EventsOf(Extract(h).m, ts);
            var n := |Blocks(TopAvps(h))|;
            && |evs| == (if n == 0 then 1 else if n < 8 then n else 8)
            && (n == 0 ==> EventSays(evs[0], m, ts, Octets(0, 0, 0), 0, 0, false, false))
            && (n > 0 ==> forall i :: 0 <= i < |evs| ==>
                  var xs := BlockAvps(h, i);
                  EventSays(evs[i], m, ts, UsedBy(xs), GrantedBy(xs), Last32(xs, 432, 0), Has(xs, 446), Has(xs, 431)))
  {
    MessageMeans(h);
    hide Extract, Blocks, UsedBy, GrantedBy, Last32, LastIs32, Has, MessageSays, TopAvps;
    var m, evs := Extract(h).m, EventsOf(Extract(h).m, ts);
    if |Blocks(TopAvps(h))| > 0 {
      forall i | 0 <= i < |evs|
        ensures var xs := BlockAvps(h, i);
                EventSays(evs[i], m, ts, UsedBy(xs), GrantedBy(xs), Last32(xs, 432, 0), Has(xs, 446), Has(xs, 431))
      {
        assert BlockSays(m.mscc[i], BlockAvps(h, i));
      }
    }
  }

  // ---------------------------------------------------------------------------
  // Buffers
  // ---------------------------------------------------------------------------

  /** The header of a message stands at `p` (section 3 of RFC 6733): version 1, a length that is a multiple of
      four, counts the twenty header bytes, is at most 2^20 and does not run out of the buffer. */
  ghost predicate HeaderAt(buf: seq<u8>, p: nat) {
    && p + 20 <= |buf| && buf[p] == 1
    && 20 <= Number(buf[p + 1..p + 4]) <= 0x10_0000 && Number(buf[p + 1..p + 4]) % 4 == 0
    && p + Number(buf[p + 1..p + 4]) <= |buf|
  }

  /** Its fields. */
  ghost predicate HeaderSays(buf: seq<u8>, h: Header)
    requires HeaderAt(buf, 0)
  {
    && h.msgLength == Number(buf[1..4]) && h.flags == buf[4] && h.command == Number(buf[5..8])
    && h.app == Number(buf[8..12]) && h.hopByHop == Number(buf[12..16]) && h.endToEnd == Number(buf[16..20])
    && h.avps == buf[20..Number(buf[1..4])]
  }

  /** A header is accepted exactly when one stands there, with the fields at their places; otherwise the first
      check that fails names the reason. */
  lemma HeaderExact(buf: seq<u8>)
    ensures ParseHeader(buf).Good? <==> HeaderAt(buf, 0)
    ensures HeaderAt(buf, 0) ==> HeaderSays(buf, ParseHeader(buf).h)
    ensures !HeaderAt(buf, 0) ==>
              ParseHeader(buf) == Bad(if |buf| < 20 then Truncated
                                      else if buf[0] != 1 then BadVersion
                                      else if !(20 <= Number(buf[1..4]) <= 0x10_0000) || Number(buf[1..4]) % 4 != 0 then BadLength
                                      else Truncated)
  {
    if |buf| >= 20 {
      LoadIsNumber(buf, 1);
      LoadIsNumber(buf, 5);
      LoadIsNumber(buf, 8);
      LoadIsNumber(buf, 12);
      LoadIsNumber(buf, 16);
    }
    hide Number, Load24, Load32;
  }

  /** A message that can be taken stands at the front of `buf`: a header, and behind it whole AVPs if it is a
      credit-control message (command 272). */
  ghost predicate MessageFront(buf: seq<u8>) {
    HeaderAt(buf, 0) && (Number(buf[5..8]) == 272 ==> ForEachAvp(buf[20..Number(buf[1..4])], 0).status == Okay)
  }

  lemma MessageIff(buf: seq<u8>)
    ensures ParseMessage(buf).Parsed? <==> MessageFront(buf)
    ensures ParseMessage(buf).Parsed? ==>
              && ParseMessage(buf).h == ParseHeader(buf).h && HeaderSays(buf, ParseHeader(buf).h)
              && (Number(buf[5..8]) == 272 ==> ParseMessage(buf).m == Extract(ParseHeader(buf).h).m)
  {
    HeaderExact(buf);
    hide ParseHeader, Number, ForEachAvp, Fold;
  }

  /** The events of the message at the front: those of a credit-control message, none of any other. */
  ghost function FrontEvents(buf: seq<u8>, ts: u64): seq<Event>
    requires MessageFront(buf)
  {
    HeaderExact(buf);
    if Number(buf[5..8]) == 272 then EventsOf(Extract(ParseHeader(buf).h).m, ts) else []
  }

  /** Messages stand one after the other; `ps` holds where each starts and where the last ends. */
  ghost predicate Messages(buf: seq<u8>, ps: seq<nat>) {
    |ps| > 0 && ps[0] == 0 && forall i :: 0 <= i < |ps| - 1 ==> NextAt(buf, ps[i], ps[i + 1])
  }

  ghost predicate NextAt(buf: seq<u8>, p: nat, q: nat) {
    p <= |buf| && MessageFront(buf[p..]) && q == p + Number(buf[p..][1..4]) && q <= |buf|
  }

  ghost function AllEvents(buf: seq<u8>, ps: seq<nat>, ts: u64): seq<Event>
    requires Messages(buf, ps)
    decreases |ps|
  {
    if |ps| == 1 then []
    else
      var n := |ps| - 2;
      assert NextAt(buf, ps[n], ps[n + 1]);
      Fewer(buf, ps);
      AllEvents(buf, ps[..n + 1], ts) + FrontEvents(buf[ps[n]..], ts)
  }

  lemma Fewer(buf: seq<u8>, ps: seq<nat>)
    requires Messages(buf, ps) && |ps| > 1
    ensures Messages(buf, ps[..|ps| - 1])
  {
    hide NextAt;
    var qs := ps[..|ps| - 1];
    forall i | 0 <= i < |qs| - 1
      ensures NextAt(buf, qs[i], qs[i + 1])
    {
      assert NextAt(buf, ps[i], ps[i + 1]);
    }
  }

  lemma More(buf: seq<u8>, ps: seq<nat>, q: nat)
    requires Messages(buf, ps) && NextAt(buf, ps[|ps| - 1], q)
    ensures Messages(buf, ps + [q])
  {
    hide NextAt;
    var qs := ps + [q];
    forall i | 0 <= i < |qs| - 1
      ensures NextAt(buf, qs[i], qs[i + 1])
    {
      assert i < |ps| - 1 ==> NextAt(buf, ps[i], ps[i + 1]);
    }
  }

  /** The scan has come to the end of `ps`. */
  ghost predicate ScannedTo(buf: seq<u8>, ps: seq<nat>, ts: u64)
    requires Messages(buf, ps)
  {
    var p := ps[|ps| - 1];
    p <= |buf| &&
    var rest := ScanBuffer(buf[p..], ts);
    ScanBuffer(buf, ts) == Scan(AllEvents(buf, ps, ts) + rest.events, |ps| - 1 + rest.messages, rest.clean)
  }

  /** The scan of a buffer with a message at its front. */
  lemma ScanFront(buf: seq<u8>, ts: u64)
    requires MessageFront(buf)
    ensures var len := Number(buf[1..4]);
            && 20 <= len <= |buf|
            && var rest := ScanBuffer(buf[len..], ts);
               ScanBuffer(buf, ts) == Scan(FrontEvents(buf, ts) + rest.events, 1 + rest.messages, rest.clean)
  {
    MessageIff(buf);
    hide ParseMessage, Number, EventsOf, Extract, ParseHeader, ForEachAvp;
  }

  lemma ScanOn(buf: seq<u8>, ps: seq<nat>, ts: u64) returns (q: nat)
    requires Messages(buf, ps) && ScannedTo(buf, ps, ts) && MessageFront(buf[ps[|ps| - 1]..])
    ensures ps[|ps| - 1] < q <= |buf| && Messages(buf, ps + [q]) && ScannedTo(buf, ps + [q], ts)
  {
    hide MessageFront, Number, FrontEvents, ScanBuffer;
    var p := ps[|ps| - 1];
    var here := buf[p..];
    ScanFront(here, ts);
    q := p + Number(here[1..4]);
    More(buf, ps, q);
    assert here[Number(here[1..4])..] == buf[q..];
    EventsOfMore(buf, ps, q, ts);
    hide Messages, AllEvents;
    var rest := ScanBuffer(buf[q..], ts);
    assert AllEvents(buf, ps, ts) + (FrontEvents(here, ts) + rest.events) == AllEvents(buf, ps + [q], ts) + rest.events;
  }

  lemma EventsOfMore(buf: seq<u8>, ps: seq<nat>, q: nat, ts: u64)
    requires Messages(buf, ps) && Messages(buf, ps + [q]) && ps[|ps| - 1] <= |buf| && MessageFront(buf[ps[|ps| - 1]..])
    ensures AllEvents(buf, ps + [q], ts) == AllEvents(buf, ps, ts) + FrontEvents(buf[ps[|ps| - 1]..], ts)
  {
    hide MessageFront, NextAt, FrontEvents;
    assert (ps + [q])[..|ps|] == ps;
  }

  lemma {:induction false} ScanFollows(buf: seq<u8>, ps: seq<nat>, ts: u64) returns (qs: seq<nat>)
    requires Messages(buf, ps) && ScannedTo(buf, ps, ts)
    ensures Messages(buf, qs) && ScannedTo(buf, qs, ts) && !MessageFront(buf[qs[|qs| - 1]..])
    decreases |buf| - ps[|ps| - 1]
  {
    hide ScannedTo, MessageFront, Messages;
    PositionIn(buf, ps, ts);
    if MessageFront(buf[ps[|ps| - 1]..]) {
      var q := ScanOn(buf, ps, ts);
      NotEmpty(buf, ps + [q]);
      qs := ScanFollows(buf, ps + [q], ts);
    } else {
      qs := ps;
    }
  }

  lemma PositionIn(buf: seq<u8>, ps: seq<nat>, ts: u64)
    requires Messages(buf, ps) && ScannedTo(buf, ps, ts)
    ensures |ps| > 0 && ps[|ps| - 1] <= |buf|
  {
  }

  lemma NotEmpty(buf: seq<u8>, ps: seq<nat>)
    requires Messages(buf, ps)
    ensures |ps| > 0
  {
  }

  /** The scan of a buffer, exactly: it takes the messages that stand there one after the other, with the events of
      each, up to the first place where none does; it is clean exactly if less than a header is left there. */
  lemma ScanExact(buf: seq<u8>, ts: u64) returns (ps: seq<nat>)
    ensures Messages(buf, ps) && ps[|ps| - 1] <= |buf| && !MessageFront(buf[ps[|ps| - 1]..])
    ensures ScanBuffer(buf, ts) == Scan(AllEvents(buf, ps, ts), |ps| - 1, |buf| - ps[|ps| - 1] < 20)
  {
    assert buf[0..] == buf;
    ps := ScanFollows(buf, [0], ts);
    var rest := buf[ps[|ps| - 1]..];
    MessageIff(rest);
    hide ParseMessage, MessageFront;
    assert AllEvents(buf, ps, ts) + [] == AllEvents(buf, ps, ts);
  }
}
