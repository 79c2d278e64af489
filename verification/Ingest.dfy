/** The ingest stage: GTP-U packets become metering events, Diameter buffers become charging events,
    and each event is pushed onto a ring or counted as dropped. */
module IngestStage {
  import opened Words
  import Gtpu
  import Gy
  import Meter

  const GPDU: u8 := 255

  datatype Outcome = Metered | GyControl | GtpuControl | NotOurTraffic | ParseError | Dropped

  /** What the inner-packet parser reports. */
  datatype Inner = Inner(valid: bool, totalLen: u32, key: u64)

  /** The event of a packet of type `msgType` for tunnel `teid` with QoS information `qos` and `size` payload bytes. */
  function PacketEvent(msgType: u8, teid: u32, qos: Gtpu.Qos, size: nat, inner: Inner, innerLength: bool, ts: u64)
    : Meter.MeterEvent
  {
    Meter.MeterEvent(
      ts, if msgType == GPDU && inner.valid then inner.key else 0, teid,
      if msgType != GPDU then 0 else if inner.valid && innerLength then inner.totalLen else size % 0x1_0000_0000,
      if qos.has then qos.qfi else 0, qos.has, msgType != GPDU,
      if !qos.has then Meter.Unknown else if qos.pduType == 1 then Meter.Uplink else Meter.Downlink)
  }

  /** The metering event of one parsed packet. */
  function EventFor(h: Gtpu.Header, inner: Inner, innerLength: bool, ts: u64): Meter.MeterEvent {
    PacketEvent(h.msgType, h.teid, h.qos, |h.payload|, inner, innerLength, ts)
  }

  /** The offers a ring takes, when its `n`-th offer finds room exactly if `room(n)`. */
  function Taken<T>(offers: seq<T>, room: nat -> bool): (r: seq<T>)
    ensures |r| <= |offers|
  {
    if offers == [] then []
    else
      var n := |offers| - 1;
      Taken(offers[..n], room) + if room(n) then [offers[n]] else []
  }

  lemma TakenMore<T>(offers: seq<T>, x: T, room: nat -> bool)
    ensures Taken(offers + [x], room) == Taken(offers, room) + if room(|offers|) then [x] else []
  {
    assert (offers + [x])[..|offers|] == offers;
  }

  /** A ring with room for each of some further offers takes them all, in order. */
  lemma {:induction false} TakenAll<T>(before: seq<T>, more: seq<T>, room: nat -> bool)
    requires forall n: nat :: |before| <= n < |before| + |more| ==> room(n)
    ensures Taken(before + more, room) == Taken(before, room) + more
    decreases |more|
  {
    if more == [] {
      assert before + more == before && Taken(before, room) + more == Taken(before, room);
    } else {
      var n := |more| - 1;
      TakenAll(before, more[..n], room);
      assert before + more == (before + more[..n]) + [more[n]];
      TakenMore(before + more[..n], more[n], room);
      assert more == more[..n] + [more[n]];
    }
  }

  class Ingest {
    const innerLength: bool
    const parseIp: seq<u8> -> Inner
    const meterRoom: nat -> bool
    const gyRoom: nat -> bool

    var gpdus: nat
    var control: nat
    var parseErrors: nat
    var truncated: nat
    var innerErrors: nat
    var pushed: nat
    var dropped: nat
    var messages: nat
    var diameterErrors: nat
    var gyEvents: nat
    var gyDropped: nat

    // Everything the rings have taken.
    var meterRing: seq<Meter.MeterEvent>
    var gyRing: seq<Gy.Event>

    // Everything offered to the rings.
    ghost var offered: seq<Meter.MeterEvent>
    ghost var gyOffered: seq<Gy.Event>

    /** Each metered or control packet was offered once and either taken or counted as dropped;
        so was each charging event. */
    ghost predicate Valid()
      reads this
    {
      |offered| == gpdus + control && MeterSide() && GySide()
    }

    ghost predicate MeterSide()
      reads `pushed, `dropped, `meterRing, `offered
    {
      |offered| == pushed + dropped && meterRing == Taken(offered, meterRoom) && |meterRing| == pushed
    }

    ghost predicate GySide()
      reads `gyEvents, `gyDropped, `gyRing, `gyOffered
    {
      |gyOffered| == gyEvents && gyRing == Taken(gyOffered, gyRoom) && |gyRing| + gyDropped == gyEvents
    }

    constructor (innerLength: bool, parseIp: seq<u8> -> Inner, meterRoom: nat -> bool, gyRoom: nat -> bool)
      ensures Valid() && offered == [] && gyOffered == [] && parseErrors == messages == diameterErrors == 0
      ensures this.innerLength == innerLength && this.parseIp == parseIp
      ensures this.meterRoom == meterRoom && this.gyRoom == gyRoom
    {
      this.innerLength, this.parseIp, this.meterRoom, this.gyRoom := innerLength, parseIp, meterRoom, gyRoom;
      gpdus, control, parseErrors, truncated, innerErrors, pushed, dropped := 0, 0, 0, 0, 0, 0, 0;
      messages, diameterErrors, gyEvents, gyDropped := 0, 0, 0, 0;
      meterRing, gyRing, offered, gyOffered := [], [], [], [];
    }

    method PushEvent(ev: Meter.MeterEvent) returns (ok: bool)
      requires MeterSide()
      modifies `pushed, `dropped, `meterRing, `offered
      ensures MeterSide() && offered == old(offered) + [ev]
      ensures ok == meterRoom(old(|offered|))
    {
      hide Taken;
      TakenMore(offered, ev, meterRoom);
      ok := meterRoom(pushed + dropped);
      offered := offered + [ev];
      if ok {
        pushed := pushed + 1;
        meterRing := meterRing + [ev];
      } else {
        dropped := dropped + 1;
      }
    }

    method ProcessGtpu(pdu: seq<u8>, ts: u64) returns (r: Outcome)
      requires Valid()
      modifies `gpdus, `control, `parseErrors, `truncated, `innerErrors, `pushed, `dropped, `meterRing, `offered
      ensures Valid()
      ensures Gtpu.Parse(pdu).Err? ==> offered == old(offered) && r == ParseError && parseErrors == old(parseErrors) + 1
      ensures Gtpu.Parse(pdu).Ok? ==>
                var h := Gtpu.Parse(pdu).h;
                && offered == old(offered) + [EventFor(h, parseIp(h.payload), innerLength, ts)]
                && parseErrors == old(parseErrors)
                && r == (if !meterRoom(old(|offered|)) then Dropped else if h.msgType == GPDU then Metered else GtpuControl)
                && gpdus == old(gpdus) + (if h.msgType == GPDU then 1 else 0)
                && control == old(control) + (if h.msgType == GPDU then 0 else 1)
                && innerErrors == old(innerErrors) + (if h.msgType == GPDU && !parseIp(h.payload).valid then 1 else 0)
      ensures Gtpu.Parse(pdu).Err? ==>
                gpdus == old(gpdus) && control == old(control) && innerErrors == old(innerErrors)
      ensures truncated == old(truncated) + if Gtpu.Parse(pdu) == Gtpu.Err(Gtpu.Truncated) then 1 else 0
    {
      hide Gtpu.Parse, Taken, EventFor, GySide;
      var parsed := Gtpu.ParseGtpu(pdu);
      if parsed.Err? {
        parseErrors := parseErrors + 1;
        if parsed.status == Gtpu.Truncated {
          truncated := truncated + 1;
        }
        return ParseError;
      }
      var inner := parseIp(parsed.h.payload);
      var ev := MakeEvent(parsed.h, inner, innerLength, ts);
      var ok := PushEvent(ev);
      if parsed.h.msgType != GPDU {
        control := control + 1;
        return if ok then GtpuControl else Dropped;
      }
      gpdus := gpdus + 1;
      if !inner.valid {
        innerErrors := innerErrors + 1;
      }
      return if ok then Metered else Dropped;
    }

    method PushGy(ev: Gy.Event) returns (ok: bool)
      requires GySide()
      modifies `gyEvents, `gyDropped, `gyRing, `gyOffered
      ensures GySide() && gyOffered == old(gyOffered) + [ev]
      ensures ok == gyRoom(old(|gyOffered|)) && |gyRing| == old(|gyRing|) + if ok then 1 else 0
    {
      hide Taken;
      TakenMore(gyOffered, ev, gyRoom);
      ok := gyRoom(gyEvents);
      gyOffered := gyOffered + [ev];
      gyEvents := gyEvents + 1;
      if ok {
        gyRing := gyRing + [ev];
      } else {
        gyDropped := gyDropped + 1;
      }
    }

    /** Offers the events of one message; `any` says whether the ring took one. */
    method EmitGyEvents(m: Gy.Message, ts: u64) returns (any: bool)
      requires GySide()
      modifies `gyEvents, `gyDropped, `gyRing, `gyOffered
      ensures GySide() && gyOffered == old(gyOffered) + Gy.EventsOf(m, ts)
      ensures |gyRing| >= old(|gyRing|) && any == (|gyRing| > old(|gyRing|))
    {
      hide Gy.EventOf, GySide;
      any := false;
      ghost var all := Gy.EventsOf(m, ts);
      var blocks := if |m.mscc| == 0 then 1 else |m.mscc|;
      for i := 0 to blocks
        invariant GySide() && gyOffered == old(gyOffered) + all[..i]
        invariant |gyRing| >= old(|gyRing|) && any == (|gyRing| > old(|gyRing|))
      {
        var ev := Gy.EventOf(m, if |m.mscc| != 0 then m.mscc[i] else Gy.NoMscc, ts);
        assert all[..i + 1] == all[..i] + [ev];
        var ok := PushGy(ev);
        any := any || ok;
      }
      assert all[..blocks] == all;
    }

    method ProcessDiameter(payload: seq<u8>, ts: u64) returns (r: Outcome)
      requires Valid()
      modifies `messages, `diameterErrors, `gyEvents, `gyDropped, `gyRing, `gyOffered
      ensures Valid()
      ensures var scan := Gy.ScanBuffer(payload, ts);
              && gyOffered == old(gyOffered) + scan.events
              && messages == old(messages) + scan.messages
              && diameterErrors == old(diameterErrors) + (if scan.clean then 0 else 1)
              && r == if |gyRing| > old(|gyRing|) then GyControl else if scan.clean then NotOurTraffic else ParseError
    {
      hide Gy.ParseMessage, Gy.EventsOf, Gy.ScanBuffer, GySide, MeterSide;
      ScanEmpty(payload, ts);
      if payload == [] {
        return NotOurTraffic;
      }
      var offset: nat, produced := 0, false;
      ghost var scan := Gy.ScanBuffer(payload, ts);
      assert payload[0..] == payload;
      while offset + 20 <= |payload|
        invariant offset <= |payload| && GySide()
        invariant |gyRing| >= old(|gyRing|) && produced == (|gyRing| > old(|gyRing|))
        invariant diameterErrors == old(diameterErrors)
        invariant var rest := Gy.ScanBuffer(payload[offset..], ts);
                  && old(gyOffered) + scan.events == gyOffered + rest.events
                  && old(messages) + scan.messages == messages + rest.messages
                  && scan.clean == rest.clean
        decreases |payload| - offset
      {
        var here := payload[offset..];
        ScanNext(here, ts);
        var one := ParseDiameter(here);
        if one.Rejected? {
          diameterErrors := diameterErrors + 1;
          return if produced then GyControl else ParseError;
        }
        messages := messages + 1;
        assert here[one.h.msgLength..] == payload[offset + one.h.msgLength..];
        offset := offset + one.h.msgLength;
        if one.h.command == Gy.CREDIT_CONTROL {
          var any := EmitGyEvents(one.m, ts);
          produced := any || produced;
        }
      }
      ScanEmpty(payload[offset..], ts);
      return if produced then GyControl else NotOurTraffic;
    }
  }

  lemma ScanEmpty(buf: seq<u8>, ts: u64)
    ensures |buf| < Gy.HEADER_LEN ==> Gy.ScanBuffer(buf, ts) == Gy.Scan([], 0, true)
  {
  }

  lemma ScanNext(buf: seq<u8>, ts: u64)
    requires |buf| >= Gy.HEADER_LEN
    ensures var one := Gy.ParseMessage(buf);
            && (one.Rejected? ==> Gy.ScanBuffer(buf, ts) == Gy.Scan([], 0, false))
            && (one.Parsed? ==>
                  var rest := Gy.ScanBuffer(buf[one.h.msgLength..], ts);
                  var own := if one.h.command == Gy.CREDIT_CONTROL then Gy.EventsOf(one.m, ts) else [];
                  Gy.ScanBuffer(buf, ts) == Gy.Scan(own + rest.events, 1 + rest.messages, rest.clean))
  {
    hide Gy.ParseMessage, Gy.EventsOf;
  }

  method MakeEvent(h: Gtpu.Header, inner: Inner, innerLength: bool, ts: u64) returns (ev: Meter.MeterEvent)
    ensures ev == EventFor(h, inner, innerLength, ts)
  {
    ev := Meter.MeterEvent(ts, 0, h.teid, 0, 0, false, false, Meter.Unknown);
    if h.qos.has {
      ev := ev.(qfi := h.qos.qfi, hasQfi := true);
      ev := ev.(dir := if h.qos.pduType == 1 then Meter.Uplink else Meter.Downlink);
    }
    if h.msgType != GPDU {
      ev := ev.(control := true, bytes := 0);
    } else if inner.valid {
      ev := ev.(bytes := if innerLength then inner.totalLen else |h.payload| % 0x1_0000_0000, flowKey := inner.key);
    } else {
      ev := ev.(bytes := |h.payload| % 0x1_0000_0000);
    }
  }

  method ParseDiameter(buf: seq<u8>) returns (r: Gy.MessageResult)
    ensures r == Gy.ParseMessage(buf)
  {
    hide Gy.Extract;
    var header := Gy.ParseHeader(buf);
    if header.Bad? {
      return Gy.Rejected(header.status);
    }
    if header.h.command != Gy.CREDIT_CONTROL {
      return Gy.Parsed(header.h, Gy.Blank(false));
    }
    var e := Gy.ParseGy(header.h);
    return if e.status != Gy.Avps.Okay then Gy.Rejected(e.status) else Gy.Parsed(header.h, e.m);
  }

  // ---------------------------------------------------------------------------
  // From packets to events
  // ---------------------------------------------------------------------------

  /** Every packet that the builder can express and the parser accepts, of any type and with any chain,
      becomes the event of its own tunnel and type, with the QoS information of its live links and the size
      of what follows them. */
  lemma PacketToEvent(s: Gtpu.Spec, payload: seq<u8>, tail: seq<u8>, parseIp: seq<u8> -> Inner, innerLength: bool, ts: u64)
    requires Gtpu.Fits(Gtpu.ChainOf(s)) && |Gtpu.Body(s, payload)| <= 0xFFFF
    requires Gtpu.Live(Gtpu.ChainOf(s)) <= Gtpu.MAX_LINKS
    ensures Gtpu.Parse(Gtpu.Build(s, payload) + tail).Ok?
    ensures var h := Gtpu.Parse(Gtpu.Build(s, payload) + tail).h;
            var k := Gtpu.Live(Gtpu.ChainOf(s));
            var qos := Gtpu.QosOf(Gtpu.ChainOf(s)[..k], Gtpu.NoQos);
            && h.payload == Gtpu.EncodeChain(Gtpu.ChainOf(s)[k..]) + payload
            && EventFor(h, parseIp(h.payload), innerLength, ts)
               == PacketEvent(s.msgType, s.teid, qos, |h.payload|, parseIp(h.payload), innerLength, ts)
  {
    hide Gtpu.Parse, Gtpu.Build, Gtpu.Body, Gtpu.ChainOf, Gtpu.Fits, Gtpu.QosOf, Gtpu.EncodeChain, Gtpu.Live;
    Gtpu.RoundTrip(s, payload, tail);
  }

  /** Every field of the event of a parsed packet, for whatever header and inner packet. A message of type 255 is
      user traffic, charged with the length of its inner IP packet if that is configured and the packet is valid,
      and with its payload otherwise; every other type is a control message without bytes. */
  lemma EventSays(h: Gtpu.Header, inner: Inner, innerLength: bool, ts: u64)
    ensures var ev := EventFor(h, inner, innerLength, ts);
            && ev.ts == ts && ev.teid == h.teid && ev.control == (h.msgType != 255)
            && (h.msgType == 255 && innerLength && inner.valid ==> ev.bytes == inner.totalLen)
            && (h.msgType == 255 && !(innerLength && inner.valid) && |h.payload| < TWO32 ==> ev.bytes == |h.payload|)
            && (h.msgType != 255 ==> ev.bytes == 0)
            && ev.flowKey == (if h.msgType == 255 && inner.valid then inner.key else 0)
            && ev.hasQfi == h.qos.has && (h.qos.has ==> ev.qfi == h.qos.qfi)
            && (!h.qos.has ==> ev.dir == Meter.Unknown)
            && (h.qos.has && h.qos.pduType == 1 ==> ev.dir == Meter.Uplink)
            && (h.qos.has && h.qos.pduType != 1 ==> ev.dir == Meter.Downlink)
  {
  }

  /** Without an early end of the chain the payload is the one put in; the container asked for gives the
      flow identifier and direction, and without any container the direction is unknown. A G-PDU is charged with
      the length of its inner IP packet if that is configured and valid, else with its whole payload. */
  lemma PacketRecovered(s: Gtpu.Spec, payload: seq<u8>, tail: seq<u8>, parseIp: seq<u8> -> Inner, innerLength: bool, ts: u64)
    requires Gtpu.Fits(Gtpu.ChainOf(s)) && |Gtpu.Body(s, payload)| <= 0xFFFF
    requires |Gtpu.ChainOf(s)| <= Gtpu.MAX_LINKS && Gtpu.NoEarlyEnd(s.extra)
    ensures Gtpu.Parse(Gtpu.Build(s, payload) + tail).Ok?
    ensures var h := Gtpu.Parse(Gtpu.Build(s, payload) + tail).h;
            var ev := EventFor(h, parseIp(h.payload), innerLength, ts);
            && h.payload == payload && ev.ts == ts && ev.teid == s.teid && ev.control == (s.msgType != 255)
            && ev.bytes == (if ev.control then 0
                            else if innerLength && parseIp(payload).valid then parseIp(payload).totalLen
                            else |payload|)
            && ev.flowKey == (if !ev.control && parseIp(payload).valid then parseIp(payload).key else 0)
            && (s.withQfi ==> ev.hasQfi && ev.qfi == s.qfi % 0x40
                              && ev.dir == if s.pduType % 0x10 == 1 then Meter.Uplink else Meter.Downlink)
            && (!s.withQfi && Gtpu.NoContainer(s.extra) ==> !ev.hasQfi && ev.dir == Meter.Unknown)
  {
    hide Gtpu.Parse, Gtpu.Build, Gtpu.Body, Gtpu.ChainOf, Gtpu.Fits, Gtpu.NoEarlyEnd, Gtpu.QosOf, Gtpu.EncodeChain, Gtpu.NoContainer;
    Gtpu.RoundTrip(s, payload, tail);
    Gtpu.PayloadSurvivesIff(s, payload, tail);
    Gtpu.SizeOfBody(s, payload);
    if s.withQfi {
      Gtpu.QosRoundTrip(s, payload, tail);
    } else if Gtpu.NoContainer(s.extra) {
      Gtpu.NoQosRoundTrip(s, payload, tail);
    }
  }

  /** Whole requests, followed by less than a message header, all reach a ring that has room for them, in
      order and after whatever it had taken before. */
  lemma RequestsDelivered(before: seq<Gy.Event>, specs: seq<Gy.Spec>, tail: seq<u8>, ts: u64, room: nat -> bool)
    requires forall n: nat :: |before| <= n < |before| + |specs| ==> room(n)
    requires forall i :: 0 <= i < |specs| ==> |Gy.Request(specs[i])| <= Gy.MAX_MESSAGE
    requires |tail| < Gy.HEADER_LEN
    ensures var scan := Gy.ScanBuffer(Gy.Requests(specs) + tail, ts);
            && scan.clean && scan.messages == |specs|
            && Taken(before + scan.events, room) == Taken(before, room) + Gy.ReportedAll(specs, ts)
  {
    var all := Gy.ReportedAll(specs, ts);
    assert |all| == |specs|;
    hide Gy.ScanBuffer, Gy.Requests, Gy.ReportedAll, Taken;
    Gy.StreamRoundTrip(specs, tail, ts);
    ScanEmpty(tail, ts);
    assert all + [] == all;
    TakenAll(before, all, room);
  }
}
