/** GTP-U headers (sections 5.1 and 5.2 of 3GPP TS 29.281) with the PDU Session Container
    (section 5.5.2 of 3GPP TS 38.415): the parser, the builder, and the round trip. */
module Gtpu {
  import opened Words
  import opened Bytes

  const PDU_SESSION_CONTAINER: u8 := 0x85
  const MAX_LINKS: nat := 16

  datatype Status = Truncated | BadVersion | NotGtpU | BadLength | BadExtHeader | ExtChainTooLong

  /** QoS information carried by a PDU Session Container. */
  datatype Qos = Qos(has: bool, qfi: u8, pduType: u8, rqi: bool)

  const NoQos := Qos(false, 0, 0, false)

  datatype Header = Header(
    payload: seq<u8>, teid: u32, seqNo: u16, headerLen: nat, declaredLen: u16, msgType: u8, npdu: u8,
    qos: Qos, extCount: nat, hasSeq: bool, hasNpdu: bool, hasExt: bool)

  datatype Parsed = Ok(h: Header) | Err(status: Status)

  datatype Chain = Walked(consumed: nat, links: nat, qos: Qos) | Broken(status: Status)

  // ---------------------------------------------------------------------------
  // Parsing
  // ---------------------------------------------------------------------------

  /** What one extension header of type `kind` adds to the QoS information. */
  function Observe(kind: u8, content: seq<u8>, qos: Qos): Qos {
    if kind == PDU_SESSION_CONTAINER && |content| >= 2 then
      Qos(true, content[1] % 0x40, content[0] / 0x10, content[0] / 0x10 == 0 && content[1] / 0x40 % 2 == 1)
    else qos
  }

  /** The extension-header chain of `buf` from position `at`, where a header of type `next` starts. */
  function WalkChain(buf: seq<u8>, at: nat, next: u8, links: nat, qos: Qos): (r: Chain)
    requires links <= MAX_LINKS
    decreases MAX_LINKS - links
  {
    if next == 0 then Walked(at, links, qos)
    else if links == MAX_LINKS then Broken(ExtChainTooLong)
    else if at >= |buf| then Broken(Truncated)
    else if buf[at] == 0 then Broken(BadExtHeader)
    else
      var len := buf[at] as int * 4;
      if at + len > |buf| then Broken(Truncated)
      else WalkChain(buf, at + len, buf[at + len - 1], links + 1, Observe(next, buf[at + 1..at + len - 1], qos))
  }

  method ParseExtChain(buf: seq<u8>, first: u8) returns (r: Chain)
    ensures r == WalkChain(buf, 0, first, 0, NoQos)
  {
    hide Observe;
    var consumed, next, links, qos := 0, first, 0, NoQos;
    while next != 0
      invariant 0 <= links <= MAX_LINKS && 0 <= consumed
      invariant WalkChain(buf, 0, first, 0, NoQos) == WalkChain(buf, consumed, next, links, qos)
      decreases MAX_LINKS - links
    {
      if links + 1 > MAX_LINKS {
        return Broken(ExtChainTooLong);
      }
      if consumed >= |buf| {
        return Broken(Truncated);
      }
      var units := buf[consumed];
      if units == 0 {
        return Broken(BadExtHeader);
      }
      var extLen := units as int * 4;
      if consumed + extLen > |buf| {
        return Broken(Truncated);
      }
      var content := buf[consumed + 1..consumed + extLen - 1];
      qos := Observe(next, content, qos);
      next := buf[consumed + extLen - 1];
      consumed := consumed + extLen;
      links := links + 1;
    }
    return Walked(consumed, links, qos);
  }

  function Version(flags: u8): u8 {
    flags / 0x20
  }

  predicate ProtocolType(flags: u8) {
    flags / 0x10 % 2 == 1
  }

  predicate ExtFlag(flags: u8) {
    flags / 4 % 2 == 1
  }

  predicate SeqFlag(flags: u8) {
    flags / 2 % 2 == 1
  }

  predicate NpduFlag(flags: u8) {
    flags % 2 == 1
  }

  function Finish(frame: seq<u8>, h: Header, offset: nat): Parsed
    requires |frame| >= 8 + h.declaredLen
  {
    if h.declaredLen < offset - 8 || offset < 8 then Err(BadLength)
    else Ok(h.(headerLen := offset % 0x1_0000, payload := frame[offset..8 + h.declaredLen]))
  }

  function Parse(frame: seq<u8>): Parsed {
    if |frame| < 8 then Err(Truncated)
    else if Version(frame[0]) != 1 then Err(BadVersion)
    else if !ProtocolType(frame[0]) then Err(NotGtpU)
    else
      var declared := Load16(frame, 2);
      var h := Header([], Load32(frame, 4), 0, 0, declared, frame[1], 0, NoQos, 0, false, false, false);
      if |frame| - 8 < declared then Err(Truncated)
      else if !ExtFlag(frame[0]) && !SeqFlag(frame[0]) && !NpduFlag(frame[0]) then Finish(frame, h, 8)
      else if declared < 4 then Err(BadLength)
      else
        var h' := h.(seqNo := Load16(frame, 8), npdu := frame[10], hasSeq := SeqFlag(frame[0]), hasNpdu := NpduFlag(frame[0]));
        if !ExtFlag(frame[0]) || frame[11] == 0 then Finish(frame, h', 12)
        else
          match WalkChain(frame[12..8 + declared], 0, frame[11], 0, NoQos)
          case Broken(st) => Err(st)
          case Walked(n, links, qos) => Finish(frame, h'.(hasExt := true, extCount := links, qos := qos), 12 + n)
  }

  method ParseGtpu(frame: seq<u8>) returns (r: Parsed)
    ensures r == Parse(frame)
  {
    hide Version, ProtocolType, ExtFlag, SeqFlag, NpduFlag, Load16, Load32, WalkChain;
    if |frame| < 8 {
      return Err(Truncated);
    }
    var flags := frame[0];
    if Version(flags) != 1 {
      return Err(BadVersion);
    }
    if !ProtocolType(flags) {
      return Err(NotGtpU);
    }
    var eBit, sBit, pnBit := ExtFlag(flags), SeqFlag(flags), NpduFlag(flags);
    var declared := Load16(frame, 2);
    var h := Header([], Load32(frame, 4), 0, 0, declared, frame[1], 0, NoQos, 0, false, false, false);
    if |frame| - 8 < declared {
      return Err(Truncated);
    }
    var offset, optionalAndExt := 8, 0;
    if eBit || sBit || pnBit {
      if declared < 4 {
        return Err(BadLength);
      }
      h := h.(seqNo := Load16(frame, offset), npdu := frame[offset + 2], hasSeq := sBit, hasNpdu := pnBit);
      var firstExt := frame[offset + 3];
      offset, optionalAndExt := offset + 4, 4;
      if eBit && firstExt != 0 {
        var chain := ParseExtChain(frame[offset..offset + declared - 4], firstExt);
        if chain.Broken? {
          return Err(chain.status);
        }
        h := h.(hasExt := true, extCount := chain.links, qos := chain.qos);
        offset, optionalAndExt := offset + chain.consumed, optionalAndExt + chain.consumed;
      }
    }
    if declared < optionalAndExt {
      return Err(BadLength);
    }
    return Ok(h.(headerLen := offset % 0x1_0000, payload := frame[offset..offset + (declared - optionalAndExt)]));
  }

  // ---------------------------------------------------------------------------
  // Every successful parse
  // ---------------------------------------------------------------------------

  lemma {:induction false} ChainBounds(buf: seq<u8>, at: nat, next: u8, links: nat, qos: Qos)
    requires links <= MAX_LINKS && at <= |buf|
    ensures var r := WalkChain(buf, at, next, links, qos);
            r.Walked? ==> at <= r.consumed <= |buf| && links <= r.links <= MAX_LINKS && r.consumed <= at + 1020 * (r.links - links)
    decreases MAX_LINKS - links
  {
    if next != 0 && links < MAX_LINKS && at < |buf| && buf[at] != 0 {
      var len := buf[at] as int * 4;
      if at + len <= |buf| {
        ChainBounds(buf, at + len, buf[at + len - 1], links + 1, Observe(next, buf[at + 1..at + len - 1], qos));
      }
    }
  }

  /** A successful parse splits the declared bytes into header and payload, and the header length
      always fits its 16-bit field. */
  lemma ParseSplitsFrame(frame: seq<u8>)
    ensures Parse(frame).Ok? ==>
              var h := Parse(frame).h;
              && h.headerLen + |h.payload| == 8 + h.declaredLen
              && 8 <= h.headerLen <= 16332
              && 8 + h.declaredLen <= |frame|
              && h.payload == frame[h.headerLen..8 + h.declaredLen]
  {
    hide Version, ProtocolType, ExtFlag, SeqFlag, NpduFlag, Load16, Load32, WalkChain;
    if |frame| >= 8 {
      var declared := Load16(frame, 2);
      if |frame| - 8 >= declared >= 4 {
        ChainBounds(frame[12..8 + declared], 0, frame[11], 0, NoQos);
      }
    }
  }

  // ---------------------------------------------------------------------------
  // Building
  // ---------------------------------------------------------------------------

  /** One extension header: its type and its content, before padding. */
  datatype Ext = Ext(kind: u8, content: seq<u8>)

  datatype Spec = Spec(
    teid: u32, msgType: u8, withSeq: bool, seqNo: u16, withNpdu: bool, npdu: u8,
    withQfi: bool, qfi: u8, pduType: u8, rqi: bool, extra: seq<Ext>)

  function PadLen(n: nat): (k: nat)
    ensures k < 4 && (n + k + 2) % 4 == 0
  {
    (4 - (n + 2) % 4) % 4
  }

  /** After `k` bytes of padding either none or some are missing. */
  lemma PadMore(n: nat, k: nat)
    requires k <= PadLen(n)
    ensures (n + k + 2) % 4 == 0 <==> k == PadLen(n)
  {
  }

  /** Content padded so that the header, with its length and next-type bytes, is a multiple of four bytes. */
  function Padded(content: seq<u8>): (r: seq<u8>)
    ensures |content| <= |r| <= |content| + 3 && |r| >= 2 && (|r| + 2) % 4 == 0 && r[..|content|] == content
  {
    content + Zeros(PadLen(|content|))
  }

  function Head(chain: seq<Ext>): u8 {
    if chain == [] then 0 else chain[0].kind
  }

  function Link(e: Ext, next: u8): (r: seq<u8>)
    ensures |r| == |Padded(e.content)| + 2
  {
    [(|Padded(e.content)| + 2) / 4 % 0x100] + Padded(e.content) + [next]
  }

  function EncodeChain(chain: seq<Ext>): seq<u8> {
    if chain == [] then [] else Link(chain[0], Head(chain[1..])) + EncodeChain(chain[1..])
  }

  function SessionContainer(s: Spec): Ext {
    Ext(PDU_SESSION_CONTAINER, [s.pduType as int * 0x10 % 0x100, (if s.rqi then 0x40 else 0) + s.qfi % 0x40])
  }

  function ChainOf(s: Spec): seq<Ext> {
    s.extra + if s.withQfi then [SessionContainer(s)] else []
  }

  function Flags(ext: bool, sequence: bool, npdu: bool): u8 {
    0x30 + (if ext then 4 else 0) + (if sequence then 2 else 0) + (if npdu then 1 else 0)
  }

  predicate HasOptional(s: Spec) {
    s.withSeq || s.withNpdu || ChainOf(s) != []
  }

  /** The bytes counted by the length field. */
  function Body(s: Spec, payload: seq<u8>): seq<u8> {
    if HasOptional(s) then
      Be16(s.seqNo) + [s.npdu] + [Head(ChainOf(s))] + EncodeChain(ChainOf(s)) + payload
    else payload
  }

  function Build(s: Spec, payload: seq<u8>): seq<u8> {
    [Flags(ChainOf(s) != [], s.withSeq, s.withNpdu)] + [s.msgType]
    + Be16(|Body(s, payload)| % 0x1_0000) + Be32(s.teid) + Body(s, payload)
  }

  lemma {:induction false} EncodeFrom(chain: seq<Ext>, k: nat)
    requires k < |chain|
    ensures EncodeChain(chain[k..]) == Link(chain[k], Head(chain[k + 1..])) + EncodeChain(chain[k + 1..])
  {
    assert chain[k..][0] == chain[k] && chain[k..][1..] == chain[k + 1..];
  }

  method BuildChain(chain: seq<Ext>) returns (ext: seq<u8>)
    ensures ext == EncodeChain(chain)
  {
    hide EncodeChain, Link, Head;
    ext := [];
    var i := 0;
    assert chain[0..] == chain;
    while i < |chain|
      invariant 0 <= i <= |chain|
      invariant ext + EncodeChain(chain[i..]) == EncodeChain(chain)
    {
      EncodeFrom(chain, i);
      ghost var link := Link(chain[i], Head(chain[i + 1..]));
      ghost var before := ext;
      var content := PadContent(chain[i].content);
      var next := if i + 1 < |chain| then chain[i + 1].kind else 0;
      LinkIs(chain, i, content, next);
      var total := |content| + 2;
      ext := ext + [total / 4 % 0x100];
      ext := ext + content;
      ext := ext + [next];
      assert ext == before + link;
      assert ext + EncodeChain(chain[i + 1..]) == before + (link + EncodeChain(chain[i + 1..]));
      i := i + 1;
    }
    EmptyChain(chain[i..]);
  }

  lemma FirstLink(chain: seq<Ext>)
    requires chain != []
    ensures EncodeChain(chain) == Link(chain[0], Head(chain[1..])) + EncodeChain(chain[1..])
  {
  }

  lemma EmptyChain(chain: seq<Ext>)
    requires chain == []
    ensures EncodeChain(chain) == []
  {
  }

  lemma LinkIs(chain: seq<Ext>, i: nat, content: seq<u8>, next: u8)
    requires i < |chain| && content == Padded(chain[i].content)
    requires next == if i + 1 < |chain| then chain[i + 1].kind else 0
    ensures Link(chain[i], Head(chain[i + 1..])) == [(|content| + 2) / 4 % 0x100] + content + [next]
  {
  }

  method PadContent(content: seq<u8>) returns (r: seq<u8>)
    ensures r == Padded(content)
  {
    r := content;
    PadMore(|content|, 0);
    hide PadLen;
    while (|r| + 2) % 4 != 0
      invariant |content| <= |r| <= |content| + PadLen(|content|)
      invariant (|r| + 2) % 4 == 0 <==> |r| == |content| + PadLen(|content|)
      invariant r == content + Zeros(|r| - |content|)
      decreases |content| + 3 - |r|
    {
      r := r + [0];
      PadMore(|content|, |r| - |content|);
    }
  }

  method AssembleChain(s: Spec) returns (chain: seq<Ext>)
    ensures chain == ChainOf(s)
  {
    chain := s.extra;
    if s.withQfi {
      var content := [s.pduType as int * 0x10 % 0x100];
      content := content + [(if s.rqi then 0x40 else 0) + s.qfi % 0x40];
      assert content == SessionContainer(s).content;
      chain := chain + [Ext(PDU_SESSION_CONTAINER, content)];
    }
  }

  method BuildGtpu(s: Spec, payload: seq<u8>) returns (out: seq<u8>)
    ensures out == Build(s, payload)
  {
    hide EncodeChain, Be32, Be16, ChainOf;
    var chain := AssembleChain(s);
    var ext := BuildChain(chain);
    NonEmptyChain(chain);
    var firstExt := if chain == [] then 0 else chain[0].kind;
    var hasOptional := s.withSeq || s.withNpdu || ext != [];
    var flags := 0x30;
    if ext != [] {
      flags := flags + 4;
    }
    if s.withSeq {
      flags := flags + 2;
    }
    if s.withNpdu {
      flags := flags + 1;
    }
    var length := ((if hasOptional then 4 else 0) + |ext| + |payload|) % 0x1_0000;
    SizeOfBody(s, payload);
    out := [flags] + [s.msgType] + Be16(length) + Be32(s.teid);
    if hasOptional {
      out := out + Be16(s.seqNo) + [s.npdu] + [firstExt] + ext;
    }
    out := out + payload;
  }

  lemma NonEmptyChain(chain: seq<Ext>)
    ensures (EncodeChain(chain) == []) == (chain == [])
  {
  }

  lemma SizeOfBody(s: Spec, payload: seq<u8>)
    ensures |Body(s, payload)| == (if HasOptional(s) then 4 else 0) + |EncodeChain(ChainOf(s))| + |payload|
  {
  }

  // ---------------------------------------------------------------------------
  // The round trip
  // ---------------------------------------------------------------------------

  /** How many links a walk follows before the first of type 0, which ends a chain. */
  function Live(chain: seq<Ext>): (k: nat)
    ensures k <= |chain|
    ensures k < |chain| ==> chain[k].kind == 0
    ensures forall i :: 0 <= i < k ==> chain[i].kind != 0
  {
    if chain == [] || chain[0].kind == 0 then 0 else 1 + Live(chain[1..])
  }

  predicate Fits(chain: seq<Ext>) {
    forall i :: 0 <= i < |chain| ==> |chain[i].content| <= 1018
  }

  predicate NoEarlyEnd(chain: seq<Ext>) {
    forall i :: 0 <= i < |chain| ==> chain[i].kind != 0
  }

  function QosOf(chain: seq<Ext>, qos: Qos): Qos {
    if chain == [] then qos else QosOf(chain[1..], Observe(chain[0].kind, Padded(chain[0].content), qos))
  }

  lemma Inside(pre: seq<u8>, mid: seq<u8>, rest: seq<u8>, i: nat, j: nat)
    requires i <= j <= |mid|
    ensures (pre + mid + rest)[|pre| + i..|pre| + j] == mid[i..j]
    ensures forall k :: 0 <= k < |mid| ==> (pre + mid + rest)[|pre| + k] == mid[k]
  {
    var b := pre + mid + rest;
    assert forall k :: i <= k < j ==> b[|pre| + k] == mid[k];
  }

  lemma LinkOnWire(pre: seq<u8>, e: Ext, next: u8, rest: seq<u8>)
    requires |e.content| <= 1018
    ensures var buf := pre + Link(e, next) + rest;
            var len := |Link(e, next)|;
            && len >= 4
            && buf[|pre|] as int * 4 == len && buf[|pre| + len - 1] == next
            && buf[|pre| + 1..|pre| + len - 1] == Padded(e.content)
  {
    hide Padded;
    var c := Padded(e.content);
    var buf := pre + Link(e, next) + rest;
    assert Link(e, next)[0] == (|c| + 2) / 4;
    assert Link(e, next)[1..1 + |c|] == c;
    Inside(pre, Link(e, next), rest, 1, 1 + |c|);
  }

  lemma WalkEnds(buf: seq<u8>, at: nat, links: nat, qos: Qos)
    requires links <= MAX_LINKS
    ensures WalkChain(buf, at, 0, links, qos) == Walked(at, links, qos)
  {
  }

  lemma WalkLink(pre: seq<u8>, e: Ext, next: u8, rest: seq<u8>, links: nat, qos: Qos)
    requires |e.content| <= 1018 && e.kind != 0 && links <= MAX_LINKS
    ensures var buf := pre + Link(e, next) + rest;
            WalkChain(buf, |pre|, e.kind, links, qos)
            == if links == MAX_LINKS then Broken(ExtChainTooLong)
               else WalkChain(buf, |pre + Link(e, next)|, next, links + 1, Observe(e.kind, Padded(e.content), qos))
  {
    hide Link, Observe, Padded;
    LinkOnWire(pre, e, next, rest);
  }

  lemma {:induction false} WalkEncoded(pre: seq<u8>, chain: seq<Ext>, post: seq<u8>, links: nat, qos: Qos)
    requires links <= MAX_LINKS && Fits(chain) && NoEarlyEnd(chain)
    ensures WalkChain(pre + EncodeChain(chain) + post, |pre|, Head(chain), links, qos)
            == if links + |chain| <= MAX_LINKS
               then Walked(|pre| + |EncodeChain(chain)|, links + |chain|, QosOf(chain, qos))
               else Broken(ExtChainTooLong)
    decreases |chain|
  {
    hide Link, Observe, Padded, WalkChain, EncodeChain;
    var buf := pre + EncodeChain(chain) + post;
    if chain == [] {
      EmptyChain(chain);
      WalkEnds(buf, |pre|, links, qos);
    } else {
      FirstLink(chain);
      var next := Head(chain[1..]);
      var link := Link(chain[0], next);
      var rest := EncodeChain(chain[1..]);
      assert buf == pre + link + (rest + post);
      WalkLink(pre, chain[0], next, rest + post, links, qos);
      if links < MAX_LINKS {
        assert buf == (pre + link) + rest + post;
        WalkEncoded(pre + link, chain[1..], post, links + 1, Observe(chain[0].kind, Padded(chain[0].content), qos));
      }
    }
  }

  lemma HeadOfLive(chain: seq<Ext>)
    ensures Head(chain[..Live(chain)]) == Head(chain)
  {
  }

  lemma Regroup(a: seq<u8>, b: seq<u8>, c: seq<u8>)
    ensures a + (b + c) == (a + b) + c
  {
  }

  lemma {:induction false} EncodeSplits(chain: seq<Ext>)
    ensures var k := Live(chain);
            EncodeChain(chain) == EncodeChain(chain[..k]) + EncodeChain(chain[k..])
    decreases |chain|
  {
    hide Link, EncodeChain, Head;
    var k := Live(chain);
    if k == 0 {
      assert chain[..0] == [] && chain[0..] == chain;
      EmptyChain(chain[..0]);
    } else {
      var rest := chain[1..];
      assert Live(rest) == k - 1;
      hide Live;
      EncodeSplits(rest);
      HeadOfLive(rest);
      assert rest[..k - 1] == chain[..k][1..] && rest[k - 1..] == chain[k..];
      FirstLink(chain);
      FirstLink(chain[..k]);
      var link := Link(chain[0], Head(rest));
      Regroup(link, EncodeChain(rest[..k - 1]), EncodeChain(chain[k..]));
    }
  }

  lemma FlagsRead(ext: bool, sequence: bool, npdu: bool)
    ensures var f := Flags(ext, sequence, npdu);
            Version(f) == 1 && ProtocolType(f) && ExtFlag(f) == ext && SeqFlag(f) == sequence && NpduFlag(f) == npdu
  {
  }

  /** Where the fields of a built header lie on the wire. */
  lemma FixedOnWire(s: Spec, payload: seq<u8>, tail: seq<u8>)
    requires |Body(s, payload)| <= 0xFFFF
    ensures var f := Build(s, payload) + tail;
            && |f| == 8 + |Body(s, payload)| + |tail|
            && f[0] == Flags(ChainOf(s) != [], s.withSeq, s.withNpdu) && f[1] == s.msgType
            && Load16(f, 2) == |Body(s, payload)| && Load32(f, 4) == s.teid
            && f[8..8 + |Body(s, payload)|] == Body(s, payload)
  {
    hide Body, Flags, Load16, Load32, ChainOf;
    var body := Body(s, payload);
    var f := Build(s, payload) + tail;
    var n := |body|;
    assert n % 0x1_0000 == n;
    assert f[2..4] == Be16(n);
    assert f[4..8] == Be32(s.teid);
    LoadBe16(f, 2, n);
    LoadBe32(f, 4, s.teid);
  }

  lemma OptionalOnWire(s: Spec, payload: seq<u8>, f: seq<u8>)
    requires HasOptional(s)
    requires |f| >= 8 + |Body(s, payload)| && f[8..8 + |Body(s, payload)|] == Body(s, payload)
    ensures var n := |Body(s, payload)|;
            && n >= 4
            && Load16(f, 8) == s.seqNo && f[10] == s.npdu && f[11] == Head(ChainOf(s))
            && f[12..8 + n] == EncodeChain(ChainOf(s)) + payload
  {
    hide Load16, Head, EncodeChain, ChainOf, HasOptional;
    var body := Body(s, payload);
    var g := f[8..8 + |body|];
    assert f[8..10] == g[0..2] == Be16(s.seqNo);
    LoadBe16(f, 8, s.seqNo);
    assert f[10] == g[2] && f[11] == g[3];
    assert f[12..8 + |body|] == g[4..];
  }

  /** What a receiver sees of a header built from `s`: `k` live links, and everything after them as payload. */
  function Received(s: Spec, payload: seq<u8>, k: nat): Header
    requires k <= |ChainOf(s)|
  {
    var chain := ChainOf(s);
    Header(EncodeChain(chain[k..]) + payload, s.teid, if HasOptional(s) then s.seqNo else 0,
           8 + (if HasOptional(s) then 4 else 0) + |EncodeChain(chain[..k])|, |Body(s, payload)| % 0x1_0000, s.msgType,
           if HasOptional(s) then s.npdu else 0, QosOf(chain[..k], NoQos), k, s.withSeq, s.withNpdu, k > 0)
  }

  lemma WalkBuilt(s: Spec, payload: seq<u8>)
    requires Fits(ChainOf(s))
    ensures var chain := ChainOf(s);
            var k := Live(chain);
            WalkChain(EncodeChain(chain) + payload, 0, Head(chain), 0, NoQos)
            == if k <= MAX_LINKS then Walked(|EncodeChain(chain[..k])|, k, QosOf(chain[..k], NoQos))
               else Broken(ExtChainTooLong)
  {
    hide WalkChain, EncodeChain, QosOf, ChainOf;
    var chain := ChainOf(s);
    var k := Live(chain);
    EncodeSplits(chain);
    WalkEncoded([], chain[..k], EncodeChain(chain[k..]) + payload, 0, NoQos);
    assert [] + EncodeChain(chain[..k]) + (EncodeChain(chain[k..]) + payload) == EncodeChain(chain) + payload;
    HeadOfLive(chain);
  }

  lemma PlainRoundTrip(s: Spec, payload: seq<u8>, tail: seq<u8>)
    requires !HasOptional(s) && |Body(s, payload)| <= 0xFFFF
    ensures Parse(Build(s, payload) + tail) == Ok(Received(s, payload, 0))
  {
    hide Build, Flags, Load16, Load32, Version, ProtocolType, ExtFlag, SeqFlag, NpduFlag;
    FixedOnWire(s, payload, tail);
    FlagsRead(false, false, false);
    var chain := ChainOf(s);
    assert chain == [] && chain[0..] == [] && chain[..0] == [];
    assert EncodeChain(chain[0..]) + payload == payload;
  }

  /** The parse of a frame with optional fields, in terms of the walk over its extension area. */
  lemma ParseOptional(f: seq<u8>)
    requires |f| >= 12 && Version(f[0]) == 1 && ProtocolType(f[0]) && 4 <= Load16(f, 2) <= |f| - 8
    requires ExtFlag(f[0]) || SeqFlag(f[0]) || NpduFlag(f[0])
    requires ExtFlag(f[0]) || f[11] == 0
    ensures var w := WalkChain(f[12..8 + Load16(f, 2)], 0, f[11], 0, NoQos);
            && (w.Broken? ==> Parse(f) == Err(w.status))
            && (w.Walked? ==>
                  && 12 + w.consumed <= 8 + Load16(f, 2)
                  && Parse(f) == Ok(Header(f[12 + w.consumed..8 + Load16(f, 2)], Load32(f, 4), Load16(f, 8),
                                           12 + w.consumed, Load16(f, 2), f[1], f[10], w.qos, w.links,
                                           SeqFlag(f[0]), NpduFlag(f[0]), f[11] != 0)))
  {
    hide Version, ProtocolType, ExtFlag, SeqFlag, NpduFlag, Load16, Load32, WalkChain;
    WalkEnds(f[12..8 + Load16(f, 2)], 0, 0, NoQos);
    ChainBounds(f[12..8 + Load16(f, 2)], 0, f[11], 0, NoQos);
  }

  lemma OptionalRoundTrip(s: Spec, payload: seq<u8>, tail: seq<u8>)
    requires HasOptional(s) && Fits(ChainOf(s)) && |Body(s, payload)| <= 0xFFFF
    ensures var k := Live(ChainOf(s));
            Parse(Build(s, payload) + tail)
            == if k <= MAX_LINKS then Ok(Received(s, payload, k)) else Err(ExtChainTooLong)
  {
    hide Build, Body, Flags, Load16, Load32, Version, ProtocolType, ExtFlag, SeqFlag, NpduFlag,
      ChainOf, EncodeChain, WalkChain, QosOf, Fits, Parse, Live;
    var f := Build(s, payload) + tail;
    var chain := ChainOf(s);
    var k := Live(chain);
    FixedOnWire(s, payload, tail);
    FlagsRead(chain != [], s.withSeq, s.withNpdu);
    OptionalOnWire(s, payload, f);
    ParseOptional(f);
    WalkBuilt(s, payload);
    NothingLive(chain);
    if k <= MAX_LINKS {
      RestOnWire(s, payload, f);
    }
  }

  lemma RestOnWire(s: Spec, payload: seq<u8>, f: seq<u8>)
    requires var n := |Body(s, payload)|;
             |f| >= 8 + n && n >= 4 && f[12..8 + n] == EncodeChain(ChainOf(s)) + payload
    ensures var n := |Body(s, payload)|;
            var k := Live(ChainOf(s));
            var used := |EncodeChain(ChainOf(s)[..k])|;
            12 + used <= 8 + n && f[12 + used..8 + n] == EncodeChain(ChainOf(s)[k..]) + payload
  {
    hide Body, ChainOf, EncodeChain, Live;
    var chain := ChainOf(s);
    var n := |Body(s, payload)|;
    var k := Live(chain);
    EncodeSplits(chain);
    var used := |EncodeChain(chain[..k])|;
    assert f[12..8 + n] == EncodeChain(chain[..k]) + (EncodeChain(chain[k..]) + payload);
    assert f[12 + used..8 + n] == f[12..8 + n][used..];
  }

  lemma NothingLive(chain: seq<Ext>)
    ensures Live(chain) == 0 <==> Head(chain) == 0
    ensures chain == [] ==> Head(chain) == 0
    ensures Live(chain) == 0 ==> EncodeChain(chain[..Live(chain)]) == [] && QosOf(chain[..Live(chain)], NoQos) == NoQos
  {
  }

  /** Parsing what was built, whatever bytes follow the packet, gives the fields back, with exactly
      the live links consumed; it fails only for a chain longer than the parser's bound. */
  lemma RoundTrip(s: Spec, payload: seq<u8>, tail: seq<u8>)
    requires Fits(ChainOf(s)) && |Body(s, payload)| <= 0xFFFF
    ensures var k := Live(ChainOf(s));
            Parse(Build(s, payload) + tail)
            == if k <= MAX_LINKS then Ok(Received(s, payload, k)) else Err(ExtChainTooLong)
  {
    hide Build, Body, Parse, Received;
    if HasOptional(s) {
      OptionalRoundTrip(s, payload, tail);
    } else {
      PlainRoundTrip(s, payload, tail);
    }
  }

  /** The payload comes back as it went in exactly when no extra header has the type that ends a chain. */
  lemma PayloadSurvivesIff(s: Spec, payload: seq<u8>, tail: seq<u8>)
    requires Fits(ChainOf(s)) && |Body(s, payload)| <= 0xFFFF && |ChainOf(s)| <= MAX_LINKS
    ensures Parse(Build(s, payload) + tail).Ok?
    ensures Parse(Build(s, payload) + tail).h.payload == payload <==> NoEarlyEnd(s.extra)
  {
    hide Build, Body, Parse, EncodeChain, Fits;
    RoundTrip(s, payload, tail);
    var chain := ChainOf(s);
    var k := Live(chain);
    NonEmptyChain(chain[k..]);
    assert k == |chain| <==> NoEarlyEnd(chain);
    assert NoEarlyEnd(chain) <==> NoEarlyEnd(s.extra) by {
      assert forall i :: 0 <= i < |s.extra| ==> chain[i] == s.extra[i];
    }
  }

  lemma {:induction false} LastContainerWins(chain: seq<Ext>, last: Ext, qos: Qos)
    ensures QosOf(chain + [last], qos) == Observe(last.kind, Padded(last.content), QosOf(chain, qos))
    decreases |chain|
  {
    hide Observe;
    if chain == [] {
      assert chain + [last] == [last];
    } else {
      assert (chain + [last])[1..] == chain[1..] + [last];
      LastContainerWins(chain[1..], last, Observe(chain[0].kind, Padded(chain[0].content), qos));
    }
  }

  /** The QoS flow, PDU type and reflective indicator given to the builder are the ones received,
      whatever other headers the chain carries; the indicator only downlink. */
  lemma QosRoundTrip(s: Spec, payload: seq<u8>, tail: seq<u8>)
    requires Fits(ChainOf(s)) && |Body(s, payload)| <= 0xFFFF && |ChainOf(s)| <= MAX_LINKS
    requires s.withQfi && NoEarlyEnd(s.extra)
    ensures Parse(Build(s, payload) + tail).Ok?
    ensures Parse(Build(s, payload) + tail).h.qos
            == Qos(true, s.qfi % 0x40, s.pduType % 0x10, s.rqi && s.pduType % 0x10 == 0)
  {
    hide Build, Body, Parse, EncodeChain, Fits, QosOf, Observe;
    RoundTrip(s, payload, tail);
    var chain := ChainOf(s);
    assert Live(chain) == |chain| && chain[..|chain|] == chain;
    LastContainerWins(s.extra, SessionContainer(s), NoQos);
    ContainerRead(s, QosOf(s.extra, NoQos));
  }

  predicate NoContainer(chain: seq<Ext>) {
    forall i :: 0 <= i < |chain| ==> chain[i].kind != PDU_SESSION_CONTAINER
  }

  lemma {:induction false} NothingObserved(chain: seq<Ext>, qos: Qos)
    requires NoContainer(chain)
    ensures QosOf(chain, qos) == qos
    decreases |chain|
  {
    if chain != [] {
      NothingObserved(chain[1..], qos);
    }
  }

  /** Without a container there is no QoS information. */
  lemma NoQosRoundTrip(s: Spec, payload: seq<u8>, tail: seq<u8>)
    requires Fits(ChainOf(s)) && |Body(s, payload)| <= 0xFFFF && |ChainOf(s)| <= MAX_LINKS
    requires !s.withQfi && NoContainer(s.extra)
    ensures Parse(Build(s, payload) + tail).Ok? && Parse(Build(s, payload) + tail).h.qos == NoQos
  {
    hide Build, Body, Parse, EncodeChain, Fits, QosOf, Observe;
    RoundTrip(s, payload, tail);
    var chain := ChainOf(s);
    assert chain == s.extra;
    NothingObserved(chain[..Live(chain)], NoQos);
  }

  lemma Nibble(p: u8)
    ensures p as int * 0x10 % 0x100 / 0x10 == p % 0x10
  {
    assert p as int * 0x10 == p / 0x10 * 0x100 + p % 0x10 * 0x10;
    assert p as int * 0x10 % 0x100 == p % 0x10 * 0x10;
  }

  lemma SixBits(q: u8, rqi: bool)
    ensures var b := (if rqi then 0x40 else 0) + q % 0x40; b % 0x40 == q % 0x40 && (b / 0x40 % 2 == 1) == rqi
  {
  }

  lemma ContainerRead(s: Spec, qos: Qos)
    ensures var e := SessionContainer(s);
            Observe(e.kind, Padded(e.content), qos)
            == Qos(true, s.qfi % 0x40, s.pduType % 0x10, s.rqi && s.pduType % 0x10 == 0)
  {
    hide Padded;
    var e := SessionContainer(s);
    assert Padded(e.content)[..2] == e.content;
    assert Padded(e.content)[0] == e.content[0] && Padded(e.content)[1] == e.content[1];
    Nibble(s.pduType);
    SixBits(s.qfi, s.rqi);
  }

  /** No strict prefix of a built packet parses. */
  lemma PrefixIsTruncated(s: Spec, payload: seq<u8>, cut: nat)
    requires |Body(s, payload)| <= 0xFFFF && cut < |Build(s, payload)|
    ensures Parse(Build(s, payload)[..cut]) == Err(Truncated)
  {
    hide Build, Body, Flags, Load32, ChainOf, WalkChain, Version, ProtocolType, ExtFlag, SeqFlag, NpduFlag;
    FixedOnWire(s, payload, []);
    FlagsRead(ChainOf(s) != [], s.withSeq, s.withNpdu);
    assert Build(s, payload) + [] == Build(s, payload);
  }
}
