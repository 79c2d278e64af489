/** Attribute-value pairs of Diameter (sections 4.1 and 4.4 of RFC 6733): the walk over an AVP area,
    the encoder, and the round trip through nested groups. */
module Avps {
  import opened Words
  import opened Bytes

  const MAX_DEPTH: nat := 8

  datatype Status = Okay | Truncated | BadVersion | BadLength | BadAvp | AvpTooDeep

  /** One AVP as handed to a visitor: `length` includes the header, `data` excludes the padding. */
  datatype Avp = Avp(code: u32, flags: u8, vendor: u32, length: nat, data: seq<u8>)

  /** The AVPs visited, in order, and how the walk ended. */
  datatype Walk = Walk(avps: seq<Avp>, status: Status)

  predicate VendorSpecific(flags: u8) {
    flags >= 0x80
  }

  function HeaderLen(flags: u8): nat {
    if VendorSpecific(flags) then 12 else 8
  }

  function RoundUp(n: nat): (r: nat)
    ensures n <= r < n + 4 && r % 4 == 0
  {
    (n + 3) / 4 * 4
  }

  // ---------------------------------------------------------------------------
  // Walking
  // ---------------------------------------------------------------------------

  /** Whether a complete AVP, padding aside, starts at `off`. */
  predicate Readable(area: seq<u8>, off: nat) {
    && off + 8 <= |area|
    && HeaderLen(area[off + 4]) <= Load24(area, off + 5) <= |area| - off
  }

  function ReadAvp(area: seq<u8>, off: nat): (a: Avp)
    requires Readable(area, off)
    ensures a.length == HeaderLen(a.flags) + |a.data| <= |area| - off
  {
    var flags := area[off + 4];
    var length := Load24(area, off + 5);
    Avp(Load32(area, off), flags, if VendorSpecific(flags) then Load32(area, off + 8) else 0, length,
        area[off + HeaderLen(flags)..off + length])
  }

  /** The walk from `off` on. An AVP is visited before its padding is looked at. */
  function WalkFrom(area: seq<u8>, off: nat): Walk
    decreases |area| - off
  {
    if off >= |area| then Walk([], Okay)
    else if !Readable(area, off) then Walk([], BadAvp)
    else
      var a := ReadAvp(area, off);
      if RoundUp(a.length) > |area| - off then Walk([a], BadAvp)
      else
        var w := WalkFrom(area, off + RoundUp(a.length));
        Walk([a] + w.avps, w.status)
  }

  function ForEachAvp(area: seq<u8>, depth: nat): Walk {
    if depth >= MAX_DEPTH then Walk([], AvpTooDeep) else WalkFrom(area, 0)
  }

  method WalkArea(area: seq<u8>, depth: nat) returns (w: Walk)
    ensures w == ForEachAvp(area, depth)
  {
    hide Load24, Load32, RoundUp;
    if depth >= MAX_DEPTH {
      return Walk([], AvpTooDeep);
    }
    var off, visited := 0, [];
    while off < |area|
      invariant 0 <= off <= |area|
      invariant var rest := WalkFrom(area, off); WalkFrom(area, 0) == Walk(visited + rest.avps, rest.status)
      decreases |area| - off
    {
      if |area| - off < 8 {
        return Walk(visited, BadAvp);
      }
      var flags, length := area[off + 4], Load24(area, off + 5);
      if length < HeaderLen(flags) {
        return Walk(visited, BadAvp);
      }
      if length > |area| - off {
        return Walk(visited, BadAvp);
      }
      visited := visited + [ReadAvp(area, off)];
      var advance := RoundUp(length);
      if advance == 0 || advance > |area| - off {
        return Walk(visited, BadAvp);
      }
      off := off + advance;
    }
    return Walk(visited, Okay);
  }

  /** Bytes taken by AVPs with their padding. */
  function Extent(avps: seq<Avp>): nat {
    if avps == [] then 0 else RoundUp(avps[0].length) + Extent(avps[1..])
  }

  lemma {:induction false} WalkExtent(area: seq<u8>, off: nat)
    requires off <= |area|
    ensures var w := WalkFrom(area, off);
            && (w.status == Okay || w.status == BadAvp)
            && (w.status == Okay <==> Extent(w.avps) == |area| - off)
    decreases |area| - off
  {
    hide Load24, Load32, RoundUp;
    if off < |area| && Readable(area, off) {
      var a := ReadAvp(area, off);
      if RoundUp(a.length) <= |area| - off {
        WalkExtent(area, off + RoundUp(a.length));
        var w := WalkFrom(area, off + RoundUp(a.length));
        assert ([a] + w.avps)[1..] == w.avps;
      } else {
        assert [a][1..] == [];
      }
    }
  }

  /** A walk succeeds exactly when the AVPs it visited, with their padding, make up the whole area. */
  lemma AcceptedIffCovered(area: seq<u8>, depth: nat)
    requires depth < MAX_DEPTH
    ensures var w := ForEachAvp(area, depth);
            && (w.status == Okay || w.status == BadAvp)
            && (w.status == Okay <==> Extent(w.avps) == |area|)
  {
    WalkExtent(area, 0);
  }

  // ---------------------------------------------------------------------------
  // Encoding
  // ---------------------------------------------------------------------------

  /** An AVP to encode. */
  datatype Item = Item(code: u32, flags: u8, vendor: u32, data: seq<u8>)

  function Size(i: Item): nat {
    HeaderLen(i.flags) + |i.data|
  }

  function Pad4(n: nat): (k: nat)
    ensures k < 4 && n + k == RoundUp(n)
  {
    (4 - n % 4) % 4
  }

  function Fixed(i: Item): (r: seq<u8>)
    ensures |r| == HeaderLen(i.flags)
  {
    Be32(i.code) + [i.flags] + Be24(Size(i) % 0x100_0000) + if VendorSpecific(i.flags) then Be32(i.vendor) else []
  }

  function EncodeAvp(i: Item): (r: seq<u8>)
    ensures |r| == RoundUp(Size(i))
  {
    Fixed(i) + i.data + Zeros(Pad4(Size(i)))
  }

  function EncodeAll(items: seq<Item>): seq<u8> {
    if items == [] then [] else EncodeAvp(items[0]) + EncodeAll(items[1..])
  }

  lemma {:induction false} EncodedIsAligned(items: seq<Item>)
    ensures |EncodeAll(items)| % 4 == 0
  {
    hide EncodeAvp, Size;
    if items != [] {
      EncodedIsAligned(items[1..]);
      AlignedSum(|EncodeAvp(items[0])|, |EncodeAll(items[1..])|);
    }
  }

  lemma AlignedSum(a: nat, b: nat)
    requires a % 4 == 0
    ensures (a + b) % 4 == b % 4
  {
    assert a == 4 * (a / 4);
  }

  lemma PadMore(n: nat, k: nat)
    requires k <= Pad4(n)
    ensures (n + k) % 4 == 0 <==> k == Pad4(n)
  {
  }

  /** Pads to a multiple of four bytes. */
  method PadBuffer(raw: seq<u8>) returns (r: seq<u8>)
    ensures r == raw + Zeros(Pad4(|raw|))
  {
    r := raw;
    PadMore(|raw|, 0);
    hide Pad4, RoundUp;
    while |r| % 4 != 0
      invariant |raw| <= |r| <= |raw| + Pad4(|raw|)
      invariant |r| % 4 == 0 <==> |r| == |raw| + Pad4(|raw|)
      invariant r == raw + Zeros(|r| - |raw|)
      decreases |raw| + 3 - |r|
    {
      r := r + [0];
      PadMore(|raw|, |r| - |raw|);
    }
  }

  /** Appends one AVP and pads the whole buffer to a multiple of four bytes. */
  method PutAvp(out: seq<u8>, i: Item) returns (r: seq<u8>)
    requires |out| % 4 == 0
    ensures r == out + EncodeAvp(i)
    ensures |r| % 4 == 0
  {
    hide Be24, Be32, RoundUp;
    r := out + Be32(i.code) + [i.flags] + Be24(Size(i) % 0x100_0000);
    if VendorSpecific(i.flags) {
      r := r + Be32(i.vendor);
    }
    r := r + i.data;
    assert r == out + (Fixed(i) + i.data);
    AlignedSum(|out|, Size(i));
    AlignedSum(|out|, RoundUp(Size(i)));
    r := PadBuffer(r);
    assert r == out + EncodeAvp(i);
  }

  /** The visitor's view of an encoded AVP. */
  function Seen(i: Item): Avp {
    Avp(i.code, i.flags, if VendorSpecific(i.flags) then i.vendor else 0, Size(i), i.data)
  }

  function SeenAll(items: seq<Item>): seq<Avp> {
    seq(|items|, k requires 0 <= k < |items| => Seen(items[k]))
  }

  /** The 24-bit length field can hold every item's length. */
  predicate AllFit(items: seq<Item>) {
    forall k :: 0 <= k < |items| ==> Size(items[k]) < 0x100_0000
  }

  // ---------------------------------------------------------------------------
  // The round trip through one area
  // ---------------------------------------------------------------------------

  lemma Slices(a: seq<u8>, f: u8, c: seq<u8>, d: seq<u8>)
    requires |a| == 4 && |c| == 3
    ensures var w := a + [f] + c + d; w[..4] == a && w[4] == f && w[5..8] == c && w[8..] == d
  {
    var w := a + [f] + c + d;
    assert w == a + ([f] + c + d);
    assert w[5..] == c + d;
    assert w[5..8] == w[5..][..3] && w[8..] == w[5..][3..];
  }

  lemma SubSlice(b: seq<u8>, lo: nat, hi: nat, i: nat, j: nat)
    requires lo <= hi <= |b| && i <= j <= hi - lo
    ensures b[lo..hi][i..j] == b[lo + i..lo + j]
  {
    var w := b[lo..hi];
    assert forall k :: i <= k < j ==> w[i..j][k - i] == w[k] == b[lo + k];
    assert forall k :: 0 <= k < j - i ==> w[i..j][k] == b[lo + i..lo + j][k];
  }

  lemma FixedOnWire(i: Item, b: seq<u8>, off: nat)
    requires Size(i) < 0x100_0000 && off + HeaderLen(i.flags) <= |b|
    requires b[off..off + HeaderLen(i.flags)] == Fixed(i)
    ensures b[off + 4] == i.flags && Load32(b, off) == i.code && Load24(b, off + 5) == Size(i)
    ensures VendorSpecific(i.flags) ==> Load32(b, off + 8) == i.vendor
  {
    var size := Be24(Size(i) % 0x100_0000);
    var d := if VendorSpecific(i.flags) then Be32(i.vendor) else [];
    Slices(Be32(i.code), i.flags, size, d);
    hide Load24, Load32, Be24, Be32;
    var w := b[off..off + HeaderLen(i.flags)];
    assert w == Be32(i.code) + [i.flags] + size + d;
    SubSlice(b, off, off + HeaderLen(i.flags), 0, 4);
    LoadBe32(b, off, i.code);
    assert b[off + 4] == w[4];
    SubSlice(b, off, off + HeaderLen(i.flags), 5, 8);
    LoadBe24(b, off + 5, Size(i) % 0x100_0000);
    if VendorSpecific(i.flags) {
      SubSlice(b, off, off + 12, 8, 12);
      LoadBe32(b, off + 8, i.vendor);
    }
  }

  lemma ReadEncoded(pre: seq<u8>, i: Item, post: seq<u8>)
    requires Size(i) < 0x100_0000
    ensures var b := pre + EncodeAvp(i) + post;
            Readable(b, |pre|) && ReadAvp(b, |pre|) == Seen(i) && RoundUp(Size(i)) <= |b| - |pre|
  {
    hide Load24, Load32, Fixed;
    var b := pre + EncodeAvp(i) + post;
    var n := HeaderLen(i.flags);
    assert b[|pre|..|pre| + n] == Fixed(i);
    FixedOnWire(i, b, |pre|);
    assert b[|pre| + n..|pre| + Size(i)] == i.data;
  }

  lemma {:induction false} WalkEncoded(pre: seq<u8>, items: seq<Item>)
    requires AllFit(items)
    ensures WalkFrom(pre + EncodeAll(items), |pre|) == Walk(SeenAll(items), Okay)
    decreases |items|
  {
    hide EncodeAvp, Readable, ReadAvp, Size, RoundUp;
    if items == [] {
      assert SeenAll(items) == [];
    } else {
      var b := pre + EncodeAll(items);
      var first := EncodeAvp(items[0]);
      var rest := EncodeAll(items[1..]);
      assert b == pre + first + rest;
      ReadEncoded(pre, items[0], rest);
      WalkEncoded(pre + first, items[1..]);
      assert SeenAll(items) == [Seen(items[0])] + SeenAll(items[1..]);
    }
  }

  /** Walking any concatenation of encoded AVPs visits exactly those AVPs, in order and without their padding. */
  lemma AreaRoundTrip(items: seq<Item>, depth: nat)
    requires AllFit(items)
    ensures ForEachAvp(EncodeAll(items), depth)
            == if depth < MAX_DEPTH then Walk(SeenAll(items), Okay) else Walk([], AvpTooDeep)
  {
    WalkEncoded([], items);
    assert [] + EncodeAll(items) == EncodeAll(items);
  }

  // ---------------------------------------------------------------------------
  // The round trip through nested groups
  // ---------------------------------------------------------------------------

  datatype Tree =
    | Leaf(code: u32, flags: u8, vendor: u32, data: seq<u8>)
    | Group(code: u32, flags: u8, vendor: u32, kids: seq<Tree>)

  function ItemOf(t: Tree): Item {
    match t
    case Leaf(code, flags, vendor, data) => Item(code, flags, vendor, data)
    case Group(code, flags, vendor, kids) => Item(code, flags, vendor, EncodeAll(ItemsOf(kids)))
  }

  function ItemsOf(ts: seq<Tree>): (r: seq<Item>)
    ensures |r| == |ts|
  {
    if ts == [] then [] else [ItemOf(ts[0])] + ItemsOf(ts[1..])
  }

  function EncodeTrees(ts: seq<Tree>): seq<u8> {
    EncodeAll(ItemsOf(ts))
  }

  datatype Decoded = Trees(ts: seq<Tree>) | Failed(status: Status)

  /** A visitor that enters every AVP whose code is `grouped`, one level deeper each time. */
  function Decode(area: seq<u8>, depth: nat, grouped: u32 -> bool): Decoded
    requires depth <= MAX_DEPTH
    decreases MAX_DEPTH - depth, 1, 0
  {
    var w := ForEachAvp(area, depth);
    if w.status != Okay then Failed(w.status) else DecodeAvps(w.avps, depth, grouped)
  }

  function DecodeAvps(avps: seq<Avp>, depth: nat, grouped: u32 -> bool): Decoded
    requires depth < MAX_DEPTH
    decreases MAX_DEPTH - depth, 0, |avps|
  {
    if avps == [] then Trees([])
    else
      var first := DecodeAvp(avps[0], depth, grouped);
      if first.Failed? then first
      else
        var rest := DecodeAvps(avps[1..], depth, grouped);
        if rest.Failed? then rest else Trees(first.ts + rest.ts)
  }

  function DecodeAvp(a: Avp, depth: nat, grouped: u32 -> bool): Decoded
    requires depth < MAX_DEPTH
    decreases MAX_DEPTH - depth, 0, 0
  {
    if !grouped(a.code) then Trees([Leaf(a.code, a.flags, a.vendor, a.data)])
    else
      var kids := Decode(a.data, depth + 1, grouped);
      if kids.Failed? then kids else Trees([Group(a.code, a.flags, a.vendor, kids.ts)])
  }

  function HeightOf(t: Tree): nat {
    if t.Leaf? then 0 else Height(t.kids)
  }

  /** How many nested walks a list of AVPs needs; one even when it is empty. */
  function Height(ts: seq<Tree>): (h: nat)
    ensures h >= 1
  {
    if ts == [] then 1
    else if HeightOf(ts[0]) >= Height(ts[1..]) then 1 + HeightOf(ts[0])
    else Height(ts[1..])
  }

  predicate EncodableTree(t: Tree, grouped: u32 -> bool) {
    && Size(ItemOf(t)) < 0x100_0000
    && (!VendorSpecific(t.flags) ==> t.vendor == 0)
    && grouped(t.code) == t.Group?
    && (t.Group? ==> Encodable(t.kids, grouped))
  }

  predicate Encodable(ts: seq<Tree>, grouped: u32 -> bool) {
    ts == [] || (EncodableTree(ts[0], grouped) && Encodable(ts[1..], grouped))
  }

  lemma {:induction false} EncodableFits(ts: seq<Tree>, grouped: u32 -> bool)
    requires Encodable(ts, grouped)
    ensures AllFit(ItemsOf(ts))
  {
    hide Size, ItemOf, VendorSpecific;
    if ts != [] {
      EncodableFits(ts[1..], grouped);
      forall k | 0 <= k < |ts| ensures Size(ItemsOf(ts)[k]) < 0x100_0000 {
        assert k > 0 ==> ItemsOf(ts)[k] == ItemsOf(ts[1..])[k - 1];
      }
    }
  }

  lemma {:induction false} TreeRoundTrip(t: Tree, depth: nat, grouped: u32 -> bool)
    requires EncodableTree(t, grouped) && depth < MAX_DEPTH
    ensures DecodeAvp(Seen(ItemOf(t)), depth, grouped)
            == if depth + 1 + HeightOf(t) <= MAX_DEPTH then Trees([t]) else Failed(AvpTooDeep)
    decreases t, 0
  {
    hide Decode, EncodeAll, Encodable, Size;
    if t.Group? {
      NestedRoundTrip(t.kids, depth + 1, grouped);
    }
  }

  lemma {:induction false} ListRoundTrip(ts: seq<Tree>, depth: nat, grouped: u32 -> bool)
    requires Encodable(ts, grouped) && depth < MAX_DEPTH
    ensures DecodeAvps(SeenAll(ItemsOf(ts)), depth, grouped)
            == if depth + Height(ts) <= MAX_DEPTH then Trees(ts) else Failed(AvpTooDeep)
    decreases ts, 0
  {
    hide DecodeAvp, Seen, ItemOf, EncodableTree, HeightOf;
    if ts == [] {
      assert SeenAll(ItemsOf(ts)) == [];
    } else {
      TreeRoundTrip(ts[0], depth, grouped);
      ListRoundTrip(ts[1..], depth, grouped);
      var avps := SeenAll(ItemsOf(ts));
      assert avps[0] == Seen(ItemOf(ts[0])) && avps[1..] == SeenAll(ItemsOf(ts[1..]));
      assert [ts[0]] + ts[1..] == ts;
    }
  }

  /** Nested groups come back exactly when they are no deeper than the depth cap; deeper ones are
      reported as too deep and never as anything else. */
  lemma {:induction false} NestedRoundTrip(ts: seq<Tree>, depth: nat, grouped: u32 -> bool)
    requires Encodable(ts, grouped) && depth <= MAX_DEPTH
    ensures Decode(EncodeTrees(ts), depth, grouped)
            == if depth + Height(ts) <= MAX_DEPTH then Trees(ts) else Failed(AvpTooDeep)
    decreases ts, 1
  {
    hide DecodeAvps, ForEachAvp, Height, Encodable, EncodeAll, SeenAll;
    EncodableFits(ts, grouped);
    AreaRoundTrip(ItemsOf(ts), depth);
    if depth < MAX_DEPTH {
      ListRoundTrip(ts, depth, grouped);
    }
  }
}
