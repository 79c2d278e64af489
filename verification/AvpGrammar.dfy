/** Which attribute-value pairs stand in a byte area, position by position (section 4.1 of RFC 6733), and that the
    walk visits exactly those. */
module AvpGrammar {
  import opened Words
  import opened Bytes
  import opened Avps

  /** A whole AVP, padding aside, starts at `p`: its length field counts header and data, and the header has
      twelve bytes with the vendor flag and eight without. */
  ghost predicate WholeAt(area: seq<u8>, p: nat) {
    p + 8 <= |area| && (if area[p + 4] >= 128 then 12 else 8) <= Number(area[p + 5..p + 8]) <= |area| - p
  }

  /** That AVP is `a`. */
  ghost predicate AvpAt(area: seq<u8>, p: nat, a: Avp)
    requires WholeAt(area, p)
  {
    var len := Number(area[p + 5..p + 8]);
    && a.code == Number(area[p..p + 4]) && a.flags == area[p + 4] && a.length == len
    && if area[p + 4] >= 128 then a.vendor == Number(area[p + 8..p + 12]) && a.data == area[p + 12..p + len]
       else a.vendor == 0 && a.data == area[p + 8..p + len]
  }

  /** Padded to a multiple of four bytes it ends before `q`. */
  ghost predicate EndsAt(area: seq<u8>, p: nat, q: nat)
    requires WholeAt(area, p)
  {
    var len := Number(area[p + 5..p + 8]);
    p + len <= q < p + len + 4 && (q - p) % 4 == 0
  }

  lemma ReadableIff(area: seq<u8>, p: nat)
    ensures Readable(area, p) <==> WholeAt(area, p)
    ensures Readable(area, p) ==> AvpAt(area, p, ReadAvp(area, p)) && EndsAt(area, p, p + RoundUp(ReadAvp(area, p).length))
  {
    hide Number, Load24, Load32, RoundUp;
    if p + 8 <= |area| {
      LoadsAt(area, p);
    }
  }

  lemma LoadsAt(area: seq<u8>, p: nat)
    requires p + 8 <= |area|
    ensures Load32(area, p) == Number(area[p..p + 4]) && Load24(area, p + 5) == Number(area[p + 5..p + 8])
    ensures p + 12 <= |area| ==> Load32(area, p + 8) == Number(area[p + 8..p + 12])
  {
    LoadIsNumber(area, p);
    LoadIsNumber(area, p + 5);
    LoadIsNumber(area, p + 8);
  }

  /** `avps` follow each other from `ps[0]` on, the last ending at the last of `ps`. */
  ghost predicate Follow(area: seq<u8>, ps: seq<nat>, avps: seq<Avp>) {
    |ps| > 0 && |ps| - 1 <= |avps| && forall i :: 0 <= i < |ps| - 1 ==> Step(area, ps[i], avps[i], ps[i + 1])
  }

  ghost predicate Step(area: seq<u8>, p: nat, a: Avp, q: nat) {
    WholeAt(area, p) && AvpAt(area, p, a) && EndsAt(area, p, q) && q <= |area|
  }

  /** How a walk ends: at the end of the area, at a place where no whole AVP stands, or with a last AVP whose
      padding is cut off, which it has still visited. */
  ghost predicate Ending(area: seq<u8>, ps: seq<nat>, w: Walk)
    requires |ps| > 0
  {
    var n := |ps| - 1;
    if ps[n] >= |area| then w.status == Okay && |w.avps| == n
    else if !WholeAt(area, ps[n]) then w.status == BadAvp && |w.avps| == n
    else
      && w.status == BadAvp && |w.avps| == n + 1 && AvpAt(area, ps[n], w.avps[n])
      && forall q: nat :: EndsAt(area, ps[n], q) ==> q > |area|
  }

  lemma OneEnd(area: seq<u8>, p: nat, q: nat, r: nat)
    requires WholeAt(area, p) && EndsAt(area, p, q) && EndsAt(area, p, r)
    ensures q == r
  {
    hide Number;
  }

  lemma FollowMore(area: seq<u8>, p: nat, a: Avp, q: nat, ps: seq<nat>, avps: seq<Avp>)
    requires Step(area, p, a, q) && Follow(area, ps, avps) && ps[0] == q
    ensures Follow(area, [p] + ps, [a] + avps)
  {
    hide Step;
    var qs, bs := [p] + ps, [a] + avps;
    forall i | 0 <= i < |qs| - 1
      ensures Step(area, qs[i], bs[i], qs[i + 1])
    {
      if i > 0 {
        assert Step(area, ps[i - 1], avps[i - 1], ps[i]);
      }
    }
  }

  lemma {:induction false} WalkFollows(area: seq<u8>, off: nat) returns (ps: seq<nat>)
    ensures Follow(area, ps, WalkFrom(area, off).avps) && ps[0] == off && Ending(area, ps, WalkFrom(area, off))
    decreases |area| - off
  {
    hide Readable, ReadAvp, RoundUp, WholeAt, AvpAt, EndsAt;
    ReadableIff(area, off);
    ps := [off];
    if off < |area| && Readable(area, off) {
      var a := ReadAvp(area, off);
      var q := off + RoundUp(a.length);
      if q <= |area| {
        var rest := WalkFollows(area, q);
        var w := WalkFrom(area, q);
        FollowMore(area, off, a, q, rest, w.avps);
        ps := [off] + rest;
        EndingMore(area, off, a, rest, w);
      } else {
        forall r: nat | EndsAt(area, off, r) ensures r > |area| {
          OneEnd(area, off, q, r);
        }
      }
    }
  }

  lemma EndingMore(area: seq<u8>, p: nat, a: Avp, ps: seq<nat>, w: Walk)
    requires |ps| > 0 && Ending(area, ps, w)
    ensures Ending(area, [p] + ps, Walk([a] + w.avps, w.status))
  {
    hide WholeAt, AvpAt, EndsAt;
  }

  /** The walk over an area, exactly: at depths below 8 it visits the AVPs that stand there one after the other, up
      to the end or to the first place where none does. */
  lemma WalkExact(area: seq<u8>, depth: nat) returns (ps: seq<nat>)
    ensures depth >= 8 ==> ForEachAvp(area, depth) == Walk([], AvpTooDeep)
    ensures depth < 8 ==>
              && Follow(area, ps, ForEachAvp(area, depth).avps) && ps[0] == 0
              && Ending(area, ps, ForEachAvp(area, depth))
  {
    ps := WalkFollows(area, 0);
  }
}
