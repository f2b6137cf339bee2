/** Prefix arithmetic of app/rest_router.py (mask_ntob, ipv4_apply_mask), on
    32-bit words as the source computes it. */
module Prefixes {
  type Ip = bv32

  /** A subnet or a static destination: the bits of `nw` below the mask are 0. */
  datatype Prefix = Prefix(nw: Ip, mask: nat)

  predicate Legal(mask: int) { 0 <= mask <= 32 }

  /** mask_ntob: UINT32_MAX << (32 - mask), cut to 32 bits. */
  function MaskNtob(mask: nat): Ip
    requires Legal(mask)
  {
    0xffff_ffff << (32 - mask as bv6)
  }

  function And(a: Ip, b: Ip): Ip { a & b }

  function ApplyMask(ip: Ip, mask: nat): Ip
    requires Legal(mask)
  {
    And(ip, MaskNtob(mask))
  }

  predicate Within(ip: Ip, p: Prefix) {
    Legal(p.mask) && ApplyMask(ip, p.mask) == p.nw
  }

  /** nw_addr_aton on a well-formed address. */
  function PrefixOf(ip: Ip, mask: nat): Prefix
    requires Legal(mask)
  {
    Prefix(ApplyMask(ip, mask), mask)
  }

  lemma MasksNestWords(m: bv6, n: bv6)
    requires m <= n <= 32
    ensures (0xffff_ffff as bv32 << (32 - m)) & (0xffff_ffff as bv32 << (32 - n)) == 0xffff_ffff as bv32 << (32 - m)
  {
  }

  lemma LegalMask(mask: nat)
    requires Legal(mask)
    ensures mask as bv6 <= 32 && (mask as bv6) as int == mask
  {
  }

  /** The longer mask keeps what the shorter keeps. */
  lemma MasksNest(m: nat, n: nat)
    requires m <= n && Legal(n)
    ensures And(MaskNtob(m), MaskNtob(n)) == MaskNtob(m)
  {
    LegalMask(m);
    LegalMask(n);
    MasksNestWords(m as bv6, n as bv6);
  }

  lemma MaskTwice(ip: Ip, a: Ip, b: Ip)
    requires And(a, b) == a
    ensures And(And(ip, b), a) == And(ip, a)
  {
  }

  lemma NestedMask(ip: Ip, m: nat, n: nat)
    requires m <= n && Legal(n)
    ensures ApplyMask(ApplyMask(ip, n), m) == ApplyMask(ip, m)
  {
    hide MaskNtob, And;
    MasksNest(m, n);
    MaskTwice(ip, MaskNtob(m), MaskNtob(n));
  }

  lemma PrefixHoldsItsSource(ip: Ip, mask: nat)
    requires Legal(mask)
    ensures Within(ip, PrefixOf(ip, mask))
  {
  }

  ghost predicate Overlap(p: Prefix, q: Prefix) {
    exists ip :: Within(ip, p) && Within(ip, q)
  }

  /** The overlap check of AddressData.add: each gateway against the other subnet. */
  predicate GatewayInside(gw: Ip, p: Prefix, otherGw: Ip, other: Prefix)
    requires Legal(p.mask) && Legal(other.mask)
  {
    other.nw == ApplyMask(gw, other.mask) || p.nw == ApplyMask(otherGw, p.mask)
  }

  /** Looking at the two gateways finds every overlap of the two subnets, and
      nothing else. */
  lemma GatewaysTellOverlap(gw: Ip, mask: nat, otherGw: Ip, otherMask: nat)
    requires Legal(mask) && Legal(otherMask)
    ensures GatewayInside(gw, PrefixOf(gw, mask), otherGw, PrefixOf(otherGw, otherMask))
            <==> Overlap(PrefixOf(gw, mask), PrefixOf(otherGw, otherMask))
  {
    hide MaskNtob, ApplyMask;
    var p, q := PrefixOf(gw, mask), PrefixOf(otherGw, otherMask);
    PrefixHoldsItsSource(gw, mask);
    PrefixHoldsItsSource(otherGw, otherMask);
    if ip :| Within(ip, p) && Within(ip, q) {
      if mask <= otherMask {
        NestedMask(ip, mask, otherMask);
        NestedMask(otherGw, mask, otherMask);
      } else {
        NestedMask(ip, otherMask, mask);
        NestedMask(gw, otherMask, mask);
      }
    }
  }

  /** Two prefixes of one length that hold the same address are the same. */
  lemma SameLengthSamePrefix(ip: Ip, p: Prefix, q: Prefix)
    requires Within(ip, p) && Within(ip, q) && p.mask == q.mask
    ensures p == q
  {
    hide MaskNtob, ApplyMask;
  }
}
