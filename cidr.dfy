/**
 * IPv4 address blocks in the prefix notation of section 3.1 of RFC 4632
 * ("a.b.c.d/n"), and the per-zone /28 blocks the stack carves out of
 * 10.0.{appId}.0/24.
 */
module Cidr {
  import opened Decimal

  /** A dotted-quad base address with a prefix length. */
  datatype CidrBlock = CidrBlock(o1: nat, o2: nat, o3: nat, o4: nat, prefixLength: nat)

  /**
   * The CIDR text the stack writes for the subnet of zone `azIndex`:
   * the template `10.0.${appId}.${(azIndex + 0) * 16}/28`, unchecked.
   */
  function SubnetCidr(appId: nat, azIndex: nat): string
  {
    "10.0." + NatToString(appId) + "." + NatToString(azIndex * 16) + "/28"
  }

  /** The block that `SubnetCidr(appId, azIndex)` denotes. */
  function SubnetBlock(appId: nat, azIndex: nat): CidrBlock
  {
    CidrBlock(10, 0, appId, azIndex * 16, 28)
  }

  /** `n` in decimal, a separator, then the rest of the text. */
  function Field(n: nat, sep: char, rest: string): string
  {
    NatToString(n) + [sep] + rest
  }

  /** The usual text form `o1.o2.o3.o4/prefixLength`. */
  function Render(b: CidrBlock): string
  {
    Field(b.o1, '.', Field(b.o2, '.', Field(b.o3, '.', Field(b.o4, '/', NatToString(b.prefixLength)))))
  }

  function Pow2(k: nat): (r: nat)
    ensures 1 <= r
  {
    if k == 0 then 1 else 2 * Pow2(k - 1)
  }

  /** The base address as a 32-bit number (for well-formed octets). */
  function Address(b: CidrBlock): nat
  {
    ((b.o1 * 256 + b.o2) * 256 + b.o3) * 256 + b.o4
  }

  /** How many addresses the prefix leaves to the host part. */
  function Size(b: CidrBlock): nat
    requires b.prefixLength <= 32
  {
    Pow2(32 - b.prefixLength)
  }

  /** Every octet fits a byte and the base is aligned to the block size. */
  predicate WellFormed(b: CidrBlock)
  {
    && b.o1 <= 255 && b.o2 <= 255 && b.o3 <= 255 && b.o4 <= 255
    && b.prefixLength <= 32
    && Address(b) % Size(b) == 0
  }

  predicate Contains(b: CidrBlock, addr: nat)
    requires b.prefixLength <= 32
  {
    Address(b) <= addr < Address(b) + Size(b)
  }

  lemma Pow2Of4()
    ensures Pow2(4) == 16
  {
    assert Pow2(1) == 2;
    assert Pow2(2) == 4;
    assert Pow2(3) == 8;
  }

  /** The subnet text is exactly the rendering of its block. */
  lemma SubnetCidrRendersBlock(appId: nat, azIndex: nat)
    ensures SubnetCidr(appId, azIndex) == Render(SubnetBlock(appId, azIndex))
  {
    var a, o := NatToString(appId), NatToString(azIndex * 16);
    assert NatToString(10) == "10";
    assert NatToString(0) == "0";
    assert NatToString(28) == "28";
    calc {
      Render(SubnetBlock(appId, azIndex));
      "10" + ['.'] + ("0" + ['.'] + (a + ['.'] + (o + ['/'] + "28")));
      "10.0." + a + "." + o + "/28";
    }
  }

  /** A numeral followed by a non-digit separator can be split back apart. */
  lemma {:induction false} FieldInjective(m: nat, n: nat, sep: char, r: string, t: string)
    requires !IsDigit(sep)
    requires Field(m, sep, r) == Field(n, sep, t)
    ensures m == n && r == t
  {
    var a, b := NatToString(m), NatToString(n);
    var s := Field(m, sep, r);
    // The first non-digit sits right after each numeral.
    var k := if |a| < |b| then |a| else |b|;
    assert IsDigit(s[k]) <==> k < |a|;
    assert IsDigit(Field(n, sep, t)[k]) <==> k < |b|;
    assert a == s[..|a|] == b;
    NatToStringInjective(m, n);
    assert r == s[|a| + 1..] == t;
  }

  /** Distinct blocks never share a rendering. */
  lemma RenderInjective(b: CidrBlock, c: CidrBlock)
    requires Render(b) == Render(c)
    ensures b == c
  {
    var r4b, r4c := Field(b.o4, '/', NatToString(b.prefixLength)), Field(c.o4, '/', NatToString(c.prefixLength));
    var r3b, r3c := Field(b.o3, '.', r4b), Field(c.o3, '.', r4c);
    var r2b, r2c := Field(b.o2, '.', r3b), Field(c.o2, '.', r3c);
    FieldInjective(b.o1, c.o1, '.', r2b, r2c);
    FieldInjective(b.o2, c.o2, '.', r3b, r3c);
    FieldInjective(b.o3, c.o3, '.', r4b, r4c);
    FieldInjective(b.o4, c.o4, '/', NatToString(b.prefixLength), NatToString(c.prefixLength));
    NatToStringInjective(b.prefixLength, c.prefixLength);
  }

  /** Two zones (of any applications) get different CIDR texts; no bound needed. */
  lemma SubnetCidrInjective(appId: nat, i: nat, appId': nat, j: nat)
    ensures SubnetCidr(appId, i) == SubnetCidr(appId', j) <==> appId == appId' && i == j
  {
    if SubnetCidr(appId, i) == SubnetCidr(appId', j) {
      SubnetCidrRendersBlock(appId, i);
      SubnetCidrRendersBlock(appId', j);
      RenderInjective(SubnetBlock(appId, i), SubnetBlock(appId', j));
    }
  }

  /**
   * The block of zone `azIndex` is a valid, aligned /28 exactly when the
   * application id fits the third octet and the zone index fits the fourth.
   */
  lemma SubnetBlockWellFormedIff(appId: nat, azIndex: nat)
    ensures WellFormed(SubnetBlock(appId, azIndex)) <==> appId <= 255 && azIndex < 16
  {
    var b := SubnetBlock(appId, azIndex);
    Pow2Of4();
    assert Address(b) == 16 * (10485760 + 16 * appId + azIndex);
  }

  /**
   * Within the valid range, the /28 blocks of different (application, zone)
   * pairs share no address.
   */
  lemma SubnetBlocksDisjoint(appId: nat, i: nat, appId': nat, j: nat, addr: nat)
    requires appId <= 255 && appId' <= 255 && i < 16 && j < 16
    requires appId != appId' || i != j
    ensures !(Contains(SubnetBlock(appId, i), addr) && Contains(SubnetBlock(appId', j), addr))
  {
    Pow2Of4();
  }

  /** Within one application's /24, zone `i`'s block is valid and disjoint from every other zone's. */
  lemma ZoneBlockIsolated(appId: nat, n: nat, i: nat, addr: nat)
    requires appId <= 255 && n <= 16 && i < n
    ensures WellFormed(SubnetBlock(appId, i))
    ensures forall j: nat :: j < n && j != i ==>
      WellFormed(SubnetBlock(appId, j)) && !(Contains(SubnetBlock(appId, i), addr) && Contains(SubnetBlock(appId, j), addr))
  {
    SubnetBlockWellFormedIff(appId, i);
    forall j: nat | j < n && j != i
      ensures WellFormed(SubnetBlock(appId, j))
      ensures !(Contains(SubnetBlock(appId, i), addr) && Contains(SubnetBlock(appId, j), addr))
    {
      SubnetBlockWellFormedIff(appId, j);
      SubnetBlocksDisjoint(appId, i, appId, j, addr);
    }
  }

  /**
   * Nothing bounds the zone index: the seventeenth zone of application 7
   * gets the text "10.0.7.256/28", which is not an IPv4 block, and whose
   * numeric base is that of application 8's first zone.
   */
  lemma SeventeenthZoneOverflows()
    ensures SubnetCidr(7, 16) == "10.0.7.256/28"
    ensures !WellFormed(SubnetBlock(7, 16))
    ensures Address(SubnetBlock(7, 16)) == Address(SubnetBlock(8, 0))
  {
    assert NatToString(7) == "7";
    assert NatToString(25) == "25";
    assert NatToString(256) == "256";
  }
}
