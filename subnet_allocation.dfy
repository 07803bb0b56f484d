/**
 * The per-zone /28 blocks with the bounds the address plan needs: the
 * application id must fit the third octet, at most sixteen /28 blocks fit
 * in the application's /24, and each subnet needs a zone of the region.
 * The stack itself checks none of these (ec2/lib/main-stack.ts:34-40);
 * `Cidr.SeventeenthZoneOverflows` shows what it writes past the bound.
 */
module SubnetAllocation {
  import opened Basics
  import opened Cidr
  import opened MainStack
  import opened StackProperties

  datatype AllocationError = AppIdTooLarge | TooManyZones | NotEnoughZones

  /** The blocks of zones `0 .. maxAzs - 1`, or why they cannot all be valid. */
  function CheckedSubnetBlocks(appId: nat, maxAzs: nat, zoneCount: nat): Result<seq<CidrBlock>, AllocationError>
  {
    if appId > 255 then Failure(AppIdTooLarge)
    else if maxAzs > 16 then Failure(TooManyZones)
    else if maxAzs > zoneCount then Failure(NotEnoughZones)
    else Success(Tabulate(maxAzs, i => SubnetBlock(appId, i)))
  }

  /**
   * Success makes every zone's block an aligned IPv4 /28 and leaves no
   * zone index past the region's zones; a refusal with at least one zone
   * points at a zone that breaks one of the two.
   */
  lemma CheckedSubnetBlocksSound(appId: nat, maxAzs: nat, zoneCount: nat)
    ensures CheckedSubnetBlocks(appId, maxAzs, zoneCount).Success?
      <==> appId <= 255 && maxAzs <= 16 && maxAzs <= zoneCount
    ensures CheckedSubnetBlocks(appId, maxAzs, zoneCount).Success?
      ==> forall i :: 0 <= i < maxAzs ==> WellFormed(SubnetBlock(appId, i)) && i < zoneCount
    ensures CheckedSubnetBlocks(appId, maxAzs, zoneCount).Failure? && maxAzs > 0
      ==> exists i :: 0 <= i < maxAzs && (!WellFormed(SubnetBlock(appId, i)) || i >= zoneCount)
  {
    var r := CheckedSubnetBlocks(appId, maxAzs, zoneCount);
    if r.Success? {
      forall i | 0 <= i < maxAzs
        ensures WellFormed(SubnetBlock(appId, i))
      {
        SubnetBlockWellFormedIff(appId, i);
      }
    } else if appId > 255 {
      SubnetBlockWellFormedIff(appId, 0);
    } else if maxAzs > 16 {
      SubnetBlockWellFormedIff(appId, 16);
    } else {
      var k := maxAzs - 1;
      assert 0 <= k < maxAzs && (!WellFormed(SubnetBlock(appId, k)) || k >= zoneCount);
    }
  }

  /** On success, the `i`-th block is zone `i`'s, valid and disjoint from every other block of the list. */
  lemma CheckedBlockAt(appId: nat, maxAzs: nat, zoneCount: nat, i: nat, addr: nat)
    requires CheckedSubnetBlocks(appId, maxAzs, zoneCount).Success?
    requires i < maxAzs
    ensures var bs := CheckedSubnetBlocks(appId, maxAzs, zoneCount).value;
      && |bs| == maxAzs && i < zoneCount
      && bs[i] == SubnetBlock(appId, i) && WellFormed(bs[i])
      && forall j :: 0 <= j < |bs| && j != i ==> WellFormed(bs[j]) && !(Contains(bs[i], addr) && Contains(bs[j], addr))
  {
    var bs := Tabulate(maxAzs, k => SubnetBlock(appId, k));
    TabulateLength(maxAzs, k => SubnetBlock(appId, k));
    TabulateAt(maxAzs, k => SubnetBlock(appId, k), i);
    ZoneBlockIsolated(appId, maxAzs, i, addr);
    forall j | 0 <= j < |bs| && j != i
      ensures bs[j] == SubnetBlock(appId, j)
    {
      TabulateAt(maxAzs, k => SubnetBlock(appId, k), j);
    }
  }

  /**
   * On success for the region's zones, block `i` is the one the stack
   * writes for zone `i`: the subnet's text renders it, it is well formed,
   * it shares no address with the block of any other zone, and the subnet
   * is placed in the region's `i`-th zone.
   */
  lemma CheckedBlocksMatchPlan(inp: Inputs, i: nat, addr: nat)
    requires CheckedSubnetBlocks(inp.props.appId, inp.props.maxAzs, |inp.availabilityZones|).Success?
    requires i < inp.props.maxAzs
    ensures var bs := CheckedSubnetBlocks(inp.props.appId, inp.props.maxAzs, |inp.availabilityZones|).value;
      var p := StackPlan(inp);
      && |bs| == |p.subnets| == inp.props.maxAzs && i < |inp.availabilityZones|
      && p.subnets[i].cidrBlock == Render(bs[i])
      && p.subnets[i].availabilityZone == Some(inp.availabilityZones[i])
      && WellFormed(bs[i])
      && forall j :: 0 <= j < |bs| && j != i ==> WellFormed(bs[j]) && !(Contains(bs[i], addr) && Contains(bs[j], addr))
  {
    CheckedBlockAt(inp.props.appId, inp.props.maxAzs, |inp.availabilityZones|, i, addr);
    SubnetAndRouteOfZone(inp, i);
    SubnetZone(inp, i);
    SubnetCidrRendersBlock(inp.props.appId, i);
  }
}
