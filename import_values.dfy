/**
 * `ImportValues`: the construct that resolves the shared "Core" stack's
 * exports into handles (ec2/lib/import-values.ts).
 */
module Imports {
  import opened Basics
  import opened Cdk

  /** Scope name of the construct; its children's paths start with it. */
  const Scope := "ImportValues"

  /** The shared VPC, with this stack's zones and no subnets listed. */
  function CoreVpc(availabilityZones: seq<string>): VpcRef
  {
    VpcRef(Import("Core-Vpc"), availabilityZones, [], [])
  }

  function InternetGatewayId(): Token
  {
    Import("Core-InternetGateway")
  }

  function MysqlSecurityGroup(): SecurityGroupRef
  {
    SecurityGroupRef(Scope + "/MysqlSecurityGroup", Import("Core-MySqlSecurityGroup"))
  }

  /** The shared cluster group, under the handle `ImportValues/EcsSecurityGroup`. */
  function EcsSecurityGroup(): SecurityGroupRef
  {
    SecurityGroupRef(Scope + "/EcsSecurityGroup", Import("Core-ClusterSecurityGroup"))
  }

  class ImportValues {
    var igwId: Token
    var vpc: VpcRef
    var otherSecurityGroups: seq<SecurityGroupRef>
    var clusterSecurityGroup: SecurityGroupRef
    var maxAzs: nat
    var appId: nat
    var instanceCount: nat
    /** Ids of the constructs declared in this scope, in declaration order. */
    var childIds: seq<string>

    /** The cluster group handle is the last of the other groups. */
    ghost predicate Valid()
      reads this
    {
      |otherSecurityGroups| >= 1 && clusterSecurityGroup == otherSecurityGroups[|otherSecurityGroups| - 1]
    }

    constructor (props: CdkStackProps, availabilityZones: seq<string>)
      ensures Valid()
      ensures maxAzs == props.maxAzs && appId == props.appId && instanceCount == props.instanceCount
      ensures vpc == CoreVpc(availabilityZones)
      ensures igwId == InternetGatewayId()
      ensures otherSecurityGroups == [MysqlSecurityGroup(), EcsSecurityGroup()]
      ensures clusterSecurityGroup == EcsSecurityGroup()
      ensures childIds == ["CoreVpc", "MysqlSecurityGroup", "EcsSecurityGroup"] && Distinct(childIds)
    {
      otherSecurityGroups := [];
      maxAzs := props.maxAzs;
      appId := props.appId;
      instanceCount := props.instanceCount;
      vpc := CoreVpc(availabilityZones);
      childIds := ["CoreVpc"];
      igwId := InternetGatewayId();
      new;
      childIds := childIds + ["MysqlSecurityGroup"];
      PushOtherSecurityGroup(MysqlSecurityGroup());
      childIds := childIds + ["EcsSecurityGroup"];
      clusterSecurityGroup := EcsSecurityGroup();
      PushOtherSecurityGroup(clusterSecurityGroup);
    }

    /** `otherSecurityGroups.push(g)`: appends, keeps what was there, in order. */
    method PushOtherSecurityGroup(g: SecurityGroupRef)
      modifies this`otherSecurityGroups
      ensures otherSecurityGroups == old(otherSecurityGroups) + [g]
    {
      otherSecurityGroups := otherSecurityGroups + [g];
    }
  }

}
