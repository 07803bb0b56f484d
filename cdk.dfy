/**
 * Value types standing for what the construct library hands back: values
 * that are only known at deployment time, references to imported resources,
 * and the stack properties the application passes in.
 */
module Cdk {

  /**
   * A late-bound value: the value of a CloudFormation export
   * (`Fn.importValue(name)`), or an attribute of a construct declared in
   * this stack (a subnet id, an instance's public IP, ...).
   */
  datatype Token = Import(exportName: string) | Attr(construct: string, attribute: string)

  /**
   * A security group handle made by `SecurityGroup.fromSecurityGroupId`:
   * the construct path that made the handle and the group id it wraps.
   * Two handles on the same id are two constructs on one physical group.
   */
  datatype SecurityGroupRef = SecurityGroupRef(path: string, groupId: Token)

  /** A VPC handle made by `Vpc.fromVpcAttributes`. */
  datatype VpcRef = VpcRef(
    vpcId: Token,
    availabilityZones: seq<string>,
    publicSubnetIds: seq<Token>,
    publicSubnetRouteTableIds: seq<Token>)

  /** `CdkStackProps`: the numbers the application passes to the stack. */
  datatype CdkStackProps = CdkStackProps(appId: nat, maxAzs: nat, instanceCount: nat)
}
