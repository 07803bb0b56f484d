/**
 * `Ec2Stack` (ec2/lib/main-stack.ts): per-application subnets and routes,
 * ingress rules on the shared groups, and the flag-gated development
 * instances and database clusters with their outputs.
 *
 * What the stack declares is recorded as values: the construct library,
 * the deployment and the live resources are not part of this model.
 */
module MainStack {
  import opened Basics
  import opened Decimal
  import opened Cidr
  import opened Cdk
  import opened Imports

  datatype Subnet = Subnet(
    constructId: string,
    vpcId: Token,
    availabilityZone: Option<string>,
    cidrBlock: string,
    mapPublicIpOnLaunch: bool)

  datatype Route = Route(constructId: string, destinationCidrBlock: string, routeTableId: Token, gatewayId: Token)

  datatype KeyPair = KeyPair(keyName: string, keyType: string)

  datatype Port = Tcp(number: nat) | AllTcp

  datatype Peer = AnyIpv4 | FromGroup(group: SecurityGroupRef)

  /** An inbound rule added to `target`; `None` means the library's default description. */
  datatype IngressRule = IngressRule(target: SecurityGroupRef, peer: Peer, port: Port, description: Option<string>)

  datatype InstanceType = InstanceType(instanceClass: string, size: string)

  datatype ManagedPolicy = ManagedPolicy(constructId: string, arn: string)

  datatype Role = Role(constructId: string, assumedBy: string, managedPolicies: seq<ManagedPolicy>)

  datatype BlockDevice = BlockDevice(
    deviceName: string,
    sizeGiB: nat,
    deleteOnTermination: bool,
    encrypted: bool,
    volumeType: string)

  datatype Instance = Instance(
    constructId: string,
    vpc: VpcRef,
    instanceType: InstanceType,
    machineImage: string,
    keyName: string,
    role: Role,
    blockDevices: seq<BlockDevice>,
    securityGroup: SecurityGroupRef)

  datatype Engine = AuroraMysql(version: string) | AuroraPostgres(version: string)

  datatype RemovalPolicy = Destroy | Retain | Snapshot

  datatype DatabaseCluster = DatabaseCluster(
    constructId: string,
    engine: Engine,
    username: string,
    instanceType: InstanceType,
    vpc: VpcRef,
    subnets: seq<Subnet>,
    securityGroups: seq<SecurityGroupRef>,
    publiclyAccessible: bool,
    deleteAutomatedBackups: bool,
    defaultDatabaseName: string,
    backupRetentionDays: nat,
    instances: nat,
    removalPolicy: RemovalPolicy)

  /** Literal text followed by the value of a token. */
  datatype OutputValue = Interpolated(text: string, token: Token)

  datatype Output = Output(constructId: string, value: OutputValue)

  /** Everything the stack declares, in declaration order. */
  datatype Plan = Plan(
    keyPair: KeyPair,
    subnets: seq<Subnet>,
    routes: seq<Route>,
    vpc: VpcRef,
    clusterSecurityGroup: SecurityGroupRef,
    ingressRules: seq<IngressRule>,
    instances: seq<Instance>,
    clusters: seq<DatabaseCluster>,
    outputs: seq<Output>,
    constructIds: seq<string>)

  /**
   * What the stack is built from: its construct id, the props, the
   * region's availability zones, the process environment and the machine
   * image parameter looked up in the AMI table for 'ec2-user'.
   */
  datatype Inputs = Inputs(
    id: string,
    props: CdkStackProps,
    availabilityZones: seq<string>,
    env: map<string, string>,
    amiParameter: string)

  /** `process.env[name] === 'true'`: an unset variable is not "true". */
  predicate EnvIsTrue(env: map<string, string>, name: string)
  {
    name in env && env[name] == "true"
  }

  // ---------------------------------------------------------------- subnets

  /** `availabilityZones[i]`, which is `undefined` past the end of the list. */
  function AvailabilityZoneAt(availabilityZones: seq<string>, i: nat): Option<string>
  {
    if i < |availabilityZones| then Some(availabilityZones[i]) else None
  }

  function SubnetAt(appId: nat, vpcId: Token, availabilityZones: seq<string>, azIndex: nat): Subnet
  {
    Subnet("Subnet" + NatToString(azIndex), vpcId, AvailabilityZoneAt(availabilityZones, azIndex),
      SubnetCidr(appId, azIndex), true)
  }

  function SubnetId(s: Subnet): Token
  {
    Attr(s.constructId, "SubnetId")
  }

  function RouteTableId(s: Subnet): Token
  {
    Attr(s.constructId, "RouteTableId")
  }

  /** The default route of the subnet of zone `azIndex`. */
  function RouteAt(subnet: Subnet, igwId: Token, azIndex: nat): Route
  {
    Route("PublicRouting" + NatToString(azIndex), "0.0.0.0/0", RouteTableId(subnet), igwId)
  }

  function Subnets(appId: nat, vpcId: Token, availabilityZones: seq<string>, n: nat): seq<Subnet>
  {
    Tabulate(n, i => SubnetAt(appId, vpcId, availabilityZones, i))
  }

  function Routes(appId: nat, vpcId: Token, availabilityZones: seq<string>, igwId: Token, n: nat): seq<Route>
  {
    Tabulate(n, i => RouteAt(SubnetAt(appId, vpcId, availabilityZones, i), igwId, i))
  }

  // ---------------------------------------------------------- security groups

  /** The stack's own handle on the shared cluster group. */
  function StackClusterSecurityGroup(): SecurityGroupRef
  {
    SecurityGroupRef("ClusterSecurityGroup", Import("Core-ClusterSecurityGroup"))
  }

  function AllowFromAnyIpv4Rule(target: SecurityGroupRef, port: nat): IngressRule
  {
    IngressRule(target, AnyIpv4, Tcp(port), None)
  }

  function AllowAllTcpRule(peer: SecurityGroupRef, target: SecurityGroupRef): IngressRule
  {
    IngressRule(target, FromGroup(peer), AllTcp, Some("Allow from Dev EC2"))
  }

  /** One all-TCP rule from `peer` on each group, in list order. */
  function AllowFromGroupRules(peer: SecurityGroupRef, groups: seq<SecurityGroupRef>): seq<IngressRule>
  {
    Map(groups, g => AllowAllTcpRule(peer, g))
  }

  // -------------------------------------------------------------- instances

  function EcsKeyPair(): KeyPair
  {
    KeyPair("test-instance", "rsa")
  }

  function InstanceConstructId(i: nat): string
  {
    "DevInstance0" + NatToString(i)
  }

  /** The role made inside the instance loop, with ids that do not depend on the instance. */
  function DeployerRole(stackId: string): Role
  {
    Role(stackId + "DeployerSlaveRole", "ec2.amazonaws.com",
      [ManagedPolicy(stackId + "AdministratorAccess", "arn:aws:iam::aws:policy/AdministratorAccess")])
  }

  function RootVolume(): BlockDevice
  {
    BlockDevice("/dev/sda1", 8, true, true, "gp2")
  }

  function InstanceAt(stackId: string, vpc: VpcRef, machineImage: string, keyName: string,
                      sg: SecurityGroupRef, i: nat): Instance
  {
    Instance(InstanceConstructId(i), vpc, InstanceType("t3a", "micro"), machineImage, keyName,
      DeployerRole(stackId), [RootVolume()], sg)
  }

  /** `ssh -i ${keyName}.pem ec2-user@` followed by instance `i`'s public IP. */
  function SshOutputAt(keyName: string, i: nat): Output
  {
    Output("SSH" + NatToString(i),
      Interpolated("ssh -i " + keyName + ".pem ec2-user@", Attr(InstanceConstructId(i), "PublicIp")))
  }

  function Instances(stackId: string, vpc: VpcRef, machineImage: string, keyName: string,
                     sg: SecurityGroupRef, n: nat): seq<Instance>
  {
    Tabulate(n, i => InstanceAt(stackId, vpc, machineImage, keyName, sg, i))
  }

  function SshOutputs(keyName: string, n: nat): seq<Output>
  {
    Tabulate(n, i => SshOutputAt(keyName, i))
  }

  // -------------------------------------------------------------- databases

  function MysqlCluster(vpc: VpcRef, subnets: seq<Subnet>, sg: SecurityGroupRef): DatabaseCluster
  {
    DatabaseCluster("Mysql", AuroraMysql("VER_2_03_2"), "root", InstanceType("t3", "small"), vpc, subnets,
      [sg], true, true, "test_db", 1, 1, Destroy)
  }

  function PostgresqlCluster(vpc: VpcRef, subnets: seq<Subnet>, sg: SecurityGroupRef): DatabaseCluster
  {
    DatabaseCluster("Postgresql", AuroraPostgres("VER_13_4"), "root", InstanceType("t3", "medium"), vpc, subnets,
      [sg], true, true, "peertube", 1, 1, Destroy)
  }

  /** An output holding the hostname of a cluster's endpoint. */
  function EndpointOutput(outputId: string, cluster: DatabaseCluster): Output
  {
    Output(outputId, Interpolated("", Attr(cluster.constructId, "ClusterEndpoint.Hostname")))
  }

  // ---------------------------------------------------------- gated blocks

  /** The instances of the `EC2` block, empty unless the flag is "true". */
  function Ec2Instances(env: map<string, string>, stackId: string, vpc: VpcRef, machineImage: string,
                        keyName: string, sg: SecurityGroupRef, n: nat): seq<Instance>
  {
    if EnvIsTrue(env, "EC2") then Instances(stackId, vpc, machineImage, keyName, sg, n) else []
  }

  function Ec2Outputs(env: map<string, string>, keyName: string, n: nat): seq<Output>
  {
    if EnvIsTrue(env, "EC2") then SshOutputs(keyName, n) else []
  }

  function Ec2Ids(env: map<string, string>, stackId: string, n: nat): seq<string>
  {
    if EnvIsTrue(env, "EC2") then InstanceLoopIds(stackId, n) else []
  }

  /** The cluster of the `MYSQL` block, if the flag is "true". */
  function MysqlClusters(env: map<string, string>, vpc: VpcRef, subnets: seq<Subnet>, sg: SecurityGroupRef)
    : seq<DatabaseCluster>
  {
    if EnvIsTrue(env, "MYSQL") then [MysqlCluster(vpc, subnets, sg)] else []
  }

  function MysqlOutputs(env: map<string, string>, vpc: VpcRef, subnets: seq<Subnet>, sg: SecurityGroupRef)
    : seq<Output>
  {
    if EnvIsTrue(env, "MYSQL") then [EndpointOutput("MysqlEndpoint", MysqlCluster(vpc, subnets, sg))] else []
  }

  function MysqlIds(env: map<string, string>): seq<string>
  {
    if EnvIsTrue(env, "MYSQL") then ["Mysql", "MysqlEndpoint"] else []
  }

  /** The cluster of the `POSTGRESQL` block, if the flag is "true". */
  function PostgresqlClusters(env: map<string, string>, vpc: VpcRef, subnets: seq<Subnet>, sg: SecurityGroupRef)
    : seq<DatabaseCluster>
  {
    if EnvIsTrue(env, "POSTGRESQL") then [PostgresqlCluster(vpc, subnets, sg)] else []
  }

  function PostgresqlOutputs(env: map<string, string>, vpc: VpcRef, subnets: seq<Subnet>, sg: SecurityGroupRef)
    : seq<Output>
  {
    if EnvIsTrue(env, "POSTGRESQL")
    then [EndpointOutput("PostgresqlEndpoint", PostgresqlCluster(vpc, subnets, sg))]
    else []
  }

  function PostgresqlIds(env: map<string, string>): seq<string>
  {
    if EnvIsTrue(env, "POSTGRESQL") then ["Postgresql", "PostgresqlEndpoint"] else []
  }

  // ------------------------------------------------------------ construct ids

  /** Ids declared by the subnet loop: `Subnet<i>` then `PublicRouting<i>`, per zone. */
  function SubnetLoopIds(n: nat): seq<string>
  {
    if n == 0 then []
    else SubnetLoopIds(n - 1) + ["Subnet" + NatToString(n - 1), "PublicRouting" + NatToString(n - 1)]
  }

  /**
   * Ids declared by the instance loop, per instance in evaluation order:
   * the managed-policy import, the role, the instance, the output.
   */
  function InstanceLoopIds(stackId: string, n: nat): seq<string>
  {
    if n == 0 then []
    else
      InstanceLoopIds(stackId, n - 1)
        + [stackId + "AdministratorAccess", stackId + "DeployerSlaveRole",
           InstanceConstructId(n - 1), "SSH" + NatToString(n - 1)]
  }

  /**
   * Ids of the constructs declared directly in the stack, in declaration
   * order (the chain is written the way the declarations append).
   */
  function StackIds(inp: Inputs): seq<string>
  {
    ["ImportValues"] + ["ECSKeyPair"]
      + SubnetLoopIds(inp.props.maxAzs) + ["CoreVpc"] + ["ClusterSecurityGroup"]
      + Ec2Ids(inp.env, inp.id, inp.props.instanceCount) + MysqlIds(inp.env) + PostgresqlIds(inp.env)
  }

  // ------------------------------------------------------------- the whole plan

  function PlanSubnets(props: CdkStackProps, availabilityZones: seq<string>): seq<Subnet>
  {
    Subnets(props.appId, CoreVpc(availabilityZones).vpcId, availabilityZones, props.maxAzs)
  }

  function PlanRoutes(props: CdkStackProps, availabilityZones: seq<string>): seq<Route>
  {
    Routes(props.appId, CoreVpc(availabilityZones).vpcId, availabilityZones, InternetGatewayId(), props.maxAzs)
  }

  /** The stack's VPC handle: the shared VPC listing the new subnets and their route tables. */
  function PlanVpc(props: CdkStackProps, availabilityZones: seq<string>): VpcRef
  {
    var shared := CoreVpc(availabilityZones);
    var ss := PlanSubnets(props, availabilityZones);
    VpcRef(shared.vpcId, shared.availabilityZones, Map(ss, SubnetId), Map(ss, RouteTableId))
  }

  function PlanIngressRules(): seq<IngressRule>
  {
    var sg := StackClusterSecurityGroup();
    [AllowFromAnyIpv4Rule(sg, 22)] + [AllowFromAnyIpv4Rule(sg, 3306)] + [AllowFromAnyIpv4Rule(sg, 5432)]
      + [AllowFromAnyIpv4Rule(EcsSecurityGroup(), 22)]
      + AllowFromGroupRules(sg, [MysqlSecurityGroup(), EcsSecurityGroup()])
  }

  function PlanInstances(inp: Inputs, vpc: VpcRef): seq<Instance>
  {
    Ec2Instances(inp.env, inp.id, vpc, inp.amiParameter, EcsKeyPair().keyName, StackClusterSecurityGroup(),
      inp.props.instanceCount)
  }

  function PlanClusters(env: map<string, string>, vpc: VpcRef, subnets: seq<Subnet>): seq<DatabaseCluster>
  {
    MysqlClusters(env, vpc, subnets, StackClusterSecurityGroup())
      + PostgresqlClusters(env, vpc, subnets, StackClusterSecurityGroup())
  }

  function PlanOutputs(inp: Inputs, vpc: VpcRef, subnets: seq<Subnet>): seq<Output>
  {
    var sg := StackClusterSecurityGroup();
    Ec2Outputs(inp.env, EcsKeyPair().keyName, inp.props.instanceCount)
      + MysqlOutputs(inp.env, vpc, subnets, sg) + PostgresqlOutputs(inp.env, vpc, subnets, sg)
  }

  /** What the stack declares for the given inputs. */
  function StackPlan(inp: Inputs): Plan
  {
    var vpc := PlanVpc(inp.props, inp.availabilityZones);
    var subnets := PlanSubnets(inp.props, inp.availabilityZones);
    Plan(EcsKeyPair(), subnets, PlanRoutes(inp.props, inp.availabilityZones), vpc, StackClusterSecurityGroup(),
      PlanIngressRules(), PlanInstances(inp, vpc), PlanClusters(inp.env, vpc, subnets),
      PlanOutputs(inp, vpc, subnets), StackIds(inp))
  }

  // ---------------------------------------------------------------- the stack

  class Ec2Stack {
    const id: string
    /** `Stack.of(this).availabilityZones`. */
    const availabilityZones: seq<string>
    var get: ImportValues
    var keyPair: KeyPair
    var subnets: seq<Subnet>
    var routes: seq<Route>
    var vpc: VpcRef
    var clusterSecurityGroup: SecurityGroupRef
    var ingressRules: seq<IngressRule>
    var instances: seq<Instance>
    var clusters: seq<DatabaseCluster>
    var outputs: seq<Output>
    /** Ids of the constructs declared directly in this stack, in order. */
    var constructIds: seq<string>

    function Declared(): Plan
      reads this
    {
      Plan(keyPair, subnets, routes, vpc, clusterSecurityGroup, ingressRules, instances, clusters, outputs,
        constructIds)
    }

    /** The handles `ImportValues` resolved. */
    ghost predicate ImportsResolved()
      reads this, get
    {
      && get.vpc == CoreVpc(availabilityZones)
      && get.igwId == InternetGatewayId()
      && get.otherSecurityGroups == [MysqlSecurityGroup(), EcsSecurityGroup()]
      && get.clusterSecurityGroup == EcsSecurityGroup()
    }

    /** The inputs this stack was built from. */
    function InputsWith(env: map<string, string>, amiParameter: string): Inputs
      reads this, get
    {
      Inputs(id, CdkStackProps(get.appId, get.maxAzs, get.instanceCount), availabilityZones, env, amiParameter)
    }

    constructor (id: string, props: CdkStackProps, availabilityZones: seq<string>,
                 env: map<string, string>, amiParameter: string)
      ensures this.id == id && this.availabilityZones == availabilityZones
      ensures get.Valid() && get.appId == props.appId && get.maxAzs == props.maxAzs
      ensures Declared() == StackPlan(Inputs(id, props, availabilityZones, env, amiParameter))
    {
      this.id := id;
      this.availabilityZones := availabilityZones;
      get := new ImportValues(props, availabilityZones);
      constructIds := ["ImportValues"];
      keyPair := EcsKeyPair();
      constructIds := constructIds + ["ECSKeyPair"];
      subnets, routes := [], [];
      ingressRules, instances, clusters, outputs := [], [], [], [];
      new;
      ghost var inp := Inputs(id, props, availabilityZones, env, amiParameter);
      assert InputsWith(env, amiParameter) == inp;
      DeclareNetwork();
      DeclareSecurityRules();
      DeclareOptionalResources(env, amiParameter);
      assert constructIds == StackIds(inp);
    }

    /** Lines 32-55: subnets and routes, the VPC handle, the stack's cluster group handle. */
    method DeclareNetwork()
      requires ImportsResolved() && subnets == [] && routes == []
      modifies this`subnets, this`routes, this`vpc, this`clusterSecurityGroup, this`constructIds
      ensures subnets == PlanSubnets(CdkStackProps(get.appId, get.maxAzs, get.instanceCount), availabilityZones) && routes == PlanRoutes(CdkStackProps(get.appId, get.maxAzs, get.instanceCount), availabilityZones)
      ensures vpc == PlanVpc(CdkStackProps(get.appId, get.maxAzs, get.instanceCount), availabilityZones)
      ensures clusterSecurityGroup == StackClusterSecurityGroup()
      ensures constructIds == old(constructIds) + SubnetLoopIds(get.maxAzs) + ["CoreVpc"] + ["ClusterSecurityGroup"]
    {
      DeclareSubnets();
      assert subnets == PlanSubnets(CdkStackProps(get.appId, get.maxAzs, get.instanceCount), availabilityZones);
      ImportVpc();
      ImportClusterSecurityGroup();
    }

    /** Lines 57-64: the ingress rules, all on shared groups. */
    method DeclareSecurityRules()
      requires ImportsResolved() && clusterSecurityGroup == StackClusterSecurityGroup() && ingressRules == []
      modifies this`ingressRules
      ensures ingressRules == PlanIngressRules()
    {
      AllowFromAnyIpv4(clusterSecurityGroup, 22);
      AllowFromAnyIpv4(clusterSecurityGroup, 3306);
      AllowFromAnyIpv4(clusterSecurityGroup, 5432);
      AllowFromAnyIpv4(get.clusterSecurityGroup, 22);
      AllowClusterGroupIntoOthers();
    }

    /** Lines 66-131: the blocks gated by `EC2`, `MYSQL` and `POSTGRESQL`. */
    method DeclareOptionalResources(env: map<string, string>, amiParameter: string)
      requires keyPair == EcsKeyPair() && clusterSecurityGroup == StackClusterSecurityGroup()
      requires instances == [] && clusters == [] && outputs == []
      modifies this`instances, this`clusters, this`outputs, this`constructIds
      ensures instances == PlanInstances(InputsWith(env, amiParameter), vpc)
      ensures clusters == PlanClusters(env, vpc, subnets)
      ensures outputs == PlanOutputs(InputsWith(env, amiParameter), vpc, subnets)
      ensures constructIds == old(constructIds)
        + Ec2Ids(env, id, get.instanceCount) + MysqlIds(env) + PostgresqlIds(env)
    {
      var sg := clusterSecurityGroup;
      DeclareInstances(env, amiParameter);
      assert outputs == Ec2Outputs(env, EcsKeyPair().keyName, get.instanceCount);
      DeclareMysql(env);
      assert outputs == Ec2Outputs(env, EcsKeyPair().keyName, get.instanceCount) + MysqlOutputs(env, vpc, subnets, sg);
      DeclarePostgresql(env);
    }

    /** The zone loop: one public subnet and one default route per zone. */
    method DeclareSubnets()
      modifies this`subnets, this`routes, this`constructIds
      ensures subnets == old(subnets) + Subnets(get.appId, get.vpc.vpcId, availabilityZones, get.maxAzs)
      ensures routes == old(routes) + Routes(get.appId, get.vpc.vpcId, availabilityZones, get.igwId, get.maxAzs)
      ensures constructIds == old(constructIds) + SubnetLoopIds(get.maxAzs)
    {
      var azIndex := 0;
      while azIndex < get.maxAzs
        invariant azIndex <= get.maxAzs
        invariant subnets == old(subnets) + Subnets(get.appId, get.vpc.vpcId, availabilityZones, azIndex)
        invariant routes == old(routes) + Routes(get.appId, get.vpc.vpcId, availabilityZones, get.igwId, azIndex)
        invariant constructIds == old(constructIds) + SubnetLoopIds(azIndex)
      {
        var subnet := Subnet("Subnet" + NatToString(azIndex), get.vpc.vpcId,
          AvailabilityZoneAt(availabilityZones, azIndex), SubnetCidr(get.appId, azIndex), true);
        constructIds := constructIds + [subnet.constructId];
        var route := Route("PublicRouting" + NatToString(azIndex), "0.0.0.0/0", RouteTableId(subnet), get.igwId);
        constructIds := constructIds + [route.constructId];
        routes := routes + [route];
        subnets := subnets + [subnet];
        azIndex := azIndex + 1;
      }
    }

    /** The VPC handle listing the new subnets and their route tables. */
    method ImportVpc()
      modifies this`vpc, this`constructIds
      ensures vpc == VpcRef(get.vpc.vpcId, get.vpc.availabilityZones, Map(subnets, SubnetId), Map(subnets, RouteTableId))
      ensures constructIds == old(constructIds) + ["CoreVpc"]
    {
      vpc := VpcRef(get.vpc.vpcId, get.vpc.availabilityZones, Map(subnets, SubnetId), Map(subnets, RouteTableId));
      constructIds := constructIds + ["CoreVpc"];
    }

    /** A second handle on the shared cluster group, made in the stack itself. */
    method ImportClusterSecurityGroup()
      modifies this`clusterSecurityGroup, this`constructIds
      ensures clusterSecurityGroup == StackClusterSecurityGroup()
      ensures constructIds == old(constructIds) + ["ClusterSecurityGroup"]
    {
      clusterSecurityGroup := StackClusterSecurityGroup();
      constructIds := constructIds + ["ClusterSecurityGroup"];
    }

    /** `target.connections.allowFromAnyIpv4(Port.tcp(port))`: adds, never removes. */
    method AllowFromAnyIpv4(target: SecurityGroupRef, port: nat)
      modifies this`ingressRules
      ensures ingressRules == old(ingressRules) + [AllowFromAnyIpv4Rule(target, port)]
    {
      ingressRules := ingressRules + [AllowFromAnyIpv4Rule(target, port)];
    }

    /**
     * Every other shared group admits all TCP from the cluster group, in
     * list order; the imported cluster group comes last, so the last rule
     * admits the stack's cluster group into it.
     */
    method AllowClusterGroupIntoOthers()
      requires get.Valid()
      modifies this`ingressRules
      ensures ingressRules == old(ingressRules) + AllowFromGroupRules(clusterSecurityGroup, get.otherSecurityGroups)
      ensures |ingressRules| > |old(ingressRules)|
        && ingressRules[|ingressRules| - 1] == AllowAllTcpRule(clusterSecurityGroup, get.clusterSecurityGroup)
    {
      var others := get.otherSecurityGroups;
      var k := 0;
      while k < |others|
        invariant k <= |others|
        invariant ingressRules == old(ingressRules) + AllowFromGroupRules(clusterSecurityGroup, others[..k])
      {
        assert others[..k + 1][..k] == others[..k];
        ingressRules := ingressRules + [AllowAllTcpRule(clusterSecurityGroup, others[k])];
        k := k + 1;
      }
      assert others[..k] == others;
      var sg := clusterSecurityGroup;
      MapAt(others, g => AllowAllTcpRule(sg, g), |others| - 1);
    }

    /** With `EC2` set to "true": `instanceCount` instances, each with an SSH output. */
    method DeclareInstances(env: map<string, string>, machineImage: string)
      modifies this`instances, this`outputs, this`constructIds
      ensures instances == old(instances)
        + Ec2Instances(env, id, vpc, machineImage, keyPair.keyName, clusterSecurityGroup, get.instanceCount)
      ensures outputs == old(outputs) + Ec2Outputs(env, keyPair.keyName, get.instanceCount)
      ensures constructIds == old(constructIds) + Ec2Ids(env, id, get.instanceCount)
    {
      if EnvIsTrue(env, "EC2") {
        var instanceId := 0;
        while instanceId < get.instanceCount
          invariant instanceId <= get.instanceCount
          invariant instances == old(instances)
            + Instances(id, vpc, machineImage, keyPair.keyName, clusterSecurityGroup, instanceId)
          invariant outputs == old(outputs) + SshOutputs(keyPair.keyName, instanceId)
          invariant constructIds == old(constructIds) + InstanceLoopIds(id, instanceId)
        {
          var policy := ManagedPolicy(id + "AdministratorAccess", "arn:aws:iam::aws:policy/AdministratorAccess");
          constructIds := constructIds + [policy.constructId];
          var role := Role(id + "DeployerSlaveRole", "ec2.amazonaws.com", [policy]);
          constructIds := constructIds + [role.constructId];
          var instance := Instance(InstanceConstructId(instanceId), vpc, InstanceType("t3a", "micro"),
            machineImage, keyPair.keyName, role, [RootVolume()], clusterSecurityGroup);
          constructIds := constructIds + [instance.constructId];
          instances := instances + [instance];
          var ssh := "ssh -i " + keyPair.keyName + ".pem ec2-user@";
          var output := Output("SSH" + NatToString(instanceId), Interpolated(ssh, Attr(instance.constructId, "PublicIp")));
          constructIds := constructIds + [output.constructId];
          outputs := outputs + [output];
          instanceId := instanceId + 1;
        }
      }
    }

    /** With `MYSQL` set to "true": one Aurora MySQL cluster and its endpoint output. */
    method DeclareMysql(env: map<string, string>)
      modifies this`clusters, this`outputs, this`constructIds
      ensures clusters == old(clusters) + MysqlClusters(env, vpc, subnets, clusterSecurityGroup)
      ensures outputs == old(outputs) + MysqlOutputs(env, vpc, subnets, clusterSecurityGroup)
      ensures constructIds == old(constructIds) + MysqlIds(env)
    {
      if EnvIsTrue(env, "MYSQL") {
        var mysql := DatabaseCluster("Mysql", AuroraMysql("VER_2_03_2"), "root", InstanceType("t3", "small"),
          vpc, subnets, [clusterSecurityGroup], true, true, "test_db", 1, 1, Destroy);
        clusters := clusters + [mysql];
        outputs := outputs + [EndpointOutput("MysqlEndpoint", mysql)];
        constructIds := constructIds + ["Mysql", "MysqlEndpoint"];
      }
    }

    /** With `POSTGRESQL` set to "true": one Aurora PostgreSQL cluster and its endpoint output. */
    method DeclarePostgresql(env: map<string, string>)
      modifies this`clusters, this`outputs, this`constructIds
      ensures clusters == old(clusters) + PostgresqlClusters(env, vpc, subnets, clusterSecurityGroup)
      ensures outputs == old(outputs) + PostgresqlOutputs(env, vpc, subnets, clusterSecurityGroup)
      ensures constructIds == old(constructIds) + PostgresqlIds(env)
    {
      if EnvIsTrue(env, "POSTGRESQL") {
        var postgresql := DatabaseCluster("Postgresql", AuroraPostgres("VER_13_4"), "root",
          InstanceType("t3", "medium"), vpc, subnets, [clusterSecurityGroup], true, true, "peertube", 1, 1, Destroy);
        clusters := clusters + [postgresql];
        outputs := outputs + [EndpointOutput("PostgresqlEndpoint", postgresql)];
        constructIds := constructIds + ["Postgresql", "PostgresqlEndpoint"];
      }
    }
  }
}
