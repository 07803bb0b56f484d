/**
 * What `Ec2Stack` declares, stated about `StackPlan`: the constructor of
 * `MainStack.Ec2Stack` ends with `Declared() == StackPlan(...)`, so every
 * lemma here is a property of every stack the constructor builds.
 */
module StackProperties {
  import opened Basics
  import opened Decimal
  import opened Cidr
  import opened Cdk
  import opened Imports
  import opened MainStack

  // ------------------------------------------------------- subnets and routes

  /** `maxAzs` subnets, `maxAzs` routes and `maxAzs` entries in each of the VPC handle's lists. */
  lemma NetworkCounts(inp: Inputs)
    ensures var p := StackPlan(inp); var n := inp.props.maxAzs;
      && |p.subnets| == n && |p.routes| == n
      && |p.vpc.publicSubnetIds| == n && |p.vpc.publicSubnetRouteTableIds| == n
  {
    var p := StackPlan(inp);
    var n := inp.props.maxAzs;
    var vpcId := CoreVpc(inp.availabilityZones).vpcId;
    TabulateLength(n, i => SubnetAt(inp.props.appId, vpcId, inp.availabilityZones, i));
    TabulateLength(n, i => RouteAt(SubnetAt(inp.props.appId, vpcId, inp.availabilityZones, i), InternetGatewayId(), i));
    if n > 0 {
      MapAt(p.subnets, SubnetId, 0);
      MapAt(p.subnets, RouteTableId, 0);
    }
  }

  /**
   * Zone `i` gets the public subnet `Subnet<i>` of the shared VPC with the
   * block `10.0.{appId}.{16 i}/28`, and the route `PublicRouting<i>` sending
   * 0.0.0.0/0 from that subnet's route table to the shared internet gateway.
   */
  lemma SubnetAndRouteOfZone(inp: Inputs, i: nat)
    requires i < inp.props.maxAzs
    ensures var p := StackPlan(inp);
      && |p.subnets| == inp.props.maxAzs && |p.routes| == inp.props.maxAzs
      && p.subnets[i].constructId == "Subnet" + NatToString(i)
      && p.subnets[i].vpcId == Import("Core-Vpc")
      && p.subnets[i].cidrBlock == SubnetCidr(inp.props.appId, i)
      && p.subnets[i].mapPublicIpOnLaunch
      && p.routes[i].constructId == "PublicRouting" + NatToString(i)
      && p.routes[i].destinationCidrBlock == "0.0.0.0/0"
      && p.routes[i].routeTableId == Attr(p.subnets[i].constructId, "RouteTableId")
      && p.routes[i].gatewayId == Import("Core-InternetGateway")
  {
    var n := inp.props.maxAzs;
    var vpcId := CoreVpc(inp.availabilityZones).vpcId;
    TabulateAt(n, j => SubnetAt(inp.props.appId, vpcId, inp.availabilityZones, j), i);
    TabulateAt(n, j => RouteAt(SubnetAt(inp.props.appId, vpcId, inp.availabilityZones, j), InternetGatewayId(), j), i);
  }

  /**
   * Subnet `i` is placed in the region's `i`-th zone when there is one;
   * past the end of the zone list it gets no zone at all.
   */
  lemma SubnetZone(inp: Inputs, i: nat)
    requires i < inp.props.maxAzs
    ensures var p := StackPlan(inp);
      && |p.subnets| == inp.props.maxAzs
      && (i < |inp.availabilityZones| ==> p.subnets[i].availabilityZone == Some(inp.availabilityZones[i]))
      && (i >= |inp.availabilityZones| ==> p.subnets[i].availabilityZone == None)
  {
    var vpcId := CoreVpc(inp.availabilityZones).vpcId;
    TabulateAt(inp.props.maxAzs, j => SubnetAt(inp.props.appId, vpcId, inp.availabilityZones, j), i);
  }

  /** No two subnets of a stack share a CIDR text, whatever the numbers. */
  lemma SubnetCidrsDistinct(inp: Inputs, i: nat, j: nat)
    requires i < j < inp.props.maxAzs
    ensures var p := StackPlan(inp);
      |p.subnets| == inp.props.maxAzs && p.subnets[i].cidrBlock != p.subnets[j].cidrBlock
  {
    SubnetAndRouteOfZone(inp, i);
    SubnetAndRouteOfZone(inp, j);
    SubnetCidrInjective(inp.props.appId, i, inp.props.appId, j);
  }

  /**
   * With `appId <= 255` and `maxAzs <= 16`, subnet `i`'s text renders an
   * aligned /28, and that block shares no address with the block of any
   * other zone of the stack.
   */
  lemma SubnetBlocksOfPlan(inp: Inputs, i: nat, addr: nat)
    requires inp.props.appId <= 255 && inp.props.maxAzs <= 16
    requires i < inp.props.maxAzs
    ensures var p := StackPlan(inp); var b := SubnetBlock(inp.props.appId, i);
      && |p.subnets| == inp.props.maxAzs && p.subnets[i].cidrBlock == Render(b)
      && WellFormed(b)
      && forall j: nat :: j < inp.props.maxAzs && j != i ==>
        WellFormed(SubnetBlock(inp.props.appId, j))
        && !(Contains(b, addr) && Contains(SubnetBlock(inp.props.appId, j), addr))
  {
    SubnetAndRouteOfZone(inp, i);
    SubnetCidrRendersBlock(inp.props.appId, i);
    ZoneBlockIsolated(inp.props.appId, inp.props.maxAzs, i, addr);
  }

  /** Raising `maxAzs` keeps the existing subnets and routes and only appends. */
  lemma GrowingMaxAzsAppends(inp: Inputs, m: nat)
    requires inp.props.maxAzs <= m
    ensures var p, q := StackPlan(inp), StackPlan(inp.(props := inp.props.(maxAzs := m)));
      && |q.subnets| == m && |q.routes| == m
      && p.subnets == q.subnets[..inp.props.maxAzs]
      && p.routes == q.routes[..inp.props.maxAzs]
  {
    var vpcId := CoreVpc(inp.availabilityZones).vpcId;
    TabulatePrefix(inp.props.maxAzs, m, j => SubnetAt(inp.props.appId, vpcId, inp.availabilityZones, j));
    TabulatePrefix(inp.props.maxAzs, m,
      j => RouteAt(SubnetAt(inp.props.appId, vpcId, inp.availabilityZones, j), InternetGatewayId(), j));
  }

  /**
   * The stack's VPC handle is the shared VPC with the stack's zones, and
   * lists subnet `i`'s id and route table at position `i`.
   */
  lemma VpcListsSubnets(inp: Inputs, i: nat)
    requires i < inp.props.maxAzs
    ensures var p := StackPlan(inp);
      && p.vpc.vpcId == Import("Core-Vpc") && p.vpc.availabilityZones == inp.availabilityZones
      && |p.subnets| == |p.routes| == inp.props.maxAzs
      && |p.vpc.publicSubnetIds| == |p.subnets| && |p.vpc.publicSubnetRouteTableIds| == |p.subnets|
      && p.vpc.publicSubnetIds[i] == Attr("Subnet" + NatToString(i), "SubnetId")
      && p.vpc.publicSubnetRouteTableIds[i] == p.routes[i].routeTableId
  {
    var p := StackPlan(inp);
    SubnetAndRouteOfZone(inp, i);
    MapAt(p.subnets, SubnetId, i);
    MapAt(p.subnets, RouteTableId, i);
  }

  // ------------------------------------------------------------ ingress rules

  /** The rules in the order the stack adds them. */
  lemma IngressRulesListed()
    ensures var sg := StackClusterSecurityGroup();
      PlanIngressRules() == [
        IngressRule(sg, AnyIpv4, Tcp(22), None),
        IngressRule(sg, AnyIpv4, Tcp(3306), None),
        IngressRule(sg, AnyIpv4, Tcp(5432), None),
        IngressRule(EcsSecurityGroup(), AnyIpv4, Tcp(22), None),
        IngressRule(MysqlSecurityGroup(), FromGroup(sg), AllTcp, Some("Allow from Dev EC2")),
        IngressRule(EcsSecurityGroup(), FromGroup(sg), AllTcp, Some("Allow from Dev EC2"))]
  {
    var sg := StackClusterSecurityGroup();
    var others := [MysqlSecurityGroup(), EcsSecurityGroup()];
    MapAt(others, g => AllowAllTcpRule(sg, g), 0);
    MapAt(others, g => AllowAllTcpRule(sg, g), 1);
  }

  /**
   * Only the shared cluster group is opened to the world, and on it
   * exactly TCP 22, 3306 and 5432 (5432 whatever the engine flags say).
   */
  lemma WorldOpenPorts(inp: Inputs, port: nat)
    ensures var rules := StackPlan(inp).ingressRules;
      && (forall r :: r in rules && r.peer == AnyIpv4 ==> r.target.groupId == Import("Core-ClusterSecurityGroup"))
      && ((exists r :: r in rules && r.peer == AnyIpv4 && r.port == Tcp(port)) <==> port in {22, 3306, 5432})
  {
    IngressRulesListed();
    var rules := StackPlan(inp).ingressRules;
    if port in {22, 3306, 5432} {
      var k := if port == 22 then 0 else if port == 3306 then 1 else 2;
      assert rules[k] in rules && rules[k].peer == AnyIpv4 && rules[k].port == Tcp(port);
    }
  }

  /**
   * Each group of `ImportValues.otherSecurityGroups`, in list order, admits
   * all TCP from the stack's cluster group handle, with the description
   * "Allow from Dev EC2"; these are the only group-sourced rules.
   */
  lemma OtherGroupsAdmitClusterGroup(inp: Inputs, i: nat)
    requires i < |[MysqlSecurityGroup(), EcsSecurityGroup()]|
    ensures var rules := StackPlan(inp).ingressRules; var others := [MysqlSecurityGroup(), EcsSecurityGroup()];
      && |rules| == 4 + |others|
      && rules[4 + i] == IngressRule(others[i], FromGroup(StackClusterSecurityGroup()), AllTcp, Some("Allow from Dev EC2"))
      && (forall k :: 0 <= k < 4 ==> rules[k].peer == AnyIpv4)
  {
    IngressRulesListed();
  }

  /**
   * Because the cluster group is the last of the other groups, the physical
   * cluster group admits all TCP from itself.
   */
  lemma ClusterGroupAdmitsItself(inp: Inputs)
    ensures exists r :: (r in StackPlan(inp).ingressRules
      && r.peer.FromGroup? && r.port == AllTcp
      && r.target.groupId == r.peer.group.groupId == Import("Core-ClusterSecurityGroup"))
  {
    IngressRulesListed();
    assert StackPlan(inp).ingressRules[5] in StackPlan(inp).ingressRules;
  }

  // ---------------------------------------------------------------- instances

  /**
   * Instances and SSH outputs exist only with `EC2` set to "true", then
   * `instanceCount` of each; the two clusters follow their own flags, and
   * each cluster comes with one endpoint output.
   */
  lemma BlocksGated(inp: Inputs)
    ensures var p := StackPlan(inp);
      var ec2 := if EnvIsTrue(inp.env, "EC2") then inp.props.instanceCount else 0;
      var mysql := if EnvIsTrue(inp.env, "MYSQL") then 1 else 0;
      var pg := if EnvIsTrue(inp.env, "POSTGRESQL") then 1 else 0;
      && |p.instances| == ec2
      && |p.clusters| == mysql + pg
      && |p.outputs| == ec2 + mysql + pg
  {
    var n := inp.props.instanceCount;
    var p := StackPlan(inp);
    TabulateLength(n, i => InstanceAt(inp.id, p.vpc, inp.amiParameter, EcsKeyPair().keyName,
      StackClusterSecurityGroup(), i));
    TabulateLength(n, i => SshOutputAt(EcsKeyPair().keyName, i));
  }

  /**
   * Instance `i` is a t3a.micro `DevInstance0<i>` in the stack's VPC handle,
   * with the given machine image, the key pair "test-instance", the deployer
   * role, an 8 GiB encrypted gp2 root volume and the cluster group.
   */
  lemma InstanceOfPlan(inp: Inputs, i: nat)
    requires EnvIsTrue(inp.env, "EC2") && i < inp.props.instanceCount
    ensures var p := StackPlan(inp);
      && |p.instances| == inp.props.instanceCount
      && p.instances[i].constructId == "DevInstance0" + NatToString(i)
      && p.instances[i].vpc == p.vpc
      && p.instances[i].instanceType == InstanceType("t3a", "micro")
      && p.instances[i].machineImage == inp.amiParameter
      && p.instances[i].keyName == p.keyPair.keyName == "test-instance"
      && p.instances[i].role.constructId == inp.id + "DeployerSlaveRole"
      && p.instances[i].role.assumedBy == "ec2.amazonaws.com"
      && p.instances[i].role.managedPolicies
         == [ManagedPolicy(inp.id + "AdministratorAccess", "arn:aws:iam::aws:policy/AdministratorAccess")]
      && p.instances[i].blockDevices == [BlockDevice("/dev/sda1", 8, true, true, "gp2")]
      && p.instances[i].securityGroup.groupId == Import("Core-ClusterSecurityGroup")
  {
    var p := StackPlan(inp);
    TabulateAt(inp.props.instanceCount, j => InstanceAt(inp.id, p.vpc, inp.amiParameter, EcsKeyPair().keyName,
      StackClusterSecurityGroup(), j), i);
  }

  /** The literal text of the SSH output: `ssh -i ${keyName}.pem ec2-user@` with the key pair's name. */
  lemma SshCommandText()
    ensures "ssh -i " + EcsKeyPair().keyName + ".pem ec2-user@" == "ssh -i test-instance.pem ec2-user@"
  {
  }

  /** Output `SSH<i>` prints the ssh command line for instance `i`'s public IP. */
  lemma SshOutputOfPlan(inp: Inputs, i: nat)
    requires EnvIsTrue(inp.env, "EC2") && i < inp.props.instanceCount
    ensures var p := StackPlan(inp);
      && i < |p.outputs|
      && p.outputs[i] == Output("SSH" + NatToString(i),
           Interpolated("ssh -i test-instance.pem ec2-user@", Attr("DevInstance0" + NatToString(i), "PublicIp")))
  {
    var p := StackPlan(inp);
    var e := Ec2Outputs(inp.env, EcsKeyPair().keyName, inp.props.instanceCount);
    var sg := StackClusterSecurityGroup();
    var m := MysqlOutputs(inp.env, p.vpc, p.subnets, sg);
    var q := PostgresqlOutputs(inp.env, p.vpc, p.subnets, sg);
    TabulateAt(inp.props.instanceCount, j => SshOutputAt(EcsKeyPair().keyName, j), i);
    SshCommandText();
    assert p.outputs == e + m + q;
    assert (e + m + q)[i] == (e + m)[i] == e[i];
  }

  /** Every instance shares the one deployer role; only the instance ids differ. */
  lemma InstancesShareRole(inp: Inputs, i: nat, j: nat)
    requires EnvIsTrue(inp.env, "EC2") && i < j < inp.props.instanceCount
    ensures var p := StackPlan(inp);
      && |p.instances| == inp.props.instanceCount
      && p.instances[i].role == p.instances[j].role
      && p.instances[i].constructId != p.instances[j].constructId
  {
    InstanceOfPlan(inp, i);
    InstanceOfPlan(inp, j);
    NumberedInjective("DevInstance0", i, j);
  }

  // -------------------------------------------------------------- databases

  /**
   * With `MYSQL` set to "true", the first cluster is the Aurora MySQL 2.03.2
   * cluster `Mysql` on t3.small in the stack's subnets behind the cluster
   * group, and the output after the SSH outputs is its endpoint hostname.
   */
  lemma MysqlClusterOfPlan(inp: Inputs)
    requires EnvIsTrue(inp.env, "MYSQL")
    ensures var p := StackPlan(inp); var at := if EnvIsTrue(inp.env, "EC2") then inp.props.instanceCount else 0;
      && |p.clusters| >= 1 && at < |p.outputs|
      && p.clusters[0].constructId == "Mysql"
      && p.clusters[0].engine == AuroraMysql("VER_2_03_2")
      && p.clusters[0].username == "root"
      && p.clusters[0].instanceType == InstanceType("t3", "small")
      && p.clusters[0].vpc == p.vpc && p.clusters[0].subnets == p.subnets
      && p.clusters[0].securityGroups == [p.clusterSecurityGroup]
      && p.clusters[0].publiclyAccessible && p.clusters[0].deleteAutomatedBackups
      && p.clusters[0].defaultDatabaseName == "test_db"
      && p.clusters[0].backupRetentionDays == 1 && p.clusters[0].instances == 1
      && p.clusters[0].removalPolicy == Destroy
      && p.outputs[at] == Output("MysqlEndpoint", Interpolated("", Attr("Mysql", "ClusterEndpoint.Hostname")))
  {
    BlocksGated(inp);
    var p := StackPlan(inp);
    var e := Ec2Outputs(inp.env, EcsKeyPair().keyName, inp.props.instanceCount);
    var m := MysqlOutputs(inp.env, p.vpc, p.subnets, StackClusterSecurityGroup());
    assert p.outputs[|e|] == (e + m)[|e|] == m[0];
  }

  /**
   * With `POSTGRESQL` set to "true", the last cluster is the Aurora
   * PostgreSQL 13.4 cluster `Postgresql` on t3.medium with database
   * "peertube", and the last output is its endpoint hostname.
   */
  lemma PostgresqlClusterOfPlan(inp: Inputs)
    requires EnvIsTrue(inp.env, "POSTGRESQL")
    ensures var p := StackPlan(inp); var c := p.clusters[|p.clusters| - 1];
      && |p.clusters| >= 1 && |p.outputs| >= 1
      && c.constructId == "Postgresql"
      && c.engine == AuroraPostgres("VER_13_4")
      && c.username == "root"
      && c.instanceType == InstanceType("t3", "medium")
      && c.vpc == p.vpc && c.subnets == p.subnets
      && c.securityGroups == [p.clusterSecurityGroup]
      && c.publiclyAccessible && c.deleteAutomatedBackups
      && c.defaultDatabaseName == "peertube"
      && c.backupRetentionDays == 1 && c.instances == 1
      && c.removalPolicy == Destroy
      && p.outputs[|p.outputs| - 1]
         == Output("PostgresqlEndpoint", Interpolated("", Attr("Postgresql", "ClusterEndpoint.Hostname")))
  {
  }

  /** A cluster named `Mysql` (`Postgresql`) is declared exactly when its flag is "true". */
  lemma ClusterDeclaredIff(inp: Inputs)
    ensures var cs := StackPlan(inp).clusters;
      && ((exists c :: c in cs && c.constructId == "Mysql") <==> EnvIsTrue(inp.env, "MYSQL"))
      && ((exists c :: c in cs && c.constructId == "Postgresql") <==> EnvIsTrue(inp.env, "POSTGRESQL"))
  {
    var cs := StackPlan(inp).clusters;
    if EnvIsTrue(inp.env, "MYSQL") {
      assert cs[0] in cs;
    }
    if EnvIsTrue(inp.env, "POSTGRESQL") {
      assert cs[|cs| - 1] in cs;
    }
  }

  // ------------------------------------------------------------------ the rest

  /** The key pair is declared on every input, second after `ImportValues`. */
  lemma KeyPairAlwaysDeclared(inp: Inputs)
    ensures var p := StackPlan(inp);
      && p.keyPair == KeyPair("test-instance", "rsa")
      && |p.constructIds| >= 2 && p.constructIds[0] == "ImportValues" && p.constructIds[1] == "ECSKeyPair"
  {
  }
}
