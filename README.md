# Ec2Stack: a Dafny model

This project models the two constructors at the core of the `ec2` CDK
application:

- `ImportValues` (ec2/lib/import-values.ts) resolves the shared "Core" stack's
  exports into handles: the VPC, the internet gateway, the MySQL security
  group and the cluster security group. It copies `appId`, `maxAzs` and
  `instanceCount` from the props.
- `Ec2Stack` (ec2/lib/main-stack.ts) declares what a stack holds:
  - an RSA key pair;
  - one public subnet and one default route per zone, each with its /28 block
    `10.0.{appId}.{16 i}/28`;
  - a VPC handle that lists those subnets;
  - the ingress rules on the shared groups;
  - when the environment asks for them: development instances with SSH
    outputs, an Aurora MySQL cluster and an Aurora PostgreSQL cluster, each
    cluster with its endpoint output.

Both constructors are Dafny classes whose constructors change their fields
step by step, as the TypeScript does.

- `Ec2Stack`'s constructor calls one method per block of the source. The zone
  loop, the loop over the other groups and the instance loop are `while`
  loops.
- Its postcondition ties what it declared (`Declared()`) to the pure
  specification `MainStack.StackPlan`.
- The lemmas in `StackProperties`, `ConstructIds` and `SubnetAllocation` are
  about that specification, so they hold of every stack the constructor
  builds.

How the model stands for the outside world:

- Values known only at deployment (export imports, subnet ids, public IPs,
  endpoints) are `Cdk.Token` values.
- The process environment is a `map<string, string>`. A flag is on exactly
  when its key is present with the value `"true"`.
- The region's zone list and the machine image parameter from the AMI table
  are inputs.

The model follows the code. Where the code and the written design differ,
the code wins:

- No bound is checked on `appId` or `maxAzs`. The design asks for a
  configuration error; the stack writes whatever the template gives.
- TCP 5432 is opened on the cluster group whatever the flags say. The design
  ties it to the PostgreSQL flag.
- The application's own group is not created. It is a second handle on the
  shared export `Core-ClusterSecurityGroup`, imported under the id
  `ClusterSecurityGroup`. `ImportValues` imports the same export as
  `EcsSecurityGroup`.
- The design's failure on a missing shared resource happens at deployment,
  not in these constructors.

Two defects of the code are logged under "## Findings". The `Ec2Stack` model
keeps the code as written. The corrected definitions stand beside it with
their properties proved.

## Model

| member | source | states |
|---|---|---|
| `Imports.ImportValues.constructor` | ec2/lib/import-values.ts:21-40 | props copied; VPC handle on `Core-Vpc` with the stack's zones; gateway `Core-InternetGateway`; other groups are exactly [MySQL group, cluster group] in that order; the cluster group is the last other group; child ids `CoreVpc`, `MysqlSecurityGroup`, `EcsSecurityGroup`, distinct |
| `Imports.ImportValues.PushOtherSecurityGroup` | ec2/lib/import-values.ts:35-39 | `push` appends one group and keeps the earlier ones in order |
| `MainStack.Ec2Stack.constructor` | ec2/lib/main-stack.ts:22-133 | the stack declares exactly `StackPlan` of its id, props, zones, environment and image: key pair, subnets, routes, VPC handle, cluster group handle, ingress rules, instances, clusters, outputs and construct ids in declaration order |
| `MainStack.Ec2Stack.DeclareNetwork` | ec2/lib/main-stack.ts:32-55 | after the zone loop, the VPC import and the group import, the subnets, routes, VPC handle and group handle are those of the plan, and the ids grow by the loop's ids, `CoreVpc`, `ClusterSecurityGroup` |
| `MainStack.Ec2Stack.DeclareSubnets` | ec2/lib/main-stack.ts:34-48 | the zone loop appends subnet `i` and route `i` for every `i < maxAzs`, in zone order, and ids `Subnet<i>`, `PublicRouting<i>` |
| `MainStack.Ec2Stack.ImportVpc` | ec2/lib/main-stack.ts:49-54 | the VPC handle keeps the shared VPC id and zones and lists the subnets' ids and route tables in subnet order |
| `MainStack.Ec2Stack.ImportClusterSecurityGroup` | ec2/lib/main-stack.ts:55 | the stack's group handle wraps the export `Core-ClusterSecurityGroup` |
| `MainStack.Ec2Stack.DeclareSecurityRules` | ec2/lib/main-stack.ts:57-64 | the ingress rules are those of the plan, in the order added |
| `MainStack.Ec2Stack.AllowFromAnyIpv4` | ec2/lib/main-stack.ts:57-61 | a rule from any IPv4 on one TCP port is appended; nothing is removed |
| `MainStack.Ec2Stack.AllowClusterGroupIntoOthers` | ec2/lib/main-stack.ts:62-64 | one all-TCP rule from the cluster group is appended per other group, in list order; since `ImportValues` keeps its cluster group last (`Valid`), the last rule admits the stack's cluster group into that import |
| `MainStack.Ec2Stack.DeclareOptionalResources` | ec2/lib/main-stack.ts:66-131 | instances, clusters and outputs are the plan's; ids grow by the `EC2`, `MYSQL` and `POSTGRESQL` blocks' ids in that order |
| `MainStack.Ec2Stack.DeclareInstances` | ec2/lib/main-stack.ts:66-89 | with `EC2` "true", `instanceCount` instances and SSH outputs are appended in order; otherwise nothing changes |
| `MainStack.Ec2Stack.DeclareMysql` | ec2/lib/main-stack.ts:91-111 | with `MYSQL` "true", the MySQL cluster and its endpoint output are appended; otherwise nothing changes |
| `MainStack.Ec2Stack.DeclarePostgresql` | ec2/lib/main-stack.ts:112-131 | with `POSTGRESQL` "true", the PostgreSQL cluster and its endpoint output are appended; otherwise nothing changes |
| `Decimal.NatToString` | ec2/lib/main-stack.ts:35 | a number joined to a string is a non-empty numeral of digits with no leading zero |
| `Decimal.ParseNatToString` | ec2/lib/main-stack.ts:35 | reading the numeral back gives the number |
| `Decimal.NatToStringInjective` | ec2/lib/main-stack.ts:35 | two numbers have the same numeral if and only if they are equal |
| `Decimal.NumberedInjective` | ec2/lib/main-stack.ts:42 | `prefix + i` and `prefix + j` are equal if and only if `i == j` |
| `Cidr.SubnetCidrRendersBlock` | ec2/lib/main-stack.ts:38 | the subnet's CIDR text is the rendering of the block (10, 0, appId, 16 i, /28) |
| `Cidr.RenderInjective` | ec2/lib/main-stack.ts:38 | different blocks never render to the same text |
| `Cidr.SubnetCidrInjective` | ec2/lib/main-stack.ts:38 | two (application, zone) pairs get the same CIDR text if and only if they are the same pair |
| `Cidr.SubnetBlockWellFormedIff` | ec2/lib/main-stack.ts:38 | the zone's block is an aligned IPv4 /28 if and only if `appId <= 255` and the zone index is below 16 |
| `Cidr.SubnetBlocksDisjoint` | ec2/lib/main-stack.ts:38 | in range, blocks of different (application, zone) pairs share no address |
| `Cidr.ZoneBlockIsolated` | ec2/lib/main-stack.ts:34-38 | with `appId <= 255` and at most 16 zones, zone `i`'s block is valid and disjoint from the valid block of every other zone |
| `Cidr.SeventeenthZoneOverflows` | ec2/lib/main-stack.ts:34-38 | as written, zone 16 of application 7 gets "10.0.7.256/28": not a block, and its base is application 8's zone 0 |
| `StackProperties.NetworkCounts` | ec2/lib/main-stack.ts:34-54 | exactly `maxAzs` subnets, routes, listed subnet ids and listed route tables |
| `StackProperties.SubnetAndRouteOfZone` | ec2/lib/main-stack.ts:34-46 | subnet `i` is `Subnet<i>` in the shared VPC with block `10.0.{appId}.{16 i}/28` and public IPs on launch; route `i` is `PublicRouting<i>`, 0.0.0.0/0 from that subnet's route table to `Core-InternetGateway` |
| `StackProperties.SubnetZone` | ec2/lib/main-stack.ts:37 | subnet `i` is in the region's `i`-th zone when there is one, and in no zone past the end of the list |
| `StackProperties.SubnetCidrsDistinct` | ec2/lib/main-stack.ts:38 | no two subnets of a stack share a CIDR text |
| `StackProperties.SubnetBlocksOfPlan` | ec2/lib/main-stack.ts:38 | with `appId <= 255` and `maxAzs <= 16`, every subnet `i` (a one-zone stack included) has a text that renders an aligned /28, and that block shares no address with any other zone's valid block |
| `StackProperties.GrowingMaxAzsAppends` | ec2/lib/main-stack.ts:34-48 | raising `maxAzs` keeps every existing subnet and route unchanged and only appends |
| `StackProperties.VpcListsSubnets` | ec2/lib/main-stack.ts:49-54 | the VPC handle is `Core-Vpc` with the stack's zones and lists subnet `i`'s id and route table at position `i` |
| `StackProperties.IngressRulesListed` | ec2/lib/main-stack.ts:57-64 | the six ingress rules, in the order added |
| `StackProperties.WorldOpenPorts` | ec2/lib/main-stack.ts:57-61 | only the cluster group is open to any IPv4, and on exactly TCP 22, 3306 and 5432 |
| `StackProperties.OtherGroupsAdmitClusterGroup` | ec2/lib/main-stack.ts:62-64 | other group `i` admits all TCP from the stack's cluster group handle with "Allow from Dev EC2" at rule `4 + i` |
| `StackProperties.ClusterGroupAdmitsItself` | ec2/lib/main-stack.ts:61-64 | some all-TCP rule has the physical cluster group `Core-ClusterSecurityGroup` as both its target and its source |
| `StackProperties.BlocksGated` | ec2/lib/main-stack.ts:66-131 | `instanceCount` instances only when `EC2` is "true"; one cluster per flag set to "true"; one output per instance and per cluster |
| `StackProperties.InstanceOfPlan` | ec2/lib/main-stack.ts:68-85 | instance `i` is a t3a.micro `DevInstance0<i>` with the given image, key "test-instance", the EC2-assumed deployer role with the AdministratorAccess policy, an 8 GiB encrypted gp2 root volume and the cluster group |
| `StackProperties.SshOutputOfPlan` | ec2/lib/main-stack.ts:86-87 | output `SSH<i>` is "ssh -i test-instance.pem ec2-user@" followed by instance `i`'s public IP |
| `StackProperties.InstancesShareRole` | ec2/lib/main-stack.ts:68-79 | all instances carry the same role, and their ids differ |
| `StackProperties.MysqlClusterOfPlan` | ec2/lib/main-stack.ts:91-110 | with `MYSQL` "true", the first cluster is Aurora MySQL 2.03.2 `Mysql` (t3.small, user root, database test_db, backups 1 day, 1 instance, destroy) in the stack's subnets behind the cluster group; its endpoint output follows the SSH outputs |
| `StackProperties.PostgresqlClusterOfPlan` | ec2/lib/main-stack.ts:112-130 | with `POSTGRESQL` "true", the last cluster is Aurora PostgreSQL 13.4 `Postgresql` (t3.medium, database peertube) with the same settings, and the last output is its endpoint |
| `StackProperties.ClusterDeclaredIff` | ec2/lib/main-stack.ts:91-112 | a cluster named `Mysql` (`Postgresql`) exists if and only if its flag is "true" |
| `StackProperties.KeyPairAlwaysDeclared` | ec2/lib/main-stack.ts:27-30 | the key pair test-instance/rsa is declared on every input, second after `ImportValues` |
| `ConstructIds.SubnetLoopIdsDistinct` | ec2/lib/main-stack.ts:34-48 | the zone loop never repeats an id, for any number of zones |
| `ConstructIds.InstanceLoopIdsAt` | ec2/lib/main-stack.ts:68-88 | each instance turn declares, in order, `<id>AdministratorAccess`, `<id>DeployerSlaveRole`, `DevInstance0<i>`, `SSH<i>` |
| `ConstructIds.RepeatedPolicyId` | ec2/lib/main-stack.ts:74-77 | with `EC2` on and two or more instances, the second turn repeats the policy and role ids of the first |
| `ConstructIds.StackIdsDistinctIff` | ec2/lib/main-stack.ts:25-131 | the stack's ids are distinct if and only if the instance loop runs at most once |
| `ConstructIds.CorrectedStackIdsDistinct` | ec2/lib/main-stack.ts:68-88 | with the role declared once before the loop, and only when there is at least one instance, the ids are distinct for every input |
| `ConstructIds.CorrectedAgreesWhereDistinct` | ec2/lib/main-stack.ts:66-88 | wherever the stack's own ids are distinct (`EC2` off, or at most one instance, zero included), the corrected ids are the same list |
| `SubnetAllocation.CheckedSubnetBlocksSound` | ec2/lib/main-stack.ts:34-38 | the checked allocation succeeds if and only if `appId <= 255`, `maxAzs <= 16` and `maxAzs` is at most the zone count; success makes every block valid with a zone; a refusal names a zone that is not |
| `SubnetAllocation.CheckedBlockAt` | ec2/lib/main-stack.ts:34-38 | on success, the list has one block per zone, block `i` is zone `i`'s, valid, and disjoint from every other valid block of the list |
| `SubnetAllocation.CheckedBlocksMatchPlan` | ec2/lib/main-stack.ts:34-40 | on success, for every zone `i` (a one-zone stack included), block `i` renders to subnet `i`'s text, is valid, is disjoint from every other zone's valid block, and subnet `i` is in zone `i` |

## Left out

- Constructs made inside the construct library are not part of this model. This covers:
  - the route table of each public subnet;
  - the CloudFormation resources behind an ingress rule on an imported group;
  - the secret behind `rds.Credentials.fromUsername`.

  The model records what the stack asks for, not how the library realises it.
- `Stack.of(this).availabilityZones` depends on the deployment region, so the zone list is an input.
- The `AMIs.json` table lookup `amis['ec2-user'].amd64` is a file the model does not read, so the machine image parameter is an input.
- `process.env` is the process environment, so it is an input map.
- The bare expression `subnet.routeTable.routeTableId` (main-stack.ts:41) has no effect, so it is not modelled.
- The `hostedZone` field of `ImportValues` (import-values.ts:11) is never assigned, so it is not modelled.
- The `StackProps` fields beyond `appId`, `maxAzs` and `instanceCount`, and `super(scope, id, props)`, only configure the stack's environment, so they are not modelled.
- `Array(n)` throws `RangeError` for a negative or fractional `n` and for `n >= 2^32`. `maxAzs` and `instanceCount` are `nat` here, and no bound of 2^32 is modelled, so those inputs and that exception are not modelled.
- `appId` is a JavaScript `number` (main-stack.ts:17), interpolated at line 38 without a check. It is `nat` here, so a negative or fractional `appId` ("10.0.-3.0/28", "10.0.7.5.0/28") is not modelled, and `SubnetAllocation.CheckedSubnetBlocks` cannot refuse one either.
- Decimal.NatToString: renders every `nat` in positional digits; JavaScript switches to exponent form ("1e+21") from 10^21 on, so numbers of that size render differently from the source.
- MainStack.Ec2Stack.constructor: records the construct ids in order instead of stopping at the first repeated one, as the construct library would. `ConstructIds.StackIdsDistinctIff` states exactly when that stop happens.
- Synthesis, deployment and the failure of a missing shared export at deployment are outside the constructors, so they are not modelled.

## Findings

| source | as written | input that shows it | evidently intended | confidence | as-written member | corrected member |
|---|---|---|---|---|---|---|
| ec2/lib/main-stack.ts:34-38 | the block `10.0.${appId}.${azIndex * 16}/28` is written with no bound on `appId`, `maxAzs` or the zone count | `appId` 7, `maxAzs` 17: zone 16 gets "10.0.7.256/28", which is no IPv4 block and whose base address is that of application 8's first zone | refuse `appId > 255`, `maxAzs > 16` or more zones than the region has before declaring any subnet | not executed | `Cidr.SeventeenthZoneOverflows` | `SubnetAllocation.CheckedSubnetBlocksSound` |
| ec2/lib/main-stack.ts:74-77 | the deployer role and its managed-policy import are declared inside the per-instance loop under ids that do not depend on the instance | `EC2` "true", `instanceCount` 2: the second turn declares `<id>AdministratorAccess` again, which the construct library refuses | declare the role once, before the loop, and give it to every instance | not executed | `ConstructIds.RepeatedPolicyId` | `ConstructIds.CorrectedStackIdsDistinct` |
