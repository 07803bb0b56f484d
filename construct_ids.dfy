/**
 * Uniqueness of the construct ids the stack declares in its own scope.
 *
 * The construct library refuses a second child with an id already taken in
 * the same scope, so synthesis of `Ec2Stack` succeeds only if the ids it
 * declares are pairwise different. The instance loop of
 * ec2/lib/main-stack.ts:68-88 declares the deployer role and the managed
 * policy import under ids that do not depend on the instance, so a second
 * instance repeats both. `CorrectedStackIds` declares them once, before
 * the loop; its ids are distinct for every input.
 */
module ConstructIds {
  import opened Basics
  import opened Decimal
  import opened MainStack

  predicate StartsWith(x: string, p: string)
  {
    |p| <= |x| && x[..|p|] == p
  }

  predicate EndsInDigit(x: string)
  {
    |x| > 0 && IsDigit(x[|x| - 1])
  }

  /** The ids the stack and its blocks declare under fixed names. */
  const FixedIds: seq<string> := ["ImportValues", "ECSKeyPair", "CoreVpc", "ClusterSecurityGroup",
    "Mysql", "MysqlEndpoint", "Postgresql", "PostgresqlEndpoint"]

  /** `p + i` then `q + i` for each `i` below `n`, the way a loop declares two numbered constructs per turn. */
  function NumberedPairs(p: string, q: string, n: nat): seq<string>
  {
    if n == 0 then [] else NumberedPairs(p, q, n - 1) + [p + NatToString(n - 1), q + NatToString(n - 1)]
  }

  /** What an id of a numbered pair looks like: one of the two prefixes, then a numeral. */
  predicate NumberedShape(p: string, q: string, x: string)
  {
    EndsInDigit(x) && (StartsWith(x, p) || StartsWith(x, q))
  }

  /** What an id of the `EC2` block looks like. */
  predicate Ec2Shape(stackId: string, x: string)
  {
    || x == stackId + "AdministratorAccess"
    || x == stackId + "DeployerSlaveRole"
    || NumberedShape("DevInstance0", "SSH", x)
  }

  // ------------------------------------------------------------ generic facts

  lemma DistinctAppend<T>(a: seq<T>, b: seq<T>)
    requires Distinct(a) && Distinct(b)
    requires forall x :: x in a ==> x !in b
    ensures Distinct(a + b)
  {
    forall i, j | 0 <= i < j < |a + b|
      ensures (a + b)[i] != (a + b)[j]
    {
      if i < |a| && |a| <= j {
        assert (a + b)[i] == a[i];
        assert (a + b)[j] == b[j - |a|];
        assert a[i] in a;
      } else if |a| <= i {
        assert (a + b)[i] == b[i - |a|] && (a + b)[j] == b[j - |a|];
      }
    }
  }

  lemma NumberedStartsWith(p: string, n: nat)
    ensures StartsWith(p + NatToString(n), p) && EndsInDigit(p + NatToString(n))
  {
    NumberedEndsInDigit(p, n);
    assert (p + NatToString(n))[..|p|] == p;
  }

  /** A string cannot start with two prefixes that differ at a position both have. */
  lemma PrefixesExclusive(x: string, p: string, q: string, k: nat)
    requires k < |p| && k < |q| && p[k] != q[k]
    ensures !(StartsWith(x, p) && StartsWith(x, q))
  {
    if StartsWith(x, p) {
      assert x[k] == p[k];
    }
  }

  /** A string ending in `suffix` ends in its last character and is at least as long. */
  lemma SuffixLast(stackId: string, suffix: string)
    requires |suffix| > 0
    ensures var s := stackId + suffix; |s| >= |suffix| && s[|s| - 1] == suffix[|suffix| - 1]
  {
  }

  // ---------------------------------------------------------- numbered pairs

  lemma {:induction false} NumberedPairsAt(p: string, q: string, n: nat, k: nat)
    requires k < n
    ensures |NumberedPairs(p, q, n)| == 2 * n
    ensures NumberedPairs(p, q, n)[2 * k] == p + NatToString(k)
    ensures NumberedPairs(p, q, n)[2 * k + 1] == q + NatToString(k)
  {
    if k < n - 1 {
      NumberedPairsAt(p, q, n - 1, k);
    } else {
      NumberedPairsLength(p, q, n - 1);
    }
  }

  lemma {:induction false} NumberedPairsLength(p: string, q: string, n: nat)
    ensures |NumberedPairs(p, q, n)| == 2 * n
  {
    if n > 0 {
      NumberedPairsLength(p, q, n - 1);
    }
  }

  /** Every id of a numbered pair has its shape. */
  lemma NumberedPairsShape(p: string, q: string, n: nat, x: string)
    requires x in NumberedPairs(p, q, n)
    ensures NumberedShape(p, q, x)
  {
    NumberedPairsLength(p, q, n);
    var i :| 0 <= i < |NumberedPairs(p, q, n)| && NumberedPairs(p, q, n)[i] == x;
    NumberedPairsAt(p, q, n, i / 2);
    NumberedStartsWith(p, i / 2);
    NumberedStartsWith(q, i / 2);
  }

  /** Two prefixes that differ somewhere give distinct ids across all turns. */
  lemma NumberedPairsDistinct(p: string, q: string, n: nat, d: nat)
    requires d < |p| && d < |q| && p[d] != q[d]
    ensures Distinct(NumberedPairs(p, q, n))
  {
    var s := NumberedPairs(p, q, n);
    NumberedPairsLength(p, q, n);
    forall i, j | 0 <= i < j < |s|
      ensures s[i] != s[j]
    {
      NumberedPairsAt(p, q, n, i / 2);
      NumberedPairsAt(p, q, n, j / 2);
      if i % 2 == j % 2 {
        var r := if i % 2 == 0 then p else q;
        assert s[i] == r + NatToString(i / 2) && s[j] == r + NatToString(j / 2);
        NumberedInjective(r, i / 2, j / 2);
      } else {
        NumberedStartsWith(p, i / 2);
        NumberedStartsWith(q, i / 2);
        NumberedStartsWith(p, j / 2);
        NumberedStartsWith(q, j / 2);
        PrefixesExclusive(s[i], p, q, d);
      }
    }
  }

  /** The zone loop's ids are the numbered pairs `Subnet<i>`, `PublicRouting<i>`. */
  lemma {:induction false} SubnetLoopIdsArePairs(n: nat)
    ensures SubnetLoopIds(n) == NumberedPairs("Subnet", "PublicRouting", n)
  {
    if n > 0 {
      SubnetLoopIdsArePairs(n - 1);
    }
  }

  /** The zone loop never declares an id twice, for any number of zones. */
  lemma SubnetLoopIdsDistinct(n: nat)
    ensures Distinct(SubnetLoopIds(n))
  {
    SubnetLoopIdsArePairs(n);
    NumberedPairsDistinct("Subnet", "PublicRouting", n, 0);
  }

  // --------------------------------------------------------------- id classes

  /** A fixed id is neither numbered nor made from the stack id. */
  lemma FixedIdIsolated(stackId: string, c: string)
    requires c in FixedIds
    ensures !EndsInDigit(c)
    ensures !Ec2Shape(stackId, c)
  {
    SuffixLast(stackId, "AdministratorAccess");
    SuffixLast(stackId, "DeployerSlaveRole");
  }

  /** The zone loop's ids are not ids of the `EC2` block. */
  lemma NetworkIdIsolated(stackId: string, x: string)
    requires NumberedShape("Subnet", "PublicRouting", x)
    ensures !Ec2Shape(stackId, x)
  {
    SuffixLast(stackId, "AdministratorAccess");
    SuffixLast(stackId, "DeployerSlaveRole");
    PrefixesExclusive(x, "Subnet", "DevInstance0", 0);
    PrefixesExclusive(x, "Subnet", "SSH", 1);
    PrefixesExclusive(x, "PublicRouting", "DevInstance0", 0);
    PrefixesExclusive(x, "PublicRouting", "SSH", 0);
  }

  /** The ids declared before the optional blocks. */
  function HeadIds(n: nat): seq<string>
  {
    ["ImportValues"] + ["ECSKeyPair"] + SubnetLoopIds(n) + ["CoreVpc"] + ["ClusterSecurityGroup"]
  }

  lemma HeadIdsDistinct(n: nat)
    ensures Distinct(HeadIds(n))
  {
    var s := SubnetLoopIds(n);
    SubnetLoopIdsDistinct(n);
    SubnetLoopIdsArePairs(n);
    forall x | x in s
      ensures EndsInDigit(x)
    {
      NumberedPairsShape("Subnet", "PublicRouting", n, x);
    }
    var a1 := ["ImportValues"] + ["ECSKeyPair"];
    assert !EndsInDigit("ImportValues") && !EndsInDigit("ECSKeyPair");
    DistinctAppend(a1, s);
    assert !EndsInDigit("CoreVpc");
    DistinctAppend(a1 + s, ["CoreVpc"]);
    assert !EndsInDigit("ClusterSecurityGroup");
    DistinctAppend(a1 + s + ["CoreVpc"], ["ClusterSecurityGroup"]);
  }

  /** No id before the optional blocks is an id of one of them. */
  lemma HeadIdIsolated(stackId: string, n: nat, x: string)
    requires x in HeadIds(n)
    ensures !Ec2Shape(stackId, x) && x !in ["Mysql", "MysqlEndpoint", "Postgresql", "PostgresqlEndpoint"]
  {
    if x in SubnetLoopIds(n) {
      SubnetLoopIdsArePairs(n);
      NumberedPairsShape("Subnet", "PublicRouting", n, x);
      NetworkIdIsolated(stackId, x);
    } else {
      FixedIdIsolated(stackId, x);
    }
  }

  /**
   * The layout of `StackIds` with any list `e` standing for the `EC2`
   * block: distinct as soon as `e` is distinct and made of `EC2`-block ids.
   */
  lemma LayoutDistinct(stackId: string, n: nat, e: seq<string>, env: map<string, string>)
    requires Distinct(e)
    requires forall x :: x in e ==> Ec2Shape(stackId, x)
    ensures Distinct(HeadIds(n) + e + MysqlIds(env) + PostgresqlIds(env))
  {
    var h := HeadIds(n);
    HeadIdsDistinct(n);
    forall x | x in h
      ensures !Ec2Shape(stackId, x) && x !in ["Mysql", "MysqlEndpoint", "Postgresql", "PostgresqlEndpoint"]
    {
      HeadIdIsolated(stackId, n, x);
    }
    DistinctAppend(h, e);
    var m := MysqlIds(env);
    var p := PostgresqlIds(env);
    forall y | y in m + p
      ensures !Ec2Shape(stackId, y)
    {
      FixedIdIsolated(stackId, y);
    }
    DistinctAppend(h + e, m);
    DistinctAppend(h + e + m, p);
  }

  // ----------------------------------------------------------- as written

  lemma {:induction false} InstanceLoopIdsAt(stackId: string, n: nat, k: nat)
    requires k < n
    ensures |InstanceLoopIds(stackId, n)| == 4 * n
    ensures InstanceLoopIds(stackId, n)[4 * k] == stackId + "AdministratorAccess"
    ensures InstanceLoopIds(stackId, n)[4 * k + 1] == stackId + "DeployerSlaveRole"
    ensures InstanceLoopIds(stackId, n)[4 * k + 2] == InstanceConstructId(k)
    ensures InstanceLoopIds(stackId, n)[4 * k + 3] == "SSH" + NatToString(k)
  {
    if k < n - 1 {
      InstanceLoopIdsAt(stackId, n - 1, k);
    } else {
      InstanceLoopIdsLength(stackId, n - 1);
    }
  }

  lemma {:induction false} InstanceLoopIdsLength(stackId: string, n: nat)
    ensures |InstanceLoopIds(stackId, n)| == 4 * n
  {
    if n > 0 {
      InstanceLoopIdsLength(stackId, n - 1);
    }
  }

  /**
   * With `EC2` set and two instances or more, the second turn of the
   * instance loop declares the managed-policy import's id again.
   */
  lemma RepeatedPolicyId(inp: Inputs)
    requires EnvIsTrue(inp.env, "EC2") && inp.props.instanceCount >= 2
    ensures var ids := StackIds(inp); var at := 2 * inp.props.maxAzs + 4;
      && at + 5 < |ids|
      && ids[at] == ids[at + 4] == inp.id + "AdministratorAccess"
      && ids[at + 1] == ids[at + 5] == inp.id + "DeployerSlaveRole"
  {
    var n := inp.props.instanceCount;
    var e := InstanceLoopIds(inp.id, n);
    InstanceLoopIdsAt(inp.id, n, 0);
    InstanceLoopIdsAt(inp.id, n, 1);
    SubnetLoopIdsArePairs(inp.props.maxAzs);
    NumberedPairsLength("Subnet", "PublicRouting", inp.props.maxAzs);
    var a := HeadIds(inp.props.maxAzs);
    var rest := MysqlIds(inp.env) + PostgresqlIds(inp.env);
    assert StackIds(inp) == a + e + rest;
    var at := |a|;
    forall t | 0 <= t < 6
      ensures StackIds(inp)[at + t] == e[t]
    {
      assert (a + e + rest)[at + t] == (a + e)[at + t] == e[t];
    }
  }

  /** One turn of the instance loop declares four distinct ids of the `EC2` block. */
  lemma SingleInstanceIds(stackId: string, n: nat)
    requires n <= 1
    ensures Distinct(InstanceLoopIds(stackId, n))
    ensures forall x :: x in InstanceLoopIds(stackId, n) ==> Ec2Shape(stackId, x)
  {
    if n == 1 {
      var e := InstanceLoopIds(stackId, 1);
      InstanceLoopIdsAt(stackId, 1, 0);
      assert e == [e[0], e[1], e[2], e[3]];
      NumberedStartsWith("DevInstance0", 0);
      NumberedStartsWith("SSH", 0);
      SuffixLast(stackId, "AdministratorAccess");
      SuffixLast(stackId, "DeployerSlaveRole");
      PrefixesExclusive(e[2], "DevInstance0", "SSH", 0);
    }
  }

  /**
   * The stack's ids are distinct exactly when the instance loop runs at
   * most once: otherwise construction stops at the repeated id.
   */
  lemma StackIdsDistinctIff(inp: Inputs)
    ensures Distinct(StackIds(inp)) <==> !(EnvIsTrue(inp.env, "EC2") && inp.props.instanceCount >= 2)
  {
    if EnvIsTrue(inp.env, "EC2") && inp.props.instanceCount >= 2 {
      RepeatedPolicyId(inp);
    } else {
      var e := Ec2Ids(inp.env, inp.id, inp.props.instanceCount);
      if e != [] {
        SingleInstanceIds(inp.id, inp.props.instanceCount);
      }
      assert StackIds(inp) == HeadIds(inp.props.maxAzs) + e + MysqlIds(inp.env) + PostgresqlIds(inp.env);
      LayoutDistinct(inp.id, inp.props.maxAzs, e, inp.env);
    }
  }

  // ------------------------------------------------------------- corrected

  /**
   * The `EC2` block with the role and its policy import declared once,
   * before the loop, and only when there is an instance to give it to.
   */
  function CorrectedEc2Ids(env: map<string, string>, stackId: string, n: nat): seq<string>
  {
    if EnvIsTrue(env, "EC2") && n > 0
    then [stackId + "AdministratorAccess", stackId + "DeployerSlaveRole"] + NumberedPairs("DevInstance0", "SSH", n)
    else []
  }

  function CorrectedStackIds(inp: Inputs): seq<string>
  {
    ["ImportValues"] + ["ECSKeyPair"]
      + SubnetLoopIds(inp.props.maxAzs) + ["CoreVpc"] + ["ClusterSecurityGroup"]
      + CorrectedEc2Ids(inp.env, inp.id, inp.props.instanceCount) + MysqlIds(inp.env) + PostgresqlIds(inp.env)
  }

  /** With the shared role hoisted out of the loop, no input repeats an id. */
  lemma CorrectedStackIdsDistinct(inp: Inputs)
    ensures Distinct(CorrectedStackIds(inp))
  {
    var n := inp.props.instanceCount;
    var e := CorrectedEc2Ids(inp.env, inp.id, n);
    if EnvIsTrue(inp.env, "EC2") && n > 0 {
      var head := [inp.id + "AdministratorAccess", inp.id + "DeployerSlaveRole"];
      var loop := NumberedPairs("DevInstance0", "SSH", n);
      SuffixLast(inp.id, "AdministratorAccess");
      SuffixLast(inp.id, "DeployerSlaveRole");
      NumberedPairsDistinct("DevInstance0", "SSH", n, 0);
      forall x | x in loop
        ensures NumberedShape("DevInstance0", "SSH", x)
      {
        NumberedPairsShape("DevInstance0", "SSH", n, x);
      }
      DistinctAppend(head, loop);
    }
    assert CorrectedStackIds(inp) == HeadIds(inp.props.maxAzs) + e + MysqlIds(inp.env) + PostgresqlIds(inp.env);
    LayoutDistinct(inp.id, inp.props.maxAzs, e, inp.env);
  }

  /**
   * The correction changes nothing on the inputs the stack already handles:
   * wherever its ids are distinct, the corrected ids are the same list.
   */
  lemma CorrectedAgreesWhereDistinct(inp: Inputs)
    requires !(EnvIsTrue(inp.env, "EC2") && inp.props.instanceCount >= 2)
    ensures CorrectedStackIds(inp) == StackIds(inp)
  {
    var n := inp.props.instanceCount;
    if EnvIsTrue(inp.env, "EC2") && n == 1 {
      var e := InstanceLoopIds(inp.id, 1);
      InstanceLoopIdsAt(inp.id, 1, 0);
      NumberedPairsAt("DevInstance0", "SSH", 1, 0);
      assert e == [e[0], e[1], e[2], e[3]];
      assert CorrectedEc2Ids(inp.env, inp.id, n) == Ec2Ids(inp.env, inp.id, n);
    }
  }
}
