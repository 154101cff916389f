/** Object names the operator derives from the cluster name and a node key. */
module Naming {

  const DRUID_DASH := "druid-"
  const DASH_DRUID := "-druid"

  /** The name of a node's workload, disruption budget, ingress and autoscaler. */
  function NodeName(cluster: string, key: string): string {
    "druid-" + cluster + "-" + key
  }

  function CommonConfigName(cluster: string): string {
    cluster + "-druid-common-config"
  }

  function NodeConfigName(cluster: string, key: string): string {
    NodeName(cluster, key) + "-config"
  }

  /** `s` is "druid" followed by zero or more "-druid". */
  predicate DruidChain(s: string)
    decreases |s|
  {
    s == "druid" || (|s| >= 6 && s[..6] == DRUID_DASH && DruidChain(s[6..]))
  }

  lemma ConcatCancel(a: string, b: string, c: string, d: string)
    requires a + b == c + d
    requires |a| == |c|
    ensures a == c && b == d
  {
    assert a == (a + b)[..|a|] == (c + d)[..|c|] == c;
    assert b == (a + b)[|a|..] == (c + d)[|c|..] == d;
  }

  /** The word equation behind the clash: the solutions are the druid chains. */
  lemma {:induction false} ChainEquation(s: string)
    ensures s + DASH_DRUID == DRUID_DASH + s <==> DruidChain(s)
    decreases |s|
  {
    if |s| < 6 {
      if s + DASH_DRUID == DRUID_DASH + s {
        ShortChain(s);
      }
    } else if s[..6] == DRUID_DASH {
      var t := s[6..];
      assert s == DRUID_DASH + t;
      ChainEquation(t);
      assert s + DASH_DRUID == DRUID_DASH + (t + DASH_DRUID);
      if s + DASH_DRUID == DRUID_DASH + s {
        ConcatCancel(DRUID_DASH, t + DASH_DRUID, DRUID_DASH, s);
      }
    } else {
      assert (s + DASH_DRUID)[..6] == s[..6];
      assert (DRUID_DASH + s)[..6] == DRUID_DASH;
    }
  }

  lemma ShortChain(s: string)
    requires |s| < 6
    requires s + DASH_DRUID == DRUID_DASH + s
    ensures s == "druid"
  {
    var l, r := s + DASH_DRUID, DRUID_DASH + s;
    assert l[|s|] == '-' && r[|s|] == DRUID_DASH[|s|];
    assert DRUID_DASH[0] == 'd' && DRUID_DASH[1] == 'r' && DRUID_DASH[2] == 'u' && DRUID_DASH[3] == 'i' &&
           DRUID_DASH[4] == 'd';
    assert |s| == 5;
    assert s == l[..5] == r[..5] == "druid";
  }

  /** The common map takes a node map's name in one family of names and in no other case. */
  lemma CommonNodeClash(cluster: string, key: string)
    ensures CommonConfigName(cluster) == NodeConfigName(cluster, key) <==> key == "common" && DruidChain(cluster)
  {
    var tail := "-config";
    assert CommonConfigName(cluster) == cluster + DASH_DRUID + "-common" + tail;
    assert NodeConfigName(cluster, key) == DRUID_DASH + cluster + ("-" + key) + tail;
    ChainEquation(cluster);
    if CommonConfigName(cluster) == NodeConfigName(cluster, key) {
      var a, b := cluster + DASH_DRUID + "-common", DRUID_DASH + cluster + ("-" + key);
      assert |a + tail| == |b + tail|;
      ConcatCancel(a, tail, b, tail);
      ConcatCancel(cluster + DASH_DRUID, "-common", DRUID_DASH + cluster, "-" + key);
      assert key == ("-" + key)[1..] == "-common"[1..] == "common";
    }
    if key == "common" {
      assert "-" + key == "-common";
    }
  }

  /** Within one cluster, a node's name determines its key. */
  lemma NodeNameInjective(cluster: string, key1: string, key2: string)
    ensures NodeName(cluster, key1) == NodeName(cluster, key2) <==> key1 == key2
    ensures NodeConfigName(cluster, key1) == NodeConfigName(cluster, key2) <==> key1 == key2
  {
    var p := "druid-" + cluster + "-";
    if NodeName(cluster, key1) == NodeName(cluster, key2) {
      ConcatCancel(p, key1, p, key2);
    }
    if NodeConfigName(cluster, key1) == NodeConfigName(cluster, key2) {
      var n1, n2 := NodeName(cluster, key1), NodeName(cluster, key2);
      assert |n1 + "-config"| == |n2 + "-config"|;
      ConcatCancel(n1, "-config", n2, "-config");
      ConcatCancel(p, key1, p, key2);
    }
  }

  /** Clusters `longer` and `shorter` of one namespace share a node name exactly when the longer
      cluster name is the shorter one, a dash and a head `x` of the shorter cluster's key. */
  lemma NodeNameClashAcrossClusters(longer: string, key1: string, shorter: string, key2: string)
    requires |longer| > |shorter|
    ensures NodeName(longer, key1) == NodeName(shorter, key2) <==>
            exists x: string :: longer == shorter + "-" + x && key2 == x + "-" + key1
  {
    if NodeName(longer, key1) == NodeName(shorter, key2) {
      var l, r := longer + ("-" + key1), shorter + ("-" + key2);
      assert NodeName(longer, key1) == "druid-" + l && NodeName(shorter, key2) == "druid-" + r;
      ConcatCancel("druid-", l, "druid-", r);
      var x := longer[|shorter| + 1..];
      assert shorter == r[..|shorter|] == l[..|shorter|] == longer[..|shorter|];
      assert longer[|shorter|] == l[|shorter|] == r[|shorter|] == '-';
      assert longer == shorter + "-" + x;
      assert key2 == r[|shorter| + 1..] == l[|shorter| + 1..] == x + ("-" + key1) == x + "-" + key1;
    }
    forall x: string | longer == shorter + "-" + x && key2 == x + "-" + key1
      ensures NodeName(longer, key1) == NodeName(shorter, key2)
    {
      assert NodeName(longer, key1) == "druid-" + shorter + "-" + (x + "-" + key1);
    }
  }
}
