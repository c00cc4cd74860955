/**
 * The lists `resourceKopsCreate` builds in loops (kops/resource_kops_cluster.go):
 * one public subnet per distinct zone, the master instance groups spread
 * round-robin over the master zones, one etcd cluster per etcd name with one
 * member per master, and the single `nodes` group and optional bastion group.
 */
module InstanceGroups {
  import opened GoStrings
  import opened KopsApi

  // ---------------------------------------------------------------------
  // Subnets

  /** The zones of `zones` without repeats, each where it first occurs. */
  function FirstOccurrences(zones: seq<string>): (d: seq<string>)
    ensures forall z :: z in d <==> z in zones
    ensures forall i, j :: 0 <= i < j < |d| ==> d[i] != d[j]
    decreases |zones|
  {
    if |zones| == 0 then []
    else
      var init := FirstOccurrences(zones[..|zones| - 1]);
      var z := zones[|zones| - 1];
      assert forall y :: y in zones <==> y in zones[..|zones| - 1] || y == z;
      if z in init then init else init + [z]
  }

  /** The public subnet of each distinct zone, named after the zone, in first-occurrence order. */
  function SubnetsFor(zones: seq<string>): seq<Subnet> {
    var d := FirstOccurrences(zones);
    seq(|d|, i requires 0 <= i < |d| => Subnet(d[i], d[i], SubnetPublic))
  }

  /** The subnet loop, with its `keys` map of the zones already seen. */
  method BuildSubnets(subnetZones: seq<string>) returns (subnets: seq<Subnet>)
    ensures subnets == SubnetsFor(subnetZones)
  {
    var keys: map<string, bool> := map[];
    subnets := [];
    for i := 0 to |subnetZones|
      invariant forall z :: z in keys <==> z in subnetZones[..i]
      invariant subnets == SubnetsFor(subnetZones[..i])
    {
      var subnetZone := subnetZones[i];
      assert subnetZones[..i + 1][..i] == subnetZones[..i];
      if subnetZone !in keys {
        keys := keys[subnetZone := true];
        subnets := subnets + [Subnet(subnetZone, subnetZone, SubnetPublic)];
      }
    }
    assert subnetZones[..|subnetZones|] == subnetZones;
  }

  /** `zones[k]` is the first occurrence of `z`. */
  ghost predicate FirstAt(zones: seq<string>, z: string, k: int) {
    0 <= k < |zones| && zones[k] == z && z !in zones[..k]
  }

  /** The distinct zones appear in the order of their first occurrences. */
  lemma {:induction false} FirstOccurrenceOrder(zones: seq<string>, i: int, j: int, a: int, b: int)
    requires 0 <= i < j < |FirstOccurrences(zones)|
    requires FirstAt(zones, FirstOccurrences(zones)[i], a) && FirstAt(zones, FirstOccurrences(zones)[j], b)
    ensures a < b
    decreases |zones|
  {
    var init, z := zones[..|zones| - 1], zones[|zones| - 1];
    var d, d' := FirstOccurrences(zones), FirstOccurrences(init);
    assert forall k :: 0 <= k < |init| ==> init[..k] == zones[..k];
    // d[i] is not d's last element, so it was already among the distinct zones of init
    assert d[i] in d' by {
      if z !in d' {
        assert d == d' + [z] && i < |d'|;
        assert d[i] == d'[i];
      }
    }
    assert zones[..|init|] == init;
    if b == |zones| - 1 {
      assert a < b;
    } else {
      assert FirstAt(init, d[i], a) && FirstAt(init, d[j], b);
      if z !in d' {
        assert d[i] == d'[i] && d[j] == d'[j];
      }
      FirstOccurrenceOrder(init, i, j, a, b);
    }
  }

  /** The subnets: one per distinct zone, none repeated, each public and named after its zone. */
  lemma SubnetsCoverZones(zones: seq<string>)
    ensures var s := SubnetsFor(zones);
      && (forall z :: z in zones <==> exists i :: 0 <= i < |s| && s[i].zone == z)
      && (forall i :: 0 <= i < |s| ==> s[i].name == s[i].zone && s[i].subnetType == SubnetPublic)
      && (forall i, j :: 0 <= i < j < |s| ==> s[i].name != s[j].name)
  {
    var d := FirstOccurrences(zones);
    var s := SubnetsFor(zones);
    forall z | z in zones ensures exists i :: 0 <= i < |s| && s[i].zone == z {
      var i :| 0 <= i < |d| && d[i] == z;
      assert s[i].zone == z;
    }
  }

  /** `["a", "b", "a", "c"]` gives subnets a, b and c. */
  lemma SubnetsExample()
    ensures SubnetsFor(["a", "b", "a", "c"]) ==
      [Subnet("a", "a", SubnetPublic), Subnet("b", "b", SubnetPublic), Subnet("c", "c", SubnetPublic)]
  {
    var a, b, c := "a", "b", "c";
    assert a != b && c != a && c != b by {
      assert a[0] != b[0] && c[0] != a[0] && c[0] != b[0];
    }
    var s1, s2, s3, s4 := [a], [a, b], [a, b, a], [a, b, a, c];
    assert s1[..0] == [] && s2[..1] == s1 && s3[..2] == s2 && s4[..3] == s3;
    assert FirstOccurrences(s1) == [a] by {
      assert FirstOccurrences(s1) == FirstOccurrences([]) + [a];
    }
    assert FirstOccurrences(s2) == [a, b] by {
      assert b !in [a];
      assert FirstOccurrences(s2) == FirstOccurrences(s1) + [b];
    }
    assert FirstOccurrences(s3) == [a, b];
    assert FirstOccurrences(s4) == [a, b, c] by {
      assert c !in [a, b];
      assert FirstOccurrences(s4) == FirstOccurrences(s3) + [c];
    }
  }

  // ---------------------------------------------------------------------
  // Masters

  /** The number of master groups: the requested count, or none if it is not positive. */
  function MasterGroupCount(masterCount: int): nat {
    if masterCount > 0 then masterCount else 0
  }

  /**
   * The zone of master `i`, and its name: "master-" and the zone, followed by
   * "-" and its round (counted from 1) when there are more masters than zones.
   */
  function MasterZone(zones: seq<string>, i: nat): string
    requires |zones| > 0
  {
    zones[i % |zones|]
  }

  function MasterName(zones: seq<string>, masterCount: int, i: nat): string
    requires |zones| > 0
  {
    "master-" + MasterZone(zones, i) + (if masterCount > |zones| then "-" + Itoa(1 + i / |zones|) else "")
  }

  /** The instance group of master `i`. */
  function MasterGroup(cfg: Config, i: nat): InstanceGroup
    requires |cfg.masterZones| > 0
  {
    InstanceGroup(
      name := MasterName(cfg.masterZones, cfg.masterCount, i),
      role := Master,
      image := cfg.image,
      machineType := cfg.masterSize,
      rootVolumeSize := Some(Int32(cfg.masterVolumeSize)),
      subnets := [MasterZone(cfg.masterZones, i)],
      associatePublicIp := Some(cfg.associatePublicIp),
      minSize := None,
      maxSize := None)
  }

  /** The master loop: one group per master, in order. */
  method BuildMasters(cfg: Config) returns (masters: seq<InstanceGroup>)
    requires |cfg.masterZones| > 0
    ensures |masters| == MasterGroupCount(cfg.masterCount)
    ensures forall i :: 0 <= i < |masters| ==> masters[i] == MasterGroup(cfg, i)
  {
    masters := [];
    var i := 0;
    while i < cfg.masterCount
      invariant 0 <= i == |masters| <= MasterGroupCount(cfg.masterCount)
      invariant forall k :: 0 <= k < i ==> masters[k] == MasterGroup(cfg, k)
    {
      var zone := cfg.masterZones[i % |cfg.masterZones|];
      var name := zone;
      if cfg.masterCount > |cfg.masterZones| {
        name := name + "-" + Itoa(1 + i / |cfg.masterZones|);
      }
      var master := InstanceGroup(
        name := "master-" + name,
        role := Master,
        image := cfg.image,
        machineType := cfg.masterSize,
        rootVolumeSize := Some(Int32(cfg.masterVolumeSize)),
        subnets := [cfg.masterZones[i % |cfg.masterZones|]],
        associatePublicIp := Some(cfg.associatePublicIp),
        minSize := None,
        maxSize := None);
      masters := masters + [master];
      i := i + 1;
    }
  }

  /** `z + "-" + d` splits back into `z` and `d` when `d` has no dash. */
  lemma DashSuffix(z1: string, d1: string, z2: string, d2: string)
    requires '-' !in d1 && '-' !in d2
    requires z1 + "-" + d1 == z2 + "-" + d2
    ensures z1 == z2 && d1 == d2
  {
    var s := z1 + "-" + d1;
    assert s[|z1|] == '-' && s[|z2|] == '-';
    assert |d1| == |d2|;
    assert z1 == s[..|z1|] == z2;
    assert d1 == s[|z1| + 1..] == d2;
  }

  lemma DigitsHaveNoDash(n: nat)
    ensures '-' !in Itoa(n)
  {
  }

  lemma DivModDetermine(i: nat, j: nat, n: nat)
    requires n > 0 && i / n == j / n && i % n == j % n
    ensures i == j
  {
  }

  /** With more masters than zones, two masters share a name only if they are the same master. */
  lemma RoundNamesDistinct(zones: seq<string>, masterCount: int, i: nat, j: nat)
    requires |zones| > 0 && masterCount > |zones|
    requires forall a, b :: 0 <= a < b < |zones| ==> zones[a] != zones[b]
    requires MasterName(zones, masterCount, i) == MasterName(zones, masterCount, j)
    ensures i == j
  {
    var n := |zones|;
    var zi, zj := "master-" + MasterZone(zones, i), "master-" + MasterZone(zones, j);
    var di, dj := Itoa(1 + i / n), Itoa(1 + j / n);
    assert zi + "-" + di == MasterName(zones, masterCount, i);
    assert zj + "-" + dj == MasterName(zones, masterCount, j);
    DigitsHaveNoDash(1 + i / n);
    DigitsHaveNoDash(1 + j / n);
    DashSuffix(zi, di, zj, dj);
    ItoaInjective(1 + i / n, 1 + j / n);
    assert zones[i % n] == zi[7..] == zj[7..] == zones[j % n];
    DivModDetermine(i, j, n);
  }

  /** With distinct master zones, all master names are distinct. */
  lemma MasterNamesDistinct(zones: seq<string>, masterCount: int, i: nat, j: nat)
    requires |zones| > 0
    requires forall a, b :: 0 <= a < b < |zones| ==> zones[a] != zones[b]
    requires i < j < MasterGroupCount(masterCount)
    ensures MasterName(zones, masterCount, i) != MasterName(zones, masterCount, j)
  {
    var n := |zones|;
    if masterCount > n {
      if MasterName(zones, masterCount, i) == MasterName(zones, masterCount, j) {
        RoundNamesDistinct(zones, masterCount, i, j);
      }
    } else {
      NameWithoutRound(zones, masterCount, i);
      NameWithoutRound(zones, masterCount, j);
    }
  }

  /** With no more masters than zones, master `i` is named after zone `i` alone. */
  lemma NameWithoutRound(zones: seq<string>, masterCount: int, i: nat)
    requires 0 < |zones| && i < masterCount <= |zones|
    ensures MasterName(zones, masterCount, i)[7..] == zones[i]
  {
    assert i % |zones| == i;
    assert MasterName(zones, masterCount, i) == "master-" + zones[i] + "";
  }

  /** Four masters over zones a and b: every name has a round suffix, the first round included. */
  lemma FourMastersTwoZones()
    ensures MasterName(["a", "b"], 4, 0) == "master-a-1"
    ensures MasterName(["a", "b"], 4, 1) == "master-b-1"
    ensures MasterName(["a", "b"], 4, 2) == "master-a-2"
    ensures MasterName(["a", "b"], 4, 3) == "master-b-2"
  {
  }

  /** As many masters as zones: no suffix. */
  lemma OneMasterPerZone()
    ensures MasterName(["a", "b", "c"], 3, 0) == "master-a"
    ensures MasterName(["a", "b", "c"], 3, 1) == "master-b"
    ensures MasterName(["a", "b", "c"], 3, 2) == "master-c"
  {
  }

  // ---------------------------------------------------------------------
  // Etcd clusters

  /** The member of an etcd cluster that runs on `master`; the volume is marked encrypted only when encryption is asked for. */
  function EtcdMemberFor(master: InstanceGroup, encrypt: bool): EtcdMember {
    EtcdMember(master.name, Some(master.name), if encrypt then Some(true) else None)
  }

  /** The etcd cluster `name`: one member per master, in master order. */
  function EtcdClusterFor(name: string, version: string, masters: seq<InstanceGroup>, encrypt: bool): EtcdCluster {
    EtcdCluster(name, version, seq(|masters|, i requires 0 <= i < |masters| => EtcdMemberFor(masters[i], encrypt)))
  }

  /** The etcd loop: for each etcd cluster name, an inner loop over the masters. */
  method BuildEtcdClusters(names: seq<string>, version: string, masters: seq<InstanceGroup>, encrypt: bool)
    returns (clusters: seq<EtcdCluster>)
    ensures |clusters| == |names|
    ensures forall k :: 0 <= k < |names| ==> clusters[k] == EtcdClusterFor(names[k], version, masters, encrypt)
  {
    clusters := [];
    for k := 0 to |names|
      invariant |clusters| == k
      invariant forall c :: 0 <= c < k ==> clusters[c] == EtcdClusterFor(names[c], version, masters, encrypt)
    {
      var etcdCluster := EtcdCluster(names[k], version, []);
      for m := 0 to |masters|
        invariant etcdCluster.name == names[k] && etcdCluster.version == version
        invariant etcdCluster.members == EtcdClusterFor(names[k], version, masters, encrypt).members[..m]
      {
        var member := EtcdMember("", None, None);
        if encrypt {
          member := member.(encryptedVolume := Some(encrypt));
        }
        member := member.(name := masters[m].name);
        member := member.(instanceGroup := Some(masters[m].name));
        etcdCluster := etcdCluster.(members := etcdCluster.members + [member]);
      }
      clusters := clusters + [etcdCluster];
    }
  }

  /** The total number of members of `clusters`. */
  function MemberCount(clusters: seq<EtcdCluster>): nat {
    if |clusters| == 0 then 0 else |clusters[0].members| + MemberCount(clusters[1..])
  }

  /** Every cluster has one member per master, so there are |names| × |masters| members in all. */
  lemma {:induction false} EtcdMemberTotal(names: seq<string>, version: string, masters: seq<InstanceGroup>, encrypt: bool,
                                           clusters: seq<EtcdCluster>)
    requires |clusters| == |names|
    requires forall k :: 0 <= k < |names| ==> clusters[k] == EtcdClusterFor(names[k], version, masters, encrypt)
    ensures MemberCount(clusters) == |names| * |masters|
  {
    if |names| > 0 {
      EtcdMemberTotal(names[1..], version, masters, encrypt, clusters[1..]);
    }
  }

  /** Each member names its master and its instance group; its volume is encrypted or left unset, never false. */
  lemma EtcdMembersFollowMasters(name: string, version: string, masters: seq<InstanceGroup>, encrypt: bool)
    ensures var c := EtcdClusterFor(name, version, masters, encrypt);
      && c.name == name && c.version == version && |c.members| == |masters|
      && forall i :: 0 <= i < |masters| ==>
           && c.members[i].name == masters[i].name
           && c.members[i].instanceGroup == Some(masters[i].name)
           && c.members[i].encryptedVolume == (if encrypt then Some(true) else None)
  {
  }

  // ---------------------------------------------------------------------
  // Nodes and bastion

  /** The single `nodes` group: across all node zones, with the node sizes converted to `int32`. */
  function NodesGroup(cfg: Config): InstanceGroup {
    InstanceGroup(
      name := "nodes",
      role := Node,
      image := cfg.image,
      machineType := cfg.nodeSize,
      rootVolumeSize := Some(Int32(cfg.nodeVolumeSize)),
      subnets := cfg.nodeZones,
      associatePublicIp := Some(cfg.associatePublicIp),
      minSize := Some(Int32(cfg.nodeMinSize)),
      maxSize := Some(Int32(cfg.nodeMaxSize)))
  }

  /** The bastion group: only its role, name and image are set. */
  function BastionGroup(image: string): InstanceGroup {
    InstanceGroup("bastions", Bastion, image, "", None, [], None, None, None)
  }

  /** A bastion is planned when one is asked for and the raw topology attribute is not "public". */
  predicate WantsBastion(cfg: Config) {
    cfg.bastion && cfg.topology != "public"
  }
}
