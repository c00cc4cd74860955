/**
 * The planning part of `resourceKopsCreate` (kops/resource_kops_cluster.go):
 * the input checks, the cluster spec assembled field by field, the master
 * groups, the etcd clusters, the `nodes` group and the bastion group, up to
 * the point where they are handed to the kops state store.
 *
 * `dnsGossip.IsGossipHostname` and `cloudup.EtcdClusters` belong to kops and
 * are parameters: a predicate on the cluster name and the list of etcd
 * cluster names.
 */
module ClusterCreate {
  import opened GoStrings
  import opened KopsApi
  import Labels
  import opened ApiAccess
  import opened InstanceGroups

  /**
   * What `resourceKopsCreate` has built: the cluster's name and spec, the
   * master groups and the `nodes` group it registers with the store, and its
   * local `instanceGroups` list, which holds the bastion group and is never
   * registered.
   */
  datatype Plan = Plan(name: string, spec: ClusterSpec, masters: seq<InstanceGroup>, nodes: InstanceGroup, instanceGroups: seq<InstanceGroup>)

  /** The groups passed to `InstanceGroupsFor(cluster).Create`, in order. */
  function Registered(p: Plan): seq<InstanceGroup> {
    p.masters + [p.nodes]
  }

  /** The master groups, in order. */
  function MasterGroups(cfg: Config): (masters: seq<InstanceGroup>)
    requires |cfg.masterZones| > 0
    ensures |masters| == MasterGroupCount(cfg.masterCount)
  {
    seq(MasterGroupCount(cfg.masterCount), i requires 0 <= i => MasterGroup(cfg, i))
  }

  /** One etcd cluster per name, in order. */
  function EtcdClustersFor(names: seq<string>, version: string, masters: seq<InstanceGroup>, encrypt: bool): seq<EtcdCluster> {
    seq(|names|, k requires 0 <= k < |names| => EtcdClusterFor(names[k], version, masters, encrypt))
  }

  /** The bastion spec the cluster gets when a bastion is planned. */
  function BastionFor(cfg: Config): Option<BastionSpec> {
    if WantsBastion(cfg) then Some(BastionSpec("bastion." + cfg.name)) else None
  }

  /**
   * The cluster spec as it stands when the authorization mode is read: the
   * fields set from the attributes, IAM, the bastion and the cloud labels, and
   * DNS access to the API; the rest still at Go's zero values.
   */
  function InitialSpec(cfg: Config, labels: map<string, string>): ClusterSpec {
    ClusterSpec(
      channel := "stable",
      cloudProvider := cfg.cloud,
      kubernetesApiAccess := cfg.adminAccess,
      kubernetesVersion := cfg.k8sVersion,
      sshAccess := cfg.adminAccess,
      networkCidr := cfg.networkCidr,
      networkId := cfg.vpcId,
      iam := Some(IamSpec(true, false)),
      topology := TopologySpec("", "", None, BastionFor(cfg)),
      cloudLabels := if |labels| != 0 then Some(labels) else None,
      api := Some(AccessSpec(true, None)),
      authorization := None,
      networking := None,
      nonMasqueradeCidr := "",
      kubelet := None,
      subnets := [],
      etcdClusters := [])
  }

  /** The cluster spec once every field is set. */
  function SpecFor(cfg: Config, labels: map<string, string>, auth: Authorization, api: AccessSpec,
                   masters: seq<InstanceGroup>, etcdNames: seq<string>): ClusterSpec {
    InitialSpec(cfg, labels).(
      topology := TopologySpec(TopologyPublic, TopologyPublic, Some(DnsTypeFor(cfg.dns)), BastionFor(cfg)),
      api := Some(api),
      authorization := Some(auth),
      networking := Some(Calico("v3")),
      nonMasqueradeCidr := cfg.nonMasqueradeCidr,
      kubelet := Some(KubeletSpec(Some(false), Some(true), "Webhook")),
      subnets := SubnetsFor(cfg.nodeZones + cfg.masterZones),
      etcdClusters := EtcdClustersFor(etcdNames, cfg.etcdVersion, masters, cfg.encryptEtcdStorage))
  }

  /** The plan once every check has passed. */
  function PlanFor(cfg: Config, labels: map<string, string>, auth: Authorization, api: AccessSpec, etcdNames: seq<string>): Plan
    requires |cfg.masterZones| > 0
  {
    var masters := MasterGroups(cfg);
    var bastions := if WantsBastion(cfg) then [BastionGroup(cfg.image)] else [];
    Plan(cfg.name, SpecFor(cfg, labels, auth, api, masters, etcdNames), masters, NodesGroup(cfg), bastions)
  }

  /** What `resourceKopsCreate` plans for `cfg`, or the error it stops with first. */
  function PlanCreate(cfg: Config, isGossipHostname: string -> bool, etcdNames: seq<string>): Result<Plan, CreateError> {
    if |cfg.adminAccess| == 0 then Err(MustProvideNodeZones)
    else match Labels.LabelsOf(cfg.cloudLabels)
    case Err(e) => Err(CloudLabelsError(e))
    case Ok(labels) =>
      if |cfg.masterZones| == 0 || |cfg.nodeZones| == 0 then Err(MustProvideNodeZones)
      else match AuthorizationFor(cfg.authorization)
      case Err(e) => Err(e)
      case Ok(auth) =>
        match ResolveApiAccess(Some(AccessSpec(true, None)), cfg.apiLoadBalancerType, TopologyPublic, cfg.name, isGossipHostname)
        case Err(e) => Err(e)
        case Ok(api) => Ok(PlanFor(cfg, labels, auth, api, etcdNames))
  }

  /**
   * `resourceKopsCreate` up to the store: the checks in their order, then the
   * cluster spec set field by field and the group lists built by their loops.
   */
  method ResourceKopsCreate(cfg: Config, isGossipHostname: string -> bool, etcdNames: seq<string>)
    returns (r: Result<Plan, CreateError>)
    ensures r == PlanCreate(cfg, isGossipHostname, etcdNames)
  {
    CreateSucceedsIff(cfg, isGossipHostname, etcdNames);
    if |cfg.adminAccess| == 0 {
      return Err(MustProvideNodeZones);
    }
    var cloudLabels := Labels.ParseCloudLabels(cfg.cloudLabels);
    if cloudLabels.Err? {
      return Err(CloudLabelsError(cloudLabels.error));
    }
    if |cfg.masterZones| == 0 {
      return Err(MustProvideNodeZones);
    }
    if |cfg.nodeZones| == 0 {
      return Err(MustProvideNodeZones);
    }
    var spec, instanceGroups := NewClusterSpec(cfg, cloudLabels.value);
    r := CompletePlan(cfg, cloudLabels.value, spec, instanceGroups, isGossipHostname, etcdNames);
  }

  /**
   * The cluster spec set field by field up to the authorization mode, and the
   * local group list, which gets the bastion group when one is asked for.
   */
  method NewClusterSpec(cfg: Config, labels: map<string, string>) returns (spec: ClusterSpec, instanceGroups: seq<InstanceGroup>)
    ensures spec == InitialSpec(cfg, labels)
    ensures instanceGroups == if WantsBastion(cfg) then [BastionGroup(cfg.image)] else []
  {
    instanceGroups := [];
    spec := ClusterSpec(
      channel := "stable",
      cloudProvider := cfg.cloud,
      kubernetesApiAccess := cfg.adminAccess,
      kubernetesVersion := cfg.k8sVersion,
      sshAccess := cfg.adminAccess,
      networkCidr := cfg.networkCidr,
      networkId := "",
      iam := None,
      topology := TopologySpec("", "", None, None),
      cloudLabels := None,
      api := None,
      authorization := None,
      networking := None,
      nonMasqueradeCidr := "",
      kubelet := None,
      subnets := [],
      etcdClusters := []);
    if cfg.vpcId != "" {
      spec := spec.(networkId := cfg.vpcId);
    }
    spec := spec.(iam := Some(IamSpec(true, false)));

    if cfg.bastion && cfg.topology != "public" {
      instanceGroups := instanceGroups + [BastionGroup(cfg.image)];
      spec := spec.(topology := spec.topology.(bastion := Some(BastionSpec("bastion." + cfg.name))));
    }

    if |labels| != 0 {
      spec := spec.(cloudLabels := Some(labels));
    }

    spec := spec.(api := Some(AccessSpec(true, None)));
  }

  /**
   * The rest of `resourceKopsCreate` from the authorization mode on: the mode
   * checked, the remaining fields set, the API access resolved and the group
   * lists built by their loops.
   */
  method CompletePlan(cfg: Config, labels: map<string, string>, spec0: ClusterSpec, instanceGroups: seq<InstanceGroup>,
                      isGossipHostname: string -> bool, etcdNames: seq<string>)
    returns (r: Result<Plan, CreateError>)
    requires |cfg.adminAccess| > 0 && |cfg.masterZones| > 0 && |cfg.nodeZones| > 0
    requires Labels.LabelsOf(cfg.cloudLabels) == Ok(labels)
    requires spec0 == InitialSpec(cfg, labels)
    requires instanceGroups == if WantsBastion(cfg) then [BastionGroup(cfg.image)] else []
    ensures r == PlanCreate(cfg, isGossipHostname, etcdNames)
  {
    var spec := spec0;
    if EqualFold(cfg.authorization, "AlwaysAllow") {
      spec := spec.(authorization := Some(Authorization(true, false)));
    } else if EqualFold(cfg.authorization, "RBAC") {
      spec := spec.(authorization := Some(Authorization(false, true)));
    } else {
      CreateSucceedsIff(cfg, isGossipHostname, etcdNames);
      return Err(UnknownAuthorization(cfg.authorization));
    }
    spec := spec.(networking := Some(Calico("v3")));
    spec := spec.(topology := spec.topology.(dns := Some(DnsTypeFor(cfg.dns))));
    spec := spec.(topology := spec.topology.(masters := TopologyPublic, nodes := TopologyPublic));
    spec := spec.(nonMasqueradeCidr := cfg.nonMasqueradeCidr);
    spec := spec.(kubelet := Some(KubeletSpec(Some(false), Some(true), "Webhook")));

    var api := ResolveApiAccess(spec.api, cfg.apiLoadBalancerType, spec.topology.masters, cfg.name, isGossipHostname);
    DnsAccessKept(cfg, isGossipHostname);
    var access;
    match api {
      case Err(e) =>
        assert false;
        return Err(e);
      case Ok(a) =>
        access := a;
    }
    spec := spec.(api := Some(access));

    var subnets := BuildSubnets(cfg.nodeZones + cfg.masterZones);
    spec := spec.(subnets := subnets);

    var masters := BuildMasters(cfg);
    MastersAreGroups(cfg, masters);

    var etcdClusters := BuildEtcdClusters(etcdNames, cfg.etcdVersion, masters, cfg.encryptEtcdStorage);
    EtcdClustersAreFor(etcdNames, cfg.etcdVersion, masters, cfg.encryptEtcdStorage, etcdClusters);
    spec := spec.(etcdClusters := etcdClusters);

    var nodes := NodesGroup(cfg);
    r := Ok(Plan(cfg.name, spec, masters, nodes, instanceGroups));
    PlanCreateOk(cfg, isGossipHostname, etcdNames);
  }

  /** The master loop's groups are `MasterGroups(cfg)`. */
  lemma MastersAreGroups(cfg: Config, masters: seq<InstanceGroup>)
    requires |cfg.masterZones| > 0
    requires |masters| == MasterGroupCount(cfg.masterCount)
    requires forall i :: 0 <= i < |masters| ==> masters[i] == MasterGroup(cfg, i)
    ensures masters == MasterGroups(cfg)
  {
  }

  /** The etcd loop's clusters are `EtcdClustersFor` the same arguments. */
  lemma EtcdClustersAreFor(names: seq<string>, version: string, masters: seq<InstanceGroup>, encrypt: bool, clusters: seq<EtcdCluster>)
    requires |clusters| == |names|
    requires forall k :: 0 <= k < |names| ==> clusters[k] == EtcdClusterFor(names[k], version, masters, encrypt)
    ensures clusters == EtcdClustersFor(names, version, masters, encrypt)
  {
  }

  /** The plan when every check passes. */
  lemma PlanCreateOk(cfg: Config, isGossipHostname: string -> bool, etcdNames: seq<string>)
    requires |cfg.adminAccess| > 0 && |cfg.masterZones| > 0 && |cfg.nodeZones| > 0
    requires Labels.LabelsOf(cfg.cloudLabels).Ok? && AuthorizationFor(cfg.authorization).Ok?
    ensures PlanCreate(cfg, isGossipHostname, etcdNames) ==
      Ok(PlanFor(cfg, Labels.LabelsOf(cfg.cloudLabels).value, AuthorizationFor(cfg.authorization).value, AccessSpec(true, None), etcdNames))
  {
    DnsAccessKept(cfg, isGossipHostname);
  }

  // ---------------------------------------------------------------------
  // Properties of the plan

  /** Resolution keeps the DNS access set just before it, so it never fails here. */
  lemma DnsAccessKept(cfg: Config, isGossipHostname: string -> bool)
    ensures ResolveApiAccess(Some(AccessSpec(true, None)), cfg.apiLoadBalancerType, TopologyPublic, cfg.name, isGossipHostname)
      == Ok(AccessSpec(true, None))
  {
    ResolveChosenAccess(AccessSpec(true, None), cfg.apiLoadBalancerType, TopologyPublic, cfg.name, isGossipHostname);
  }

  /**
   * Creation succeeds exactly when the admin access list and both zone lists
   * are non-empty, the cloud labels parse and the authorization mode is known;
   * an empty list is reported with the same error whichever list it is.
   */
  lemma CreateSucceedsIff(cfg: Config, isGossipHostname: string -> bool, etcdNames: seq<string>)
    ensures PlanCreate(cfg, isGossipHostname, etcdNames).Ok? <==>
      && |cfg.adminAccess| > 0 && |cfg.masterZones| > 0 && |cfg.nodeZones| > 0
      && Labels.LabelsOf(cfg.cloudLabels).Ok?
      && AuthorizationFor(cfg.authorization).Ok?
    ensures |cfg.adminAccess| == 0 ==> PlanCreate(cfg, isGossipHostname, etcdNames) == Err(MustProvideNodeZones)
    ensures |cfg.adminAccess| > 0 && Labels.LabelsOf(cfg.cloudLabels).Err?
      ==> PlanCreate(cfg, isGossipHostname, etcdNames) == Err(CloudLabelsError(Labels.LabelsOf(cfg.cloudLabels).error))
    ensures Labels.LabelsOf(cfg.cloudLabels).Ok? && (|cfg.masterZones| == 0 || |cfg.nodeZones| == 0)
      ==> PlanCreate(cfg, isGossipHostname, etcdNames) == Err(MustProvideNodeZones)
    ensures |cfg.adminAccess| > 0 && |cfg.masterZones| > 0 && |cfg.nodeZones| > 0 && Labels.LabelsOf(cfg.cloudLabels).Ok?
      && !AuthorizationFor(cfg.authorization).Ok?
      ==> PlanCreate(cfg, isGossipHostname, etcdNames) == Err(UnknownAuthorization(cfg.authorization))
  {
    DnsAccessKept(cfg, isGossipHostname);
  }

  /**
   * The API is always reached through DNS without a load balancer: the DNS
   * access set before resolution leaves nothing to resolve, so the requested
   * load-balancer type changes nothing at all.
   */
  lemma ApiThroughDns(cfg: Config, isGossipHostname: string -> bool, etcdNames: seq<string>, lbType: string)
    ensures var r := PlanCreate(cfg, isGossipHostname, etcdNames);
      r.Ok? ==> r.value.spec.api == Some(AccessSpec(true, None))
    ensures PlanCreate(cfg.(apiLoadBalancerType := lbType), isGossipHostname, etcdNames) == PlanCreate(cfg, isGossipHostname, etcdNames)
  {
    var cfg' := cfg.(apiLoadBalancerType := lbType);
    DnsAccessKept(cfg, isGossipHostname);
    DnsAccessKept(cfg', isGossipHostname);
    if |cfg.masterZones| > 0 {
      assert MasterGroups(cfg') == MasterGroups(cfg) by {
        forall i | 0 <= i < MasterGroupCount(cfg.masterCount) ensures MasterGroups(cfg')[i] == MasterGroups(cfg)[i] {
          assert MasterGroup(cfg', i) == MasterGroup(cfg, i);
        }
      }
    }
  }

  /** The chosen authorization mode: AlwaysAllow alone or RBAC alone, matched without regard to ASCII case. */
  lemma AuthorizationPlanned(cfg: Config, isGossipHostname: string -> bool, etcdNames: seq<string>)
    ensures var r := PlanCreate(cfg, isGossipHostname, etcdNames);
      r.Ok? ==>
        && r.value.spec.authorization.Some?
        && (r.value.spec.authorization.value.alwaysAllow <==> EqualFold(cfg.authorization, "AlwaysAllow"))
        && (r.value.spec.authorization.value.rbac <==> !EqualFold(cfg.authorization, "AlwaysAllow") && EqualFold(cfg.authorization, "RBAC"))
  {
    DnsAccessKept(cfg, isGossipHostname);
  }

  /**
   * A bastion group named "bastions" and the bastion's public name are planned
   * exactly when a bastion is asked for and the topology attribute is not
   * "public"; the bastion group is never among the registered groups.
   */
  lemma BastionPlanned(cfg: Config, isGossipHostname: string -> bool, etcdNames: seq<string>)
    ensures var r := PlanCreate(cfg, isGossipHostname, etcdNames);
      r.Ok? ==>
        && (cfg.bastion && cfg.topology != "public" ==>
              && r.value.instanceGroups == [InstanceGroup("bastions", Bastion, cfg.image, "", None, [], None, None, None)]
              && r.value.spec.topology.bastion == Some(BastionSpec("bastion." + cfg.name)))
        && (!(cfg.bastion && cfg.topology != "public") ==>
              r.value.instanceGroups == [] && r.value.spec.topology.bastion == None)
        && forall g :: g in Registered(r.value) ==> g.role != Bastion
  {
    DnsAccessKept(cfg, isGossipHostname);
  }

  /** Networking, topology and DNS zone: Calico v3, public masters and nodes, a private zone only for dns "private". */
  lemma TopologyPlanned(cfg: Config, isGossipHostname: string -> bool, etcdNames: seq<string>)
    ensures var r := PlanCreate(cfg, isGossipHostname, etcdNames);
      r.Ok? ==>
        && r.value.spec.networking == Some(Calico("v3"))
        && r.value.spec.topology.masters == TopologyPublic && r.value.spec.topology.nodes == TopologyPublic
        && r.value.spec.topology.dns == Some(if cfg.dns == "private" then DnsPrivate else DnsPublic)
  {
    DnsAccessKept(cfg, isGossipHostname);
  }

  /** The cluster is named after the `name` attribute, and so is the bastion's public name. */
  lemma ClusterNamed(cfg: Config, isGossipHostname: string -> bool, etcdNames: seq<string>)
    ensures var r := PlanCreate(cfg, isGossipHostname, etcdNames);
      r.Ok? ==>
        && r.value.name == cfg.name
        && (r.value.spec.topology.bastion.Some? ==> r.value.spec.topology.bastion.value.bastionPublicName == "bastion." + r.value.name)
  {
    DnsAccessKept(cfg, isGossipHostname);
  }

  /** The cloud labels are set only when the parsed map is non-empty. */
  lemma CloudLabelsPlanned(cfg: Config, isGossipHostname: string -> bool, etcdNames: seq<string>)
    ensures var r := PlanCreate(cfg, isGossipHostname, etcdNames);
      r.Ok? ==>
        && Labels.LabelsOf(cfg.cloudLabels).Ok?
        && var labels := Labels.LabelsOf(cfg.cloudLabels).value;
           r.value.spec.cloudLabels == if |labels| == 0 then None else Some(labels)
  {
    DnsAccessKept(cfg, isGossipHostname);
  }

  /** One public subnet per distinct node or master zone, none named twice. */
  lemma SubnetsPlanned(cfg: Config, isGossipHostname: string -> bool, etcdNames: seq<string>)
    ensures var r := PlanCreate(cfg, isGossipHostname, etcdNames);
      r.Ok? ==>
        var s := r.value.spec.subnets;
        && (forall z :: z in cfg.nodeZones + cfg.masterZones <==> exists i :: 0 <= i < |s| && s[i].zone == z)
        && (forall i :: 0 <= i < |s| ==> s[i].name == s[i].zone && s[i].subnetType == SubnetPublic)
        && (forall i, j :: 0 <= i < j < |s| ==> s[i].name != s[j].name)
  {
    var r := PlanCreate(cfg, isGossipHostname, etcdNames);
    if r.Ok? {
      CreateSucceedsIff(cfg, isGossipHostname, etcdNames);
      PlanCreateOk(cfg, isGossipHostname, etcdNames);
      SubnetsCoverZones(cfg.nodeZones + cfg.masterZones);
    }
  }

  /** Every registered group, master or `nodes`, lies in zones that have their subnet. */
  lemma GroupsHaveSubnets(cfg: Config, isGossipHostname: string -> bool, etcdNames: seq<string>)
    ensures var r := PlanCreate(cfg, isGossipHostname, etcdNames);
      r.Ok? ==>
        var s := r.value.spec.subnets;
        forall g, z :: g in Registered(r.value) && z in g.subnets ==> exists i :: 0 <= i < |s| && s[i].zone == z
  {
    var r := PlanCreate(cfg, isGossipHostname, etcdNames);
    if r.Ok? {
      CreateSucceedsIff(cfg, isGossipHostname, etcdNames);
      PlanCreateOk(cfg, isGossipHostname, etcdNames);
      var zones := cfg.nodeZones + cfg.masterZones;
      var s := r.value.spec.subnets;
      assert s == SubnetsFor(zones);
      assert Registered(r.value) == MasterGroups(cfg) + [NodesGroup(cfg)];
      SubnetsCoverZones(zones);
      GroupsInZones(cfg);
      forall g, z | g in Registered(r.value) && z in g.subnets ensures exists i :: 0 <= i < |s| && s[i].zone == z {
        assert z in zones;
      }
    }
  }

  /** Every registered group lies in the node or master zones. */
  lemma GroupsInZones(cfg: Config)
    requires |cfg.masterZones| > 0
    ensures forall g, z :: g in MasterGroups(cfg) + [NodesGroup(cfg)] && z in g.subnets ==> z in cfg.nodeZones + cfg.masterZones
  {
    var masters := MasterGroups(cfg);
    forall g, z | g in masters + [NodesGroup(cfg)] && z in g.subnets ensures z in cfg.nodeZones + cfg.masterZones {
      if g in masters {
        var i :| 0 <= i < |masters| && masters[i] == g;
        assert z == cfg.masterZones[i % |cfg.masterZones|];
      }
    }
  }

  /**
   * `max(master_count, 0)` master groups, master `i` in zone `i mod n` of the
   * `n` master zones; with distinct zones no two share a name.
   */
  lemma MastersPlanned(cfg: Config, isGossipHostname: string -> bool, etcdNames: seq<string>)
    ensures var r := PlanCreate(cfg, isGossipHostname, etcdNames);
      r.Ok? ==>
        var m := r.value.masters;
        && |m| == MasterGroupCount(cfg.masterCount)
        && (forall i :: 0 <= i < |m| ==>
              && m[i].role == Master
              && m[i].subnets == [cfg.masterZones[i % |cfg.masterZones|]]
              && m[i].name == MasterName(cfg.masterZones, cfg.masterCount, i))
        && ((forall a, b :: 0 <= a < b < |cfg.masterZones| ==> cfg.masterZones[a] != cfg.masterZones[b])
              ==> forall i, j :: 0 <= i < j < |m| ==> m[i].name != m[j].name)
  {
    var r := PlanCreate(cfg, isGossipHostname, etcdNames);
    if r.Ok? {
      CreateSucceedsIff(cfg, isGossipHostname, etcdNames);
      PlanCreateOk(cfg, isGossipHostname, etcdNames);
      MasterGroupsNamed(cfg);
    }
  }

  /** The master groups, one per master in its zone, with distinct names when the zones are distinct. */
  lemma MasterGroupsNamed(cfg: Config)
    requires |cfg.masterZones| > 0
    ensures var m := MasterGroups(cfg);
      && (forall i :: 0 <= i < |m| ==>
            && m[i].role == Master
            && m[i].subnets == [cfg.masterZones[i % |cfg.masterZones|]]
            && m[i].name == MasterName(cfg.masterZones, cfg.masterCount, i))
      && ((forall a, b :: 0 <= a < b < |cfg.masterZones| ==> cfg.masterZones[a] != cfg.masterZones[b])
            ==> forall i, j :: 0 <= i < j < |m| ==> m[i].name != m[j].name)
  {
    var m := MasterGroups(cfg);
    if forall a, b :: 0 <= a < b < |cfg.masterZones| ==> cfg.masterZones[a] != cfg.masterZones[b] {
      forall i, j | 0 <= i < j < |m| ensures m[i].name != m[j].name {
        MasterNamesDistinct(cfg.masterZones, cfg.masterCount, i, j);
      }
    }
  }

  /**
   * One etcd cluster per etcd name, in order and at the configured version,
   * each with one member per registered master, in master order;
   * |names| × |masters| members in all.
   */
  lemma EtcdPlanned(cfg: Config, isGossipHostname: string -> bool, etcdNames: seq<string>)
    ensures var r := PlanCreate(cfg, isGossipHostname, etcdNames);
      r.Ok? ==>
        var e, m := r.value.spec.etcdClusters, r.value.masters;
        && |e| == |etcdNames|
        && (forall k :: 0 <= k < |e| ==>
              && e[k].name == etcdNames[k] && e[k].version == cfg.etcdVersion && |e[k].members| == |m|
              && forall i :: 0 <= i < |m| ==>
                   e[k].members[i].name == m[i].name && e[k].members[i].instanceGroup == Some(m[i].name)
                   && e[k].members[i].encryptedVolume == (if cfg.encryptEtcdStorage then Some(true) else None))
        && MemberCount(e) == |etcdNames| * |m|
  {
    DnsAccessKept(cfg, isGossipHostname);
    var r := PlanCreate(cfg, isGossipHostname, etcdNames);
    if r.Ok? {
      var e, m := r.value.spec.etcdClusters, r.value.masters;
      EtcdMemberTotal(etcdNames, cfg.etcdVersion, m, cfg.encryptEtcdStorage, e);
    }
  }

  /** The single `nodes` group spans the node zones; its sizes are the attributes converted to `int32`. */
  lemma NodesPlanned(cfg: Config, isGossipHostname: string -> bool, etcdNames: seq<string>)
    ensures var r := PlanCreate(cfg, isGossipHostname, etcdNames);
      r.Ok? ==>
        var n := r.value.nodes;
        && n.name == "nodes" && n.role == Node && n.subnets == cfg.nodeZones
        && n.minSize == Some(Int32(cfg.nodeMinSize)) && n.maxSize == Some(Int32(cfg.nodeMaxSize))
        && n.rootVolumeSize == Some(Int32(cfg.nodeVolumeSize))
        && (0 <= cfg.nodeMinSize < TwoTo31 ==> n.minSize == Some(cfg.nodeMinSize))
  {
    DnsAccessKept(cfg, isGossipHostname);
  }
}
