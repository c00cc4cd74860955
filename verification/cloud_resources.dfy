/**
 * The `kops_cloud_resources` data source (kops/data_source_kops_cloud_resources.go)
 * and the deletion set of `resourceKopsDelete`: the cloud resources that kops
 * lists for a cluster are filtered on `Shared`, and the rest are sorted into
 * eighteen lists of IDs and six single-ID attributes by their type and, for
 * some types, by words in their name.
 *
 * The resources come from a Go map, whose iteration order is not fixed; the
 * model takes them as a sequence with distinct keys and visits them in that
 * order, so every statement about order is relative to the sequence.
 */
module CloudResources {
  import opened GoStrings

  /** One entry of the map `resourceops.ListResources` returns: its key and the fields the data source reads. */
  datatype CloudResource = CloudResource(key: string, id: string, name: string, rtype: string, shared: bool)

  /** The eighteen list attributes, in the order the data source sets them. */
  datatype ListField =
    | AutoscalingConfigMasters | AutoscalingConfigNodes
    | AutoscalingGroupMasters | AutoscalingGroupNodes
    | IamInstanceProfileMasters | IamInstanceProfileNodes
    | IamRoleMasters | IamRoleNodes
    | InstanceMasters | InstanceNodes | InstanceBastion
    | Route53RecordsApi | Route53RecordsEtcd
    | SecurityGroupMasters | SecurityGroupNodes | SecurityGroupElbs
    | Subnets | EtcdVolumes

  /** The six single-ID attributes. */
  datatype SingleField = VpcId | DhcpOptionsId | InternetGatewayId | RouteTableId | LoadBalancerId | KeypairId

  /** Where one resource goes. */
  datatype Slot =
    | ToList(list: ListField)
    | ToField(field: SingleField)
    | Dropped   // a route53 record or security group whose name matches none of the words
    | Unknown   // a type the switch does not handle; only a message is printed

  /** The attributes the data source sets: the lists, and the single IDs that were set at all. */
  datatype Inventory = Inventory(lists: map<ListField, seq<string>>, singles: map<SingleField, string>)

  const NoResources: Inventory := Inventory(map[], map[])

  /** The list attribute `f`; a list nothing was appended to is set to the empty list. */
  function IdsOf(inv: Inventory, f: ListField): seq<string> {
    ListOf(inv.lists, f)
  }

  function ListOf(lists: map<ListField, seq<string>>, f: ListField): seq<string> {
    if f in lists then lists[f] else []
  }

  /** The resource type that sets the single attribute `s`. */
  function TypeOf(s: SingleField): string {
    match s
    case VpcId => "vpc"
    case DhcpOptionsId => "dhcp-options"
    case InternetGatewayId => "internet-gateway"
    case RouteTableId => "route-table"
    case LoadBalancerId => "load-balancer"
    case KeypairId => "keypair"
  }

  /** The `switch v.Type` of the classification loop, with its ordered tests on the name. */
  function Classify(r: CloudResource): Slot {
    var t, n := r.rtype, r.name;
    if t == "vpc" then ToField(VpcId)
    else if t == "dhcp-options" then ToField(DhcpOptionsId)
    else if t == "internet-gateway" then ToField(InternetGatewayId)
    else if t == "route-table" then ToField(RouteTableId)
    else if t == "load-balancer" then ToField(LoadBalancerId)
    else if t == "keypair" then ToField(KeypairId)
    else if t == "autoscaling-config" then
      ToList(if Contains(n, "master") then AutoscalingConfigMasters else AutoscalingConfigNodes)
    else if t == "autoscaling-group" then
      ToList(if Contains(n, "master") then AutoscalingGroupMasters else AutoscalingGroupNodes)
    else if t == "iam-instance-profile" then
      ToList(if Contains(n, "master") then IamInstanceProfileMasters else IamInstanceProfileNodes)
    else if t == "iam-role" then
      ToList(if Contains(n, "master") then IamRoleMasters else IamRoleNodes)
    else if t == "instance" then
      if Contains(n, "master") then ToList(InstanceMasters)
      else if Contains(n, "nodes") then ToList(InstanceNodes)
      else ToList(InstanceBastion)
    else if t == "route53-record" then
      if Contains(n, "api") then ToList(Route53RecordsApi)
      else if Contains(n, "etcd") then ToList(Route53RecordsEtcd)
      else Dropped
    else if t == "security-group" then
      if Contains(n, "master") then ToList(SecurityGroupMasters)
      else if Contains(n, "nodes") then ToList(SecurityGroupNodes)
      else if Contains(n, "elb") then ToList(SecurityGroupElbs)
      else Dropped
    else if t == "subnet" then ToList(Subnets)
    else if t == "volume" then ToList(EtcdVolumes)
    else Unknown
  }

  /** One turn of the classification loop: append the ID to its list or overwrite its single attribute. */
  function Record(inv: Inventory, r: CloudResource): Inventory {
    match Classify(r)
    case ToList(f) => inv.(lists := inv.lists[f := IdsOf(inv, f) + [r.id]])
    case ToField(s) => inv.(singles := inv.singles[s := r.id])
    case _ => inv
  }

  /** The attributes after the loop has visited `rs`, in order. */
  function ClassifyAll(rs: seq<CloudResource>): Inventory
    decreases |rs|
  {
    if |rs| == 0 then NoResources else Record(ClassifyAll(rs[..|rs| - 1]), rs[|rs| - 1])
  }

  /** The resources that are not shared with other clusters, in order. */
  function NonShared(rs: seq<CloudResource>): (owned: seq<CloudResource>)
    ensures |owned| <= |rs|
    ensures forall r :: r in owned ==> r in rs && !r.shared
    ensures forall r :: r in rs && !r.shared ==> r in owned
    decreases |rs|
  {
    if |rs| == 0 then []
    else
      var last := rs[|rs| - 1];
      var init := NonShared(rs[..|rs| - 1]);
      assert forall r :: r in rs ==> r in rs[..|rs| - 1] || r == last;
      if last.shared then init else init + [last]
  }

  /** What the data source reports for the resources `ListResources` returned. */
  function Classified(all: seq<CloudResource>): Inventory {
    ClassifyAll(NonShared(all))
  }

  /** The keys of `all` are distinct, as the keys of the Go map it stands for are. */
  predicate DistinctKeys(all: seq<CloudResource>) {
    forall i, j :: 0 <= i < j < |all| ==> all[i].key != all[j].key
  }

  /**
   * The loop that builds `clusterResources` (kops/data_source_kops_cloud_resources.go
   * and, identically, `resourceKopsDelete`, which hands the result to
   * `DeleteResources`): every resource that is not shared, under its own key,
   * and nothing else.
   */
  method FilterShared(all: seq<CloudResource>) returns (kept: map<string, CloudResource>)
    requires DistinctKeys(all)
    ensures forall k :: k in kept <==> exists i :: 0 <= i < |all| && all[i].key == k && !all[i].shared
    ensures forall i :: 0 <= i < |all| && !all[i].shared ==> all[i].key in kept && kept[all[i].key] == all[i]
  {
    kept := map[];
    for i := 0 to |all|
      invariant forall k :: k in kept <==> exists j :: 0 <= j < i && all[j].key == k && !all[j].shared
      invariant forall j :: 0 <= j < i && !all[j].shared ==> all[j].key in kept && kept[all[j].key] == all[j]
    {
      if all[i].shared {
        continue;
      }
      kept := kept[all[i].key := all[i]];
    }
  }

  /**
   * `dataSourceKopsCloudResourcesRead` from the listed resources on: filter the
   * shared ones out, then classify the rest, visiting the map in the order of
   * `all`.
   */
  method ReadCloudResources(all: seq<CloudResource>) returns (inv: Inventory)
    requires DistinctKeys(all)
    ensures inv == Classified(all)
  {
    var clusterResources := FilterShared(all);
    inv := NoResources;
    if |clusterResources| == 0 {
      // "No cloud resources found"
      return;
    }
    for i := 0 to |all|
      invariant inv == ClassifyAll(NonShared(all[..i]))
    {
      assert all[..i + 1][..i] == all[..i];
      var key := all[i].key;
      if key in clusterResources {
        var v := clusterResources[key];
        assert v == all[i] && !all[i].shared by {
          var j :| 0 <= j < |all| && all[j].key == key && !all[j].shared;
          assert j == i;
        }
        inv := Record(inv, v);
      }
    }
    assert all[..|all|] == all;
  }

  // ---------------------------------------------------------------------
  // A reference description of the lists, one attribute at a time.

  /** The resource `r` belongs in the list attribute `f`. */
  predicate Member(f: ListField, r: CloudResource) {
    var t := r.rtype;
    var master, nodes := Contains(r.name, "master"), Contains(r.name, "nodes");
    match f
    case AutoscalingConfigMasters => t == "autoscaling-config" && master
    case AutoscalingConfigNodes => t == "autoscaling-config" && !master
    case AutoscalingGroupMasters => t == "autoscaling-group" && master
    case AutoscalingGroupNodes => t == "autoscaling-group" && !master
    case IamInstanceProfileMasters => t == "iam-instance-profile" && master
    case IamInstanceProfileNodes => t == "iam-instance-profile" && !master
    case IamRoleMasters => t == "iam-role" && master
    case IamRoleNodes => t == "iam-role" && !master
    case InstanceMasters => t == "instance" && master
    case InstanceNodes => t == "instance" && !master && nodes
    case InstanceBastion => t == "instance" && !master && !nodes
    case Route53RecordsApi => t == "route53-record" && Contains(r.name, "api")
    case Route53RecordsEtcd => t == "route53-record" && !Contains(r.name, "api") && Contains(r.name, "etcd")
    case SecurityGroupMasters => t == "security-group" && master
    case SecurityGroupNodes => t == "security-group" && !master && nodes
    case SecurityGroupElbs => t == "security-group" && !master && !nodes && Contains(r.name, "elb")
    case Subnets => t == "subnet"
    case EtcdVolumes => t == "volume"
  }

  /** The IDs of the resources of `rs` that belong in `f`, in order. */
  function Selected(rs: seq<CloudResource>, f: ListField): (ids: seq<string>)
    ensures |ids| <= |rs|
    ensures forall x :: x in ids ==> exists r :: r in rs && Member(f, r) && r.id == x
    decreases |rs|
  {
    if |rs| == 0 then []
    else
      var last := rs[|rs| - 1];
      var init := Selected(rs[..|rs| - 1], f);
      assert forall r :: r in rs[..|rs| - 1] ==> r in rs;
      if Member(f, last) then init + [last.id] else init
  }

  /** The switch sends a resource to list `f` exactly when it belongs there. */
  lemma ClassifyList(r: CloudResource, f: ListField)
    ensures Classify(r) == ToList(f) <==> Member(f, r)
  {
    ListedIsMember(r, f);
    MemberIsListed(r, f);
  }

  lemma ListedIsMember(r: CloudResource, f: ListField)
    ensures Classify(r) == ToList(f) ==> Member(f, r)
  {
    if Classify(r) == ToList(f) {
      var t := r.rtype;
      assert t != "vpc" && t != "dhcp-options" && t != "internet-gateway";
      assert t != "route-table" && t != "load-balancer" && t != "keypair";
    }
  }

  lemma MemberIsListed(r: CloudResource, f: ListField)
    ensures Member(f, r) ==> Classify(r) == ToList(f)
  {
  }

  /** The switch sets single attribute `s` exactly for resources of its type, whatever their name. */
  lemma ClassifyField(r: CloudResource, s: SingleField)
    ensures Classify(r) == ToField(s) <==> r.rtype == TypeOf(s)
  {
    FieldHasType(r, s);
    TypeSetsField(r, s);
  }

  lemma FieldHasType(r: CloudResource, s: SingleField)
    ensures Classify(r) == ToField(s) ==> r.rtype == TypeOf(s)
  {
  }

  lemma TypeSetsField(r: CloudResource, s: SingleField)
    ensures r.rtype == TypeOf(s) ==> Classify(r) == ToField(s)
  {
  }

  /** Each list holds the IDs of the visited resources that belong in it, in visiting order. */
  lemma {:induction false} ListsAreSelections(rs: seq<CloudResource>, f: ListField)
    ensures IdsOf(ClassifyAll(rs), f) == Selected(rs, f)
    decreases |rs|
  {
    if |rs| > 0 {
      var last := rs[|rs| - 1];
      ListsAreSelections(rs[..|rs| - 1], f);
      ClassifyList(last, f);
    }
  }

  /** Some resource of `rs` has type `t`. */
  ghost predicate HasType(rs: seq<CloudResource>, t: string) {
    exists i :: 0 <= i < |rs| && rs[i].rtype == t
  }

  /** `id` is the ID of the last resource of type `t` in `rs`. */
  ghost predicate LastOfType(rs: seq<CloudResource>, t: string, id: string) {
    exists i :: 0 <= i < |rs| && rs[i].rtype == t && rs[i].id == id
      && forall j :: i < j < |rs| ==> rs[j].rtype != t
  }

  lemma HasTypeSnoc(rs: seq<CloudResource>, t: string)
    requires |rs| > 0
    ensures HasType(rs, t) <==> HasType(rs[..|rs| - 1], t) || rs[|rs| - 1].rtype == t
  {
    var init := rs[..|rs| - 1];
    if HasType(rs, t) && rs[|rs| - 1].rtype != t {
      var i :| 0 <= i < |rs| && rs[i].rtype == t;
      assert init[i] == rs[i];
    }
    if HasType(init, t) {
      var i :| 0 <= i < |init| && init[i].rtype == t;
      assert rs[i] == init[i];
    }
  }

  lemma LastOfTypeSnoc(rs: seq<CloudResource>, t: string, id: string)
    requires |rs| > 0
    ensures rs[|rs| - 1].rtype == t ==> LastOfType(rs, t, rs[|rs| - 1].id)
    ensures rs[|rs| - 1].rtype != t && LastOfType(rs[..|rs| - 1], t, id) ==> LastOfType(rs, t, id)
  {
    var init := rs[..|rs| - 1];
    if rs[|rs| - 1].rtype != t && LastOfType(init, t, id) {
      var i :| 0 <= i < |init| && init[i].rtype == t && init[i].id == id
        && forall j :: i < j < |init| ==> init[j].rtype != t;
      assert rs[i] == init[i];
      assert forall j :: i < j < |rs| ==> rs[j].rtype != t by {
        forall j | i < j < |rs| ensures rs[j].rtype != t {
          if j < |init| {
            assert rs[j] == init[j];
          }
        }
      }
    }
  }

  /** A single attribute is set iff a resource of its type was visited, and then it holds the last one's ID. */
  lemma {:induction false} SinglesAreLast(rs: seq<CloudResource>, s: SingleField)
    ensures s in ClassifyAll(rs).singles <==> HasType(rs, TypeOf(s))
    ensures s in ClassifyAll(rs).singles ==> LastOfType(rs, TypeOf(s), ClassifyAll(rs).singles[s])
    decreases |rs|
  {
    if |rs| > 0 {
      var init, last := rs[..|rs| - 1], rs[|rs| - 1];
      SinglesAreLast(init, s);
      ClassifyField(last, s);
      HasTypeSnoc(rs, TypeOf(s));
      if s in ClassifyAll(init).singles {
        LastOfTypeSnoc(rs, TypeOf(s), ClassifyAll(init).singles[s]);
      } else {
        LastOfTypeSnoc(rs, TypeOf(s), last.id);
      }
    }
  }

  // ---------------------------------------------------------------------
  // Properties of the data source.

  lemma {:induction false} NonSharedAppend(a: seq<CloudResource>, b: seq<CloudResource>)
    ensures NonShared(a + b) == NonShared(a) + NonShared(b)
    decreases |b|
  {
    if |b| == 0 {
      assert a + b == a;
    } else {
      assert (a + b)[..|a + b| - 1] == a + b[..|b| - 1];
      NonSharedAppend(a, b[..|b| - 1]);
    }
  }

  /** A shared resource, wherever it is among the listed ones, changes none of the attributes. */
  lemma SharedIgnored(a: seq<CloudResource>, r: CloudResource, b: seq<CloudResource>)
    requires r.shared
    ensures Classified(a + [r] + b) == Classified(a + b)
  {
    NonSharedAppend(a + [r], b);
    NonSharedAppend(a, [r]);
    NonSharedAppend(a, b);
    assert NonShared([r]) == [] by {
      assert [r][..0] == [];
    }
  }

  /** Every listed ID is the ID of a listed resource that is not shared and belongs in that list. */
  lemma ListedAreOwned(all: seq<CloudResource>, f: ListField)
    ensures forall x :: x in IdsOf(Classified(all), f) ==>
      exists r :: r in all && !r.shared && Member(f, r) && r.id == x
  {
    ListsAreSelections(NonShared(all), f);
  }

  /** With no resources, or only shared ones, every list is empty and no single attribute is set. */
  lemma NothingOwned(all: seq<CloudResource>)
    requires forall i :: 0 <= i < |all| ==> all[i].shared
    ensures forall f :: IdsOf(Classified(all), f) == []
    ensures Classified(all).singles == map[]
  {
  }

  /** The list attributes, in the order the data source sets them. */
  const AllLists: seq<ListField> := [
    AutoscalingConfigMasters, AutoscalingConfigNodes,
    AutoscalingGroupMasters, AutoscalingGroupNodes,
    IamInstanceProfileMasters, IamInstanceProfileNodes,
    IamRoleMasters, IamRoleNodes,
    InstanceMasters, InstanceNodes, InstanceBastion,
    Route53RecordsApi, Route53RecordsEtcd,
    SecurityGroupMasters, SecurityGroupNodes, SecurityGroupElbs,
    Subnets, EtcdVolumes]

  /** The total length of the lists `fs`. */
  function SumLengths(lists: map<ListField, seq<string>>, fs: seq<ListField>): nat {
    if |fs| == 0 then 0 else |ListOf(lists, fs[0])| + SumLengths(lists, fs[1..])
  }

  /** The number of resources of `rs` that land in some list. */
  function ListedCount(rs: seq<CloudResource>): (n: nat)
    ensures n <= |rs|
    decreases |rs|
  {
    if |rs| == 0 then 0 else ListedCount(rs[..|rs| - 1]) + (if Classify(rs[|rs| - 1]).ToList? then 1 else 0)
  }

  lemma {:induction false} SumAfterAppend(lists: map<ListField, seq<string>>, f: ListField, x: string, fs: seq<ListField>)
    requires forall i, j :: 0 <= i < j < |fs| ==> fs[i] != fs[j]
    ensures SumLengths(lists[f := ListOf(lists, f) + [x]], fs) == SumLengths(lists, fs) + (if f in fs then 1 else 0)
  {
    if |fs| > 0 {
      SumAfterAppend(lists, f, x, fs[1..]);
      assert f in fs <==> f == fs[0] || f in fs[1..];
      assert fs[0] !in fs[1..];
    }
  }

  lemma AllListsDistinct()
    ensures forall i, j :: 0 <= i < j < |AllLists| ==> AllLists[i] != AllLists[j]
  {
  }

  lemma EveryListCounted(f: ListField)
    ensures f in AllLists
  {
    match f
    case _ =>
  }

  lemma {:induction false} NoListsSumZero(fs: seq<ListField>)
    ensures SumLengths(map[], fs) == 0
  {
    if |fs| > 0 {
      NoListsSumZero(fs[1..]);
    }
  }

  /** One turn of the loop lengthens the lists by one in total if the resource lands in a list, else by none. */
  lemma RecordAddsOne(inv: Inventory, r: CloudResource)
    ensures SumLengths(Record(inv, r).lists, AllLists)
      == SumLengths(inv.lists, AllLists) + (if Classify(r).ToList? then 1 else 0)
  {
    var slot := Classify(r);
    if slot.ToList? {
      EveryListCounted(slot.list);
      AllListsDistinct();
      SumAfterAppend(inv.lists, slot.list, r.id, AllLists);
    } else {
      assert Record(inv, r).lists == inv.lists;
    }
  }

  /**
   * Each resource lands in at most one list, so the lists together are exactly
   * as long as the number of non-shared resources that land in one, which is
   * at most the number of non-shared resources.
   */
  lemma {:induction false} TotalListed(rs: seq<CloudResource>)
    ensures SumLengths(ClassifyAll(rs).lists, AllLists) == ListedCount(rs)
    decreases |rs|
  {
    if |rs| == 0 {
      NoListsSumZero(AllLists);
    } else {
      var init, last := rs[..|rs| - 1], rs[|rs| - 1];
      TotalListed(init);
      RecordAddsOne(ClassifyAll(init), last);
    }
  }

  lemma ListedBound(all: seq<CloudResource>)
    ensures SumLengths(Classified(all).lists, AllLists) <= |NonShared(all)| <= |all|
  {
    TotalListed(NonShared(all));
  }

  /** The four two-way types: a resource is on exactly one of the masters and nodes lists, masters iff its name contains "master". */
  lemma MastersOrNodes(r: CloudResource)
    requires r.rtype in {"autoscaling-config", "autoscaling-group", "iam-instance-profile", "iam-role"}
    ensures Classify(r).ToList?
    ensures Classify(r).list in {AutoscalingConfigMasters, AutoscalingGroupMasters, IamInstanceProfileMasters, IamRoleMasters}
      <==> Contains(r.name, "master")
  {
  }

  /** An instance is on exactly one of the masters, nodes and bastion lists, tested in that order. */
  lemma InstanceThreeWay(r: CloudResource)
    requires r.rtype == "instance"
    ensures Member(InstanceMasters, r) <==> Contains(r.name, "master")
    ensures Member(InstanceNodes, r) <==> !Contains(r.name, "master") && Contains(r.name, "nodes")
    ensures Member(InstanceBastion, r) <==> !Contains(r.name, "master") && !Contains(r.name, "nodes")
    ensures Classify(r) in {ToList(InstanceMasters), ToList(InstanceNodes), ToList(InstanceBastion)}
  {
  }

  /** A resource belongs in at most one list. */
  lemma AtMostOneList(r: CloudResource, f: ListField, g: ListField)
    requires Member(f, r) && Member(g, r)
    ensures f == g
  {
    ClassifyList(r, f);
    ClassifyList(r, g);
  }

  /** Unknown types, and route53 records and security groups whose names match no word, are on no list. */
  lemma UnlistedResources(r: CloudResource)
    requires r.rtype !in {"vpc", "dhcp-options", "internet-gateway", "route-table", "load-balancer", "keypair",
      "autoscaling-config", "autoscaling-group", "iam-instance-profile", "iam-role", "instance",
      "route53-record", "security-group", "subnet", "volume"}
      || (r.rtype == "route53-record" && !Contains(r.name, "api") && !Contains(r.name, "etcd"))
      || (r.rtype == "security-group" && !Contains(r.name, "master") && !Contains(r.name, "nodes") && !Contains(r.name, "elb"))
    ensures forall f :: !Member(f, r)
    ensures forall inv :: Record(inv, r) == inv
  {
  }

  /** A single resource that is not shared is classified on its own. */
  lemma ClassifiedSingle(r: CloudResource)
    requires !r.shared
    ensures Classified([r]) == Record(NoResources, r)
  {
    var rs := [r];
    assert rs[..0] == [];
    assert NonShared(rs) == NonShared([]) + [r];
    assert ClassifyAll(rs) == Record(ClassifyAll([]), r);
  }

  /** A security group named "master-nodes-sg" goes to the masters list: "master" is tested first. */
  lemma MasterNodesSecurityGroup()
    ensures var inv := Classified([CloudResource("sg", "sg-1", "master-nodes-sg", "security-group", false)]);
      IdsOf(inv, SecurityGroupMasters) == ["sg-1"] && IdsOf(inv, SecurityGroupNodes) == []
  {
    var r := CloudResource("sg", "sg-1", "master-nodes-sg", "security-group", false);
    assert Classify(r) == ToList(SecurityGroupMasters) by {
      assert OccursAt(r.name, "master", 0);
      assert r.rtype[0] == 's' && |r.rtype| == 14;
    }
    ClassifiedSingle(r);
    assert IdsOf(NoResources, SecurityGroupMasters) + [r.id] == ["sg-1"];
  }

}
