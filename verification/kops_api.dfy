/**
 * The parts of kops' API types (`api.Cluster`, `api.ClusterSpec`,
 * `api.InstanceGroup` and the specs they hold) that `resourceKopsCreate`
 * fills in, and the values it reads from the Terraform resource. A Go
 * pointer field that may stay nil is an `Option`.
 */
module KopsApi {
  import opened GoStrings
  import Labels

  /** The attributes of the `kops_cluster` resource that `resourceKopsCreate` reads. */
  datatype Config = Config(
    adminAccess: seq<string>,
    apiLoadBalancerType: string,
    authorization: string,
    associatePublicIp: bool,
    bastion: bool,
    cloud: string,
    cloudLabels: string,
    name: string,
    dns: string,
    encryptEtcdStorage: bool,
    etcdVersion: string,
    image: string,
    k8sVersion: string,
    masterCount: int,
    masterSize: string,
    masterVolumeSize: int,
    masterZones: seq<string>,
    networkCidr: string,
    nodeMaxSize: int,
    nodeMinSize: int,
    nodeSize: string,
    nodeVolumeSize: int,
    nodeZones: seq<string>,
    nonMasqueradeCidr: string,
    topology: string,
    vpcId: string)

  /** `api.TopologyPublic` and `api.TopologyPrivate`. */
  const TopologyPublic: string := "public"
  const TopologyPrivate: string := "private"

  /** `api.LoadBalancerType`; the empty string is `Unset`. */
  datatype LoadBalancerType = Unset | Public | Internal

  datatype LoadBalancerAccess = LoadBalancerAccess(lbType: LoadBalancerType)

  /** `api.AccessSpec`: how the Kubernetes API is reached, through DNS, a load balancer, or neither yet. */
  datatype AccessSpec = AccessSpec(dns: bool, loadBalancer: Option<LoadBalancerAccess>)

  /** `AccessSpec.IsEmpty`: neither access method is chosen. */
  predicate IsEmpty(a: AccessSpec) {
    !a.dns && a.loadBalancer.None?
  }

  /** `api.AuthorizationSpec`: which of its two modes is set. */
  datatype Authorization = Authorization(alwaysAllow: bool, rbac: bool)

  datatype DnsType = DnsPublic | DnsPrivate

  datatype BastionSpec = BastionSpec(bastionPublicName: string)

  /** `api.TopologySpec`. */
  datatype TopologySpec = TopologySpec(masters: string, nodes: string, dns: Option<DnsType>, bastion: Option<BastionSpec>)

  datatype SubnetType = SubnetPublic

  /** `api.ClusterSubnetSpec`. */
  datatype Subnet = Subnet(name: string, zone: string, subnetType: SubnetType)

  /** `api.EtcdMemberSpec`. */
  datatype EtcdMember = EtcdMember(name: string, instanceGroup: Option<string>, encryptedVolume: Option<bool>)

  /** `api.EtcdClusterSpec`. */
  datatype EtcdCluster = EtcdCluster(name: string, version: string, members: seq<EtcdMember>)

  /** `api.IAMSpec`. */
  datatype IamSpec = IamSpec(allowContainerRegistry: bool, legacy: bool)

  /** `api.KubeletConfigSpec`, the three settings the provider fixes. */
  datatype KubeletSpec = KubeletSpec(anonymousAuth: Option<bool>, authenticationTokenWebhook: Option<bool>, authorizationMode: string)

  /** `api.NetworkingSpec`: only Calico is ever chosen; its major version is recorded. */
  datatype NetworkingSpec = Calico(majorVersion: string)

  /** The fields of `api.ClusterSpec` that `resourceKopsCreate` sets. */
  datatype ClusterSpec = ClusterSpec(
    channel: string,
    cloudProvider: string,
    kubernetesApiAccess: seq<string>,
    kubernetesVersion: string,
    sshAccess: seq<string>,
    networkCidr: string,
    networkId: string,
    iam: Option<IamSpec>,
    topology: TopologySpec,
    cloudLabels: Option<map<string, string>>,
    api: Option<AccessSpec>,
    authorization: Option<Authorization>,
    networking: Option<NetworkingSpec>,
    nonMasqueradeCidr: string,
    kubelet: Option<KubeletSpec>,
    subnets: seq<Subnet>,
    etcdClusters: seq<EtcdCluster>)

  datatype Role = Master | Node | Bastion

  /** `api.InstanceGroup`: its name and the fields of its spec the provider sets. */
  datatype InstanceGroup = InstanceGroup(
    name: string,
    role: Role,
    image: string,
    machineType: string,
    rootVolumeSize: Option<int>,
    subnets: seq<string>,
    associatePublicIp: Option<bool>,
    minSize: Option<int>,
    maxSize: Option<int>)

  /** Why `resourceKopsCreate` stops before anything is stored. */
  datatype CreateError =
    | MustProvideNodeZones            // the message of all three empty-list checks
    | CloudLabelsError(cause: Labels.LabelError)
    | UnknownAuthorization(mode: string)
    | UnknownMasterTopology(topology: string)
    | UnknownLoadBalancerType(lbType: string)
}
