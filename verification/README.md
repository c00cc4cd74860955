# terraform-provider-kops, modelled in Dafny

This project models the part of the `kops_cluster` Terraform provider that
decides things before anything reaches the kops state store or the cloud.
Each module proves properties of that model.

- **Cluster planning** (`resourceKopsCreate`):
  - the input checks, in the order the provider makes them;
  - the `api.ClusterSpec` filled in field by field;
  - the authorization mode, DNS zone type and Kubernetes API access;
  - the public subnets, one per distinct zone;
  - the master instance groups, the etcd clusters, the `nodes` group and the bastion group.

  `ClusterCreate.PlanCreate` is the reference definition. The method
  `ClusterCreate.ResourceKopsCreate` follows the source step by step and is
  proved equal to it. Lemmas then state what the plan contains.
- **Shared-resource filter**: the loop that keeps every resource that is not
  shared, under its own key. It appears both in `resourceKopsDelete` and in
  the cloud-resources data source.
- **Cloud-resource classifier** (the data source's `switch` on the resource
  type):
  - eighteen ID lists and six single attributes;
  - the ordered tests on the resource name.
- **`parseCloudLabels`**: commas are turned into line breaks, and the result
  is read as CSV with `=` as the separator and exactly two fields per record.
  Go's `encoding/csv` reader is modelled as a character-by-character state
  machine (module `Csv`), covering the quoting rules of RFC 4180 section 2
  and Go's own rules (leading-space trimming, bare quotes, field count).
  The map is filled record by record, so a later key wins.
- **`trimCommonPrefix`**: removes, in place on the caller's slice, the bytes
  that every name shares at the front. It stops when the first name is down
  to one byte.

One behaviour is modelled exactly as written even though it reads oddly:
all three empty-list checks (`admin_access`, `master_zones`, `node_zones`)
fail with the same "Must provide node zones" error. The model therefore has
a single `MustProvideNodeZones` error for all three.

Modules:

| module | file | contents |
|---|---|---|
| `GoStrings` | go_strings.dfy | `Option`/`Result`; `strings.Contains`, `EqualFold`, `Replace`; `strconv.Itoa`; the `int32` conversion |
| `Csv` | csv.dfy | the `encoding/csv` reader as configured by `parseCloudLabels` |
| `Labels` | labels.dfy | `parseCloudLabels`, its encoder and round trip |
| `TrimPrefix` | trim_prefix.dfy | `trimCommonPrefix` on an array of byte strings |
| `CloudResources` | cloud_resources.dfy | the shared filter and the classifier |
| `KopsApi` | kops_api.dfy | the resource attributes and the kops API types that are filled in |
| `ApiAccess` | api_access.dfy | authorization mode, DNS type, API access resolution |
| `InstanceGroups` | instance_groups.dfy | subnets, masters, etcd clusters, nodes and bastion groups |
| `ClusterCreate` | cluster_create.dfy | `resourceKopsCreate` up to the state store, and the properties of its plan |

## Model

| member | source | states |
|---|---|---|
| Labels.ParseCloudLabels | kops/helpers.go:11-34 | The method returns exactly `LabelsOf(s)`. That function replaces commas with line breaks and reads the records. A read error is reported together with the rewritten input; otherwise the map is filled record by record. |
| Labels.LabelsRoundTrip | kops/helpers.go:9-34 | Labels whose keys and values hold no comma and no carriage return, written as `key=value` entries (quoted where needed), parse back to their map, with the later of two equal keys winning. The written text holds no carriage return, so Go's `\r` handling, which the reader model leaves out, does not apply to it. |
| Labels.LastWinsKeys | kops/helpers.go:29-32 | The keys of the map are exactly the first fields of the records. |
| Labels.LastWinsValue | kops/helpers.go:29-32 | Every value in the map is the second field of some record with that key. |
| Labels.LastWinsSize | kops/helpers.go:29-32 | The map has at most as many entries as there are records. |
| Labels.CommaIsLineBreak | kops/helpers.go:16 | Two inputs that differ only in commas versus line breaks parse to the same result, so a comma inside quotes still splits. |
| Labels.TwoLabels | kops/helpers.go:11-34 | `a=1,b=2` parses to `{a: 1, b: 2}`. |
| Labels.QuotedValue | kops/helpers.go:9-10 | `foo="bar=baz"` parses to `{foo: bar=baz}`, the example in the function's comment. |
| Labels.NoLabels | kops/helpers.go:11-34 | The empty string parses to the empty map. |
| Labels.MissingValue | kops/helpers.go:21-27 | `a=1,b` fails with a field-count error that reports `a=1\nb`. |
| Labels.TooManyFields | kops/helpers.go:20-27 | `a=1=2` fails with a field-count error. |
| Labels.BareQuoteFails | kops/helpers.go:22-27 | With lazy quotes off, `a=b"c` fails with a bare-quote error. |
| Labels.LeadingSpaceTrimmed | kops/helpers.go:23 | ` a= 1` parses to `{a: 1}`. |
| Labels.CommaInQuotes | kops/helpers.go:9-16 | `a="x,y"` gives the value `x` line-break `y`: nested commas are not kept. |
| Csv.ReadAll | kops/helpers.go:19-24 | `ReadAll` equals its state-machine specification, and every record it returns has exactly two fields. |
| Csv.RecordsHaveTwoFields | kops/helpers.go:21 | Whenever reading succeeds, every record has `FieldsPerRecord` = 2 fields. |
| Csv.FailureIsFinal | kops/helpers.go:24-27 | Once the reader has failed, no further input changes the outcome. |
| Csv.RunFromAppend | kops/helpers.go:24 | Reading `s + t` is reading `s` and then `t`. |
| GoStrings.ReplaceAll | kops/helpers.go:16 | Same length; every `from` becomes `to` and every other character is kept; no `from` is left. |
| GoStrings.Contains | kops/data_source_kops_cloud_resources.go:107 | `Contains(s, sub)` holds exactly when `sub` occurs at some position of `s`. |
| GoStrings.EqualFold | kops/resource_kops_cluster.go:327-329 | Strings that fold equal have the same length, and equal strings fold equal. |
| GoStrings.Itoa | kops/resource_kops_cluster.go:417 | The decimal text is non-empty and made of digits, and it has one digit exactly when the number is below 10. |
| GoStrings.ItoaInjective | kops/resource_kops_cluster.go:417 | Different numbers have different decimal texts. |
| GoStrings.Int32 | kops/resource_kops_cluster.go:260 | `int32(x)` lies in the 32-bit range, is congruent to `x` modulo 2^32, and is `x` itself when `x` is in range. |
| TrimPrefix.TrimCommonPrefix | kops/resource_kops_cluster.go:660-682 | The method rewrites the array in place to `Trimmed` of its old contents and returns the same array. |
| TrimPrefix.TrimmedDropsCommonPrefix | kops/resource_kops_cluster.go:660-682 | The names keep their number and order. Each loses its first `TrimDepth` bytes, and those bytes are the same in every name. |
| TrimPrefix.TrimmedStops | kops/resource_kops_cluster.go:663-674 | The loop stops only when there are no names, the first name is at most one byte long, or some name does not share the first name's first byte. |
| TrimPrefix.ShorterNameEmptied | kops/resource_kops_cluster.go:663 | Only the first name's length is checked: `["ab", "a"]` becomes `["b", ""]`. |
| TrimPrefix.LastByteKept | kops/resource_kops_cluster.go:660-682 | Two names that differ only in their last byte are cut down to that byte, whatever the length of their common part. |
| TrimPrefix.MasterNames | kops/resource_kops_cluster.go:660-682 | `["master-a", "master-b"]` becomes `["a", "b"]`. |
| TrimPrefix.DifferentFirstBytes | kops/resource_kops_cluster.go:672-674 | When some name is empty or does not start with the first name's first byte, every name is left alone. |
| CloudResources.FilterShared | kops/resource_kops_cluster.go:600-606 | A key is in the result exactly when some resource with that key is not shared, and every unshared resource is kept under its own key. |
| CloudResources.ReadCloudResources | kops/data_source_kops_cloud_resources.go:74-189 | The method returns exactly `Classified(all)`: the unshared resources, visited in order by the `switch` loop. |
| CloudResources.ClassifyList | kops/data_source_kops_cloud_resources.go:106-163 | A resource goes to ID list `f` exactly when it meets `f`'s declarative membership condition on its type and name. |
| CloudResources.ClassifyField | kops/data_source_kops_cloud_resources.go:89-104 | A resource sets single attribute `s` exactly when its type is the one that attribute is named after. |
| CloudResources.ListsAreSelections | kops/data_source_kops_cloud_resources.go:85-168 | Each ID list holds exactly the IDs of the visited resources that belong in it, in visiting order. |
| CloudResources.SinglesAreLast | kops/data_source_kops_cloud_resources.go:89-104 | A single attribute is set exactly when some resource has its type, and it then holds the ID of the last such resource. |
| CloudResources.NonSharedAppend | kops/data_source_kops_cloud_resources.go:74-80 | The shared filter distributes over concatenation. |
| CloudResources.SharedIgnored | kops/data_source_kops_cloud_resources.go:76-78 | Inserting a shared resource anywhere changes nothing in the result. |
| CloudResources.ListedAreOwned | kops/data_source_kops_cloud_resources.go:74-168 | Every listed ID belongs to an unshared resource that meets the list's condition. |
| CloudResources.NothingOwned | kops/data_source_kops_cloud_resources.go:81-82 | When every resource is shared, all lists are empty and no single attribute is set. |
| CloudResources.TotalListed | kops/data_source_kops_cloud_resources.go:85-168 | The list lengths add up to the number of visited resources that land in some list. |
| CloudResources.ListedBound | kops/data_source_kops_cloud_resources.go:74-168 | The list lengths add up to at most the number of unshared resources, which is at most the number of resources. |
| CloudResources.MastersOrNodes | kops/data_source_kops_cloud_resources.go:106-132 | The four autoscaling and IAM types always land in a list, and in the masters list exactly when the name contains "master". |
| CloudResources.InstanceThreeWay | kops/data_source_kops_cloud_resources.go:134-141 | An instance is a master, a node or a bastion, decided in that order by "master" and then "nodes" in its name. |
| CloudResources.AtMostOneList | kops/data_source_kops_cloud_resources.go:87-167 | No resource meets the conditions of two different lists. |
| CloudResources.UnlistedResources | kops/data_source_kops_cloud_resources.go:143-166 | Unknown types, route53 records that are neither "api" nor "etcd", and security groups that are neither masters, nodes nor "elb" are dropped. |
| CloudResources.MasterNodesSecurityGroup | kops/data_source_kops_cloud_resources.go:151-158 | A security group named `master-nodes-sg` is listed only with the masters. |
| ApiAccess.AuthorizationFor | kops/resource_kops_cluster.go:326-333 | The mode is accepted exactly when it folds to "AlwaysAllow" or "RBAC", and then exactly one of the two modes is set. Otherwise the error names the mode. |
| ApiAccess.AuthorizationIgnoresCase | kops/resource_kops_cluster.go:327-329 | Modes that differ only in ASCII case are accepted or refused together, and select the same mode. |
| ApiAccess.AuthorizationExamples | kops/resource_kops_cluster.go:326-333 | "rbac" selects RBAC, "alwaysallow" selects AlwaysAllow, and "none" is refused. |
| ApiAccess.ResolveApiAccess | kops/resource_kops_cluster.go:357-390 | A resolved access spec is never empty and has no untyped load balancer. An access spec that already chose DNS keeps it. The only errors are an unknown master topology and an unknown load-balancer type. |
| ApiAccess.ResolveEmptyAccess | kops/resource_kops_cluster.go:360-390 | For an empty access spec, the outcome in every case of load-balancer type, master topology and gossip name. |
| ApiAccess.ResolveChosenAccess | kops/resource_kops_cluster.go:360-390 | An access spec that already chose a method is kept, except that an untyped load balancer gets its type or an error. |
| ApiAccess.LoadBalancerTypes | kops/resource_kops_cluster.go:381-390 | "public" and "internal" give those types, and "classic" is rejected. |
| ApiAccess.OtherTypesFail | kops/resource_kops_cluster.go:381-390 | Any type other than "", "public" and "internal" fails with an error that names that type. |
| InstanceGroups.BuildSubnets | kops/resource_kops_cluster.go:396-409 | The subnet loop with its `keys` map returns `SubnetsFor` the node zones followed by the master zones. |
| InstanceGroups.FirstOccurrences | kops/resource_kops_cluster.go:396-409 | The same set of zones, with no zone twice. |
| InstanceGroups.FirstOccurrenceOrder | kops/resource_kops_cluster.go:399-407 | Zones keep the order of their first occurrence. |
| InstanceGroups.SubnetsCoverZones | kops/resource_kops_cluster.go:396-409 | There is one public subnet per distinct zone, named after its zone, with no name twice. |
| InstanceGroups.SubnetsExample | kops/resource_kops_cluster.go:396-409 | Zones `a b a c` give the subnets `a b c`. |
| InstanceGroups.BuildMasters | kops/resource_kops_cluster.go:412-431 | The master loop makes `max(master_count, 0)` groups, group `i` being `MasterGroup(cfg, i)`. |
| InstanceGroups.MasterNamesDistinct | kops/resource_kops_cluster.go:412-421 | With distinct master zones, no two masters share a name. |
| InstanceGroups.NameWithoutRound | kops/resource_kops_cluster.go:415-421 | With at most one master per zone, the name of master `i` after "master-" is its zone, with no round suffix. |
| InstanceGroups.FourMastersTwoZones | kops/resource_kops_cluster.go:412-421 | Four masters over zones `a b` are `master-a-1`, `master-b-1`, `master-a-2` and `master-b-2`. |
| InstanceGroups.OneMasterPerZone | kops/resource_kops_cluster.go:412-421 | Three masters over three zones carry no round suffix. |
| InstanceGroups.BuildEtcdClusters | kops/resource_kops_cluster.go:440-457 | The nested etcd loops make one cluster per name, and cluster `k` is `EtcdClusterFor(names[k], …)`. |
| InstanceGroups.EtcdMemberTotal | kops/resource_kops_cluster.go:440-457 | There are \|names\| × \|masters\| etcd members in all. |
| InstanceGroups.EtcdMembersFollowMasters | kops/resource_kops_cluster.go:446-454 | Each cluster has one member per master, in master order, named after it and in its group. The volume is marked encrypted only when encryption is asked for. |
| ClusterCreate.ResourceKopsCreate | kops/resource_kops_cluster.go:221-469 | The step-by-step method returns exactly `PlanCreate`: the same error in the same order, or the same plan. |
| ClusterCreate.NewClusterSpec | kops/resource_kops_cluster.go:285-324 | The spec as set before the authorization mode is read, and the bastion group exactly when one is wanted. |
| ClusterCreate.CompletePlan | kops/resource_kops_cluster.go:326-469 | The rest of the method, from the authorization mode onward, also yields `PlanCreate`. |
| ClusterCreate.CreateSucceedsIff | kops/resource_kops_cluster.go:225-333 | Creation succeeds exactly when the admin list and both zone lists are non-empty, the labels parse and the mode is known. The error for each failed check is given, in the source's order: an empty admin list first, then a labels parse error (which carries the reader's error and comes before the zone checks), then an empty zone list, then an unknown mode. |
| ClusterCreate.PlanCreateOk | kops/resource_kops_cluster.go:285-469 | The plan produced when every check passes. |
| ClusterCreate.DnsAccessKept | kops/resource_kops_cluster.go:324-325 | The DNS access set before resolution is kept, so resolution never fails here. |
| ClusterCreate.ApiThroughDns | kops/resource_kops_cluster.go:324-390 | The API is always reached through DNS without a load balancer, and `api_load_balancer_type` changes nothing in the plan. |
| ClusterCreate.AuthorizationPlanned | kops/resource_kops_cluster.go:326-333 | The planned authorization is AlwaysAllow exactly for an "AlwaysAllow" mode, and RBAC exactly for an "RBAC" mode that is not that. |
| ClusterCreate.ClusterNamed | kops/resource_kops_cluster.go:285-315 | The cluster's `ObjectMeta.Name` is the `name` attribute, and a planned bastion's public name is "bastion." followed by that name. |
| ClusterCreate.BastionPlanned | kops/resource_kops_cluster.go:307-318 | The `bastions` group and the bastion public name are planned exactly when a bastion is asked for with a topology other than "public". The bastion group is never registered. |
| ClusterCreate.TopologyPlanned | kops/resource_kops_cluster.go:335-346 | Networking is Calico v3, masters and nodes are public, and the DNS zone is private exactly for "private". |
| ClusterCreate.CloudLabelsPlanned | kops/resource_kops_cluster.go:320-322 | The parsed labels are set exactly when they are non-empty. |
| ClusterCreate.SubnetsPlanned | kops/resource_kops_cluster.go:396-409 | There is one public subnet per distinct node or master zone, with no name twice. |
| ClusterCreate.GroupsHaveSubnets | kops/resource_kops_cluster.go:396-469 | Every zone of every registered group has its subnet. |
| ClusterCreate.MastersPlanned | kops/resource_kops_cluster.go:412-431 | The plan has `max(master_count, 0)` masters, master `i` in zone `i mod n`, with distinct names when the zones are distinct. |
| ClusterCreate.EtcdPlanned | kops/resource_kops_cluster.go:440-457 | There is one etcd cluster per name, at the configured version, with one member per master: \|names\| × \|masters\| members. |
| ClusterCreate.NodesPlanned | kops/resource_kops_cluster.go:459-469 | The `nodes` group spans the node zones, and its sizes are the attributes converted to `int32`. |

## Left out

- Everything after the groups are built is not modelled:
  - storing the groups and the cluster (the `Create` calls inside the master loop and for `nodes`, and `CreateCluster`);
  - SSH keys, `PerformAssignments`, `ApplyClusterCmd` and the kubeconfig.
  These are foreign calls and I/O. For the same reason, their errors are not modelled: a master whose `Create` fails stops the loop in the source, but not in the model.
- The state-store path is not modelled: `BuildVfsPath`, its error and `ConfigBase`.
- `resourceKopsRead` and `resourceKopsUpdate` are not modelled. They only read the cluster's name back from the store.
- In `resourceKopsDelete`, only the shared filter is modelled. Listing, deleting and the kubeconfig are calls into kops.
- `dnsGossip.IsGossipHostname` is a parameter, a predicate on the cluster name.
- `cloudup.EtcdClusters` is a parameter, the list of etcd cluster names. Its value lives in kops and is not part of this model.
- `api.AccessSpec.IsEmpty` is taken to mean that neither DNS nor a load balancer is chosen. Its definition lives in kops.
- The Terraform schema (`d.Get`) is not modelled. The resource's attributes are a `Config` value.
- Log and console messages are not modelled, for example the data source's "not implemented" message for unknown types.
- The data source's lookup of the cluster and cloud is not modelled; the resource list is an input.
- Go map iteration order is unspecified. The model visits resources in the order of its input sequence, so when several resources share a single attribute, "last" means last in that order.
- CloudResources.FilterShared: the Go map of all resources is a sequence whose keys are required to be distinct (`DistinctKeys`), since a map cannot hold two entries under one key.
- Csv.ReadAll: Go's reader also turns `\r\n` into `\n`, drops a `\r` just before the end of its input, and counts line numbers for its error messages. None of these is modelled, and errors carry only their kind. So `Labels.ParseCloudLabels` differs from the source on label text that holds `\r`: for example, the model reads `a=b\r` as the value `b\r` where Go gives `b`, and it rejects a line holding only `\r`, which Go skips as empty. The round trip `Labels.LabelsRoundTrip` is therefore stated only for labels without `\r`.
- GoStrings.EqualFold: Unicode simple case folding is reduced to ASCII case.
- `parseCloudLabels` appears twice in the repository, once in `kops/helpers.go` and once in `kops/resource_kops_cluster.go`, with the same body. It is modelled once.
- Terraform integers are Go `int`. The model uses unbounded integers except where the source converts to `int32`.
