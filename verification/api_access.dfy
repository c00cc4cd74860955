/**
 * The choices `resourceKopsCreate` makes from single attributes: the
 * authorization mode, the DNS zone type, and how the Kubernetes API is
 * reached (kops/resource_kops_cluster.go).
 */
module ApiAccess {
  import opened GoStrings
  import opened KopsApi

  /** The `authorization` attribute, compared without regard to ASCII case. */
  function AuthorizationFor(mode: string): (r: Result<Authorization, CreateError>)
    ensures r.Ok? <==> EqualFold(mode, "AlwaysAllow") || EqualFold(mode, "RBAC")
    ensures r.Ok? ==> r.value.alwaysAllow != r.value.rbac
    ensures r.Err? ==> r.error == UnknownAuthorization(mode)
  {
    if EqualFold(mode, "AlwaysAllow") then Ok(Authorization(true, false))
    else if EqualFold(mode, "RBAC") then Ok(Authorization(false, true))
    else Err(UnknownAuthorization(mode))
  }

  /** Only the ASCII case of the letters decides which mode is chosen, or whether one is. */
  lemma AuthorizationIgnoresCase(a: string, b: string)
    requires |a| == |b| && forall i :: 0 <= i < |a| ==> LowerAscii(a[i]) == LowerAscii(b[i])
    ensures AuthorizationFor(a).Ok? <==> AuthorizationFor(b).Ok?
    ensures AuthorizationFor(a).Ok? ==> AuthorizationFor(a).value == AuthorizationFor(b).value
  {
    SameFold(a, b, "AlwaysAllow");
    SameFold(a, b, "RBAC");
  }

  lemma SameFold(a: string, b: string, x: string)
    requires |a| == |b| && forall i :: 0 <= i < |a| ==> LowerAscii(a[i]) == LowerAscii(b[i])
    ensures EqualFold(a, x) <==> EqualFold(b, x)
  {
    if EqualFold(a, x) {
      forall i | 0 <= i < |b| ensures LowerAscii(b[i]) == LowerAscii(x[i]) {
        assert LowerAscii(a[i]) == LowerAscii(x[i]);
      }
    }
    if EqualFold(b, x) {
      forall i | 0 <= i < |a| ensures LowerAscii(a[i]) == LowerAscii(x[i]) {
        assert LowerAscii(b[i]) == LowerAscii(x[i]);
      }
    }
  }

  /** "rbac" selects RBAC alone; "alwaysallow" selects AlwaysAllow alone; "none" is refused. */
  lemma AuthorizationExamples()
    ensures AuthorizationFor("rbac") == Ok(Authorization(false, true))
    ensures AuthorizationFor("alwaysallow") == Ok(Authorization(true, false))
    ensures AuthorizationFor("none") == Err(UnknownAuthorization("none"))
  {
    assert EqualFold("rbac", "RBAC");
    assert EqualFold("alwaysallow", "AlwaysAllow");
    assert LowerAscii("none"[0]) != LowerAscii("RBAC"[0]);
  }

  /** `dns == "private"` gives a private zone, anything else a public one. */
  function DnsTypeFor(dns: string): DnsType {
    if dns == "private" then DnsPrivate else DnsPublic
  }

  /** The type a load balancer without one gets from the `api_load_balancer_type` attribute, if that is a known type. */
  function DefaultLoadBalancerType(apiLoadBalancerType: string): Option<LoadBalancerType> {
    if apiLoadBalancerType == "" || apiLoadBalancerType == "public" then Some(Public)
    else if apiLoadBalancerType == "internal" then Some(Internal)
    else None
  }

  const NoLoadBalancerType: LoadBalancerAccess := LoadBalancerAccess(Unset)

  /**
   * The API-access resolution: an empty access spec is given a load balancer
   * when a load-balancer type was asked for, and otherwise DNS or a load
   * balancer according to the masters' topology and whether the cluster name
   * is a gossip name; then a load balancer without a type gets one from the
   * requested type.
   */
  function ResolveApiAccess(api: Option<AccessSpec>, apiLoadBalancerType: string, mastersTopology: string,
                            clusterName: string, isGossipHostname: string -> bool): (r: Result<AccessSpec, CreateError>)
    ensures r.Ok? ==> !IsEmpty(r.value)
    ensures r.Ok? && r.value.loadBalancer.Some? ==> r.value.loadBalancer.value.lbType != Unset
    ensures r.Ok? && api.Some? && !IsEmpty(api.value) ==> r.value.dns == api.value.dns
    ensures r.Err? ==> r.error in {UnknownMasterTopology(mastersTopology), UnknownLoadBalancerType(apiLoadBalancerType)}
  {
    var a := if api.None? then AccessSpec(false, None) else api.value;
    var chosen: Result<AccessSpec, CreateError> :=
      if !IsEmpty(a) then Ok(a)
      else if apiLoadBalancerType != "" then Ok(a.(loadBalancer := Some(NoLoadBalancerType)))
      else if mastersTopology == TopologyPublic then
        // gossip names do not resolve outside the cluster
        if isGossipHostname(clusterName) then Ok(a.(loadBalancer := Some(NoLoadBalancerType)))
        else Ok(a.(dns := true))
      else if mastersTopology == TopologyPrivate then Ok(a.(loadBalancer := Some(NoLoadBalancerType)))
      else Err(UnknownMasterTopology(mastersTopology));
    match chosen
    case Err(e) => Err(e)
    case Ok(b) =>
      if b.loadBalancer.Some? && b.loadBalancer.value.lbType == Unset then
        match DefaultLoadBalancerType(apiLoadBalancerType)
        case Some(t) => Ok(b.(loadBalancer := Some(LoadBalancerAccess(t))))
        case None => Err(UnknownLoadBalancerType(apiLoadBalancerType))
      else Ok(b)
  }

  /** The outcome of resolution for an empty (or missing) access spec, branch by branch. */
  lemma ResolveEmptyAccess(api: Option<AccessSpec>, lbType: string, masters: string, name: string, isGossip: string -> bool)
    requires api.None? || IsEmpty(api.value)
    ensures var r := ResolveApiAccess(api, lbType, masters, name, isGossip);
      var lb := DefaultLoadBalancerType(lbType);
      && (lbType != "" ==>
            r == if lb.Some? then Ok(AccessSpec(false, Some(LoadBalancerAccess(lb.value)))) else Err(UnknownLoadBalancerType(lbType)))
      && (lbType == "" && masters == TopologyPublic && isGossip(name) ==> r == Ok(AccessSpec(false, Some(LoadBalancerAccess(Public)))))
      && (lbType == "" && masters == TopologyPublic && !isGossip(name) ==> r == Ok(AccessSpec(true, None)))
      && (lbType == "" && masters == TopologyPrivate ==> r == Ok(AccessSpec(false, Some(LoadBalancerAccess(Public)))))
      && (lbType == "" && masters != TopologyPublic && masters != TopologyPrivate ==> r == Err(UnknownMasterTopology(masters)))
  {
  }

  /** "public" and the empty type give a public load balancer, "internal" an internal one, anything else an error. */
  lemma LoadBalancerTypes(masters: string, name: string, isGossip: string -> bool)
    ensures ResolveApiAccess(None, "public", masters, name, isGossip) == Ok(AccessSpec(false, Some(LoadBalancerAccess(Public))))
    ensures ResolveApiAccess(None, "internal", masters, name, isGossip) == Ok(AccessSpec(false, Some(LoadBalancerAccess(Internal))))
    ensures ResolveApiAccess(None, "classic", masters, name, isGossip) == Err(UnknownLoadBalancerType("classic"))
  {
  }

  /** Every load-balancer type other than "", "public" and "internal" is rejected by name. */
  lemma OtherTypesFail(lbType: string, masters: string, name: string, isGossip: string -> bool)
    requires lbType != "" && lbType != "public" && lbType != "internal"
    ensures ResolveApiAccess(None, lbType, masters, name, isGossip) == Err(UnknownLoadBalancerType(lbType))
  {
  }

  /**
   * An access spec that already chooses a method is left as it is, except
   * that a load balancer without a type gets one; in particular, DNS access
   * without a load balancer is kept whatever type was asked for.
   */
  lemma ResolveChosenAccess(a: AccessSpec, lbType: string, masters: string, name: string, isGossip: string -> bool)
    requires !IsEmpty(a)
    ensures a.loadBalancer.None? || a.loadBalancer.value.lbType != Unset ==>
      ResolveApiAccess(Some(a), lbType, masters, name, isGossip) == Ok(a)
    ensures a.loadBalancer.Some? && a.loadBalancer.value.lbType == Unset ==>
      ResolveApiAccess(Some(a), lbType, masters, name, isGossip) ==
        if DefaultLoadBalancerType(lbType).Some? then Ok(a.(loadBalancer := Some(LoadBalancerAccess(DefaultLoadBalancerType(lbType).value))))
        else Err(UnknownLoadBalancerType(lbType))
  {
  }
}
