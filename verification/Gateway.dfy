/** The gateway in front of the servers: what the operator builds, what it demands of a gateway it
    does not own, and which pods a port reaches through listeners, routes and services. */
module Gateway {
  import opened Api
  import opened Decimal
  import opened RpcPath

  datatype Protocol = TLS | TCP | OtherProtocol(name: string)

  // Which namespaces may attach routes; unset means the gateway's own.
  datatype From = All | Same | Selector | OtherFrom(name: string)

  datatype Listener = Listener(name: string, port: int, protocol: Protocol, hostname: Option<string>, from: Option<From>)

  datatype GatewayObject = GatewayObject(
    name: string, namespace: string, listeners: seq<Listener>, addresses: seq<string>)

  datatype Reference = Reference(name: string, namespace: string)

  // The part of a cluster's spec that access through a gateway depends on. `existing` names the
  // user's gateway, if the operator does not manage its own.
  datatype Spec = Spec(
    name: string, namespace: string, servers: nat, rpcPorts: seq<int>, httpHostname: string, existing: Option<Reference>)

  const PORT_HTTP := 4646
  const LISTENER_HTTP := "http"

  function ListenerRPC(ordinal: nat): string { "rpc-" + Itoa(ordinal) }

  function PodSvc(cluster: string, ordinal: nat): string { StatefulSet(cluster) + "-" + Itoa(ordinal) + "-rpc" }

  /* --------------------------------- Names --------------------------------- */

  lemma ListenerNamesDistinct(i: nat, j: nat)
    ensures ListenerRPC(i) != LISTENER_HTTP
    ensures ListenerRPC(i) == ListenerRPC(j) ==> i == j
  {
    assert ListenerRPC(i)[0] == 'r' && LISTENER_HTTP[0] == 'h';
    if ListenerRPC(i) == ListenerRPC(j) {
      assert Itoa(i) == ListenerRPC(i)[4..] == ListenerRPC(j)[4..] == Itoa(j);
      ItoaInjective(i, j);
    }
  }

  lemma PodNamesDistinct(cluster: string, i: nat, j: nat)
    ensures PodName(cluster, i) == PodName(cluster, j) ==> i == j
    ensures PodSvc(cluster, i) == PodSvc(cluster, j) ==> i == j
  {
    var n := |StatefulSet(cluster)| + 1;
    if PodName(cluster, i) == PodName(cluster, j) {
      assert Itoa(i) == PodName(cluster, i)[n..] == PodName(cluster, j)[n..] == Itoa(j);
      ItoaInjective(i, j);
    }
    if PodSvc(cluster, i) == PodSvc(cluster, j) {
      var s := PodSvc(cluster, i);
      assert Itoa(i) == s[n..|s| - 4] == PodSvc(cluster, j)[n..|s| - 4] == Itoa(j);
      ItoaInjective(i, j);
    }
  }

  /* --------------------------------- What the operator builds --------------------------------- */

  function HTTPListener(spec: Spec): Listener {
    Listener(LISTENER_HTTP, PORT_HTTP, TLS, Some(spec.httpHostname), None)
  }

  function RPCListener(spec: Spec, ordinal: nat): Listener
    requires ordinal < |spec.rpcPorts|
  {
    Listener(ListenerRPC(ordinal), spec.rpcPorts[ordinal], TCP, None, None)
  }

  // A route hangs on the listener of its section and forwards to a service.
  datatype Route = Route(parent: Reference, section: string, hostname: Option<string>, backend: string, backendPort: int)

  // The owned gateway, or the referenced one.
  function ParentGateway(spec: Spec): Reference {
    match spec.existing
    case Some(ref) => ref
    case None => Reference(spec.name + "-gateway", spec.namespace)
  }

  function BuildTLSRoute(spec: Spec): Route {
    Route(ParentGateway(spec), LISTENER_HTTP, Some(spec.httpHostname), spec.name + "-nomad", PORT_HTTP)
  }

  function TCPRoute(spec: Spec, ordinal: nat): Route {
    Route(ParentGateway(spec), ListenerRPC(ordinal), None, PodSvc(spec.name, ordinal), PORT_RPC)
  }

  /** One TLS listener and one TCP listener per port, in order. */
  method BuildManagedGateway(spec: Spec) returns (gw: GatewayObject)
    ensures gw == ManagedGateway(spec, [])
  {
    hide HTTPListener, RPCListener;
    var listeners := [HTTPListener(spec)];
    for ordinal := 0 to |spec.rpcPorts|
      invariant |listeners| == 1 + ordinal && listeners[0] == HTTPListener(spec)
      invariant forall k :: 0 <= k < ordinal ==> listeners[1 + k] == RPCListener(spec, k)
    {
      listeners := listeners + [RPCListener(spec, ordinal)];
    }
    gw := GatewayObject(spec.name + "-gateway", spec.namespace, listeners, []);
    assert listeners == ManagedGateway(spec, []).listeners;
  }

  // The owned gateway with the addresses its controller assigned.
  function ManagedGateway(spec: Spec, addresses: seq<string>): (gw: GatewayObject)
    ensures |gw.listeners| == 1 + |spec.rpcPorts| && gw.listeners[0] == HTTPListener(spec)
    ensures forall k :: 0 <= k < |spec.rpcPorts| ==> gw.listeners[1 + k] == RPCListener(spec, k)
  {
    var rpc := seq(|spec.rpcPorts|, k requires 0 <= k < |spec.rpcPorts| => RPCListener(spec, k));
    GatewayObject(spec.name + "-gateway", spec.namespace, [HTTPListener(spec)] + rpc, addresses)
  }

  method BuildTCPRoutes(spec: Spec) returns (routes: seq<Route>)
    ensures |routes| == spec.servers && forall k :: 0 <= k < |routes| ==> routes[k] == TCPRoute(spec, k)
  {
    routes := [];
    for ordinal := 0 to spec.servers
      invariant |routes| == ordinal && forall k :: 0 <= k < ordinal ==> routes[k] == TCPRoute(spec, k)
    {
      routes := routes + [TCPRoute(spec, ordinal)];
    }
  }

  /* --------------------------------- Verifying a gateway --------------------------------- */

  predicate ListenerAdmitsNamespace(l: Listener, gwNamespace: string, routeNamespace: string) {
    match l.from
    case None => gwNamespace == routeNamespace
    case Some(All) => true
    case Some(Same) => gwNamespace == routeNamespace
    case Some(_) => false
  }

  // The listener a section name denotes: the last of that name.
  predicate Named(listeners: seq<Listener>, name: string, l: Listener) {
    exists k :: 0 <= k < |listeners| && IsLast(listeners, name, k) && listeners[k] == l
  }

  predicate IsLast(listeners: seq<Listener>, name: string, k: nat)
    requires k < |listeners|
  {
    listeners[k].name == name && forall m :: k < m < |listeners| ==> listeners[m].name != name
  }

  predicate IsParent(spec: Spec, gw: GatewayObject) {
    ParentGateway(spec) == Reference(gw.name, gw.namespace)
  }

  // A route can serve: it hangs on this gateway, and its section names a listener that admits its
  // namespace and speaks its protocol.
  predicate Attaches(gw: GatewayObject, namespace: string, r: Route, l: Listener) {
    && r.parent == Reference(gw.name, gw.namespace)
    && Named(gw.listeners, r.section, l)
    && (l.from == Some(All) || (gw.namespace == namespace && (l.from == None || l.from == Some(Same))))
    && (if r.hostname.Some? then l.protocol == TLS && l.hostname == r.hostname else l.protocol == TCP)
  }

  ghost predicate HTTPRouteServes(spec: Spec, gw: GatewayObject) {
    exists l :: Attaches(gw, spec.namespace, BuildTLSRoute(spec), l)
  }

  // The route of an ordinal is served on the port of that ordinal.
  ghost predicate RPCRouteServes(spec: Spec, gw: GatewayObject, ordinal: nat)
    requires ordinal < |spec.rpcPorts|
  {
    exists l :: Attaches(gw, spec.namespace, TCPRoute(spec, ordinal), l) && l.port == spec.rpcPorts[ordinal]
  }

  /** Only the two ways of admitting namespaces that are always supported count. */
  lemma AdmissionMeaning(l: Listener, gwNamespace: string, routeNamespace: string)
    ensures ListenerAdmitsNamespace(l, gwNamespace, routeNamespace)
            <==> l.from == Some(All) || (gwNamespace == routeNamespace && (l.from == None || l.from == Some(Same)))
  {
  }

  /** The objects built, in the spec's own fields. */
  lemma BuiltObjects(spec: Spec, addresses: seq<string>, i: nat)
    requires i < |spec.rpcPorts|
    ensures var gw := ManagedGateway(spec, addresses);
            && gw.name == spec.name + "-gateway" && gw.namespace == spec.namespace
            && gw.listeners[0] == Listener("http", 4646, TLS, Some(spec.httpHostname), None)
            && gw.listeners[1 + i] == Listener("rpc-" + Itoa(i), spec.rpcPorts[i], TCP, None, None)
    ensures BuildTLSRoute(spec).section == "http" && BuildTLSRoute(spec).hostname == Some(spec.httpHostname)
            && BuildTLSRoute(spec).backend == spec.name + "-nomad" && BuildTLSRoute(spec).backendPort == 4646
    ensures TCPRoute(spec, i).section == "rpc-" + Itoa(i) && TCPRoute(spec, i).hostname == None
            && TCPRoute(spec, i).backend == spec.name + "-server-" + Itoa(i) + "-rpc" && TCPRoute(spec, i).backendPort == 4647
    ensures BuildTLSRoute(spec).parent == TCPRoute(spec, i).parent
            == match spec.existing
               case Some(ref) => ref
               case None => Reference(spec.name + "-gateway", spec.namespace)
  {
    assert spec.name + "-server" + "-" == spec.name + "-server-";
  }

  predicate HasAddress(gw: GatewayObject) {
    exists k :: 0 <= k < |gw.addresses| && gw.addresses[k] != ""
  }

  // Lookup by name, as the loop over the listeners fills the map: later listeners win.
  function ByName(listeners: seq<Listener>): map<string, Listener> {
    if listeners == [] then map[]
    else
      var last := listeners[|listeners| - 1];
      ByName(listeners[..|listeners| - 1])[last.name := last]
  }

  lemma NamedSnoc(listeners: seq<Listener>, last: Listener, name: string, l: Listener)
    ensures Named(listeners + [last], name, l) <==> if name == last.name then l == last else Named(listeners, name, l)
  {
    var all, n := listeners + [last], |listeners|;
    assert IsLast(all, last.name, n);
    forall k | 0 <= k < n && name != last.name
      ensures IsLast(all, name, k) <==> IsLast(listeners, name, k)
    {
      assert forall m | 0 <= m < n :: all[m] == listeners[m];
    }
    if Named(listeners, name, l) && name != last.name {
      var k :| 0 <= k < |listeners| && IsLast(listeners, name, k) && listeners[k] == l;
      assert IsLast(all, name, k) && all[k] == l;
    }
  }

  /** The map holds exactly the listeners that section names denote. */
  lemma {:induction false} ByNameMeaning(listeners: seq<Listener>, name: string, l: Listener)
    ensures Named(listeners, name, l) <==> name in ByName(listeners) && ByName(listeners)[name] == l
  {
    if listeners != [] {
      hide Named;
      var front, last := listeners[..|listeners| - 1], listeners[|listeners| - 1];
      assert listeners == front + [last];
      NamedSnoc(front, last, name, l);
      ByNameMeaning(front, name, l);
    }
  }

  datatype Found = Missing | ReadFailed | FoundGateway(gw: GatewayObject)

  // Why a gateway is not ready, as the condition's reason.
  const GATEWAY_NOT_FOUND := "GatewayNotFound"
  const HTTP_LISTENER_INVALID := "HTTPListenerInvalid"
  const NAMESPACE_NOT_ADMITTED := "NamespaceNotAdmitted"
  const RPC_LISTENER_INVALID := "RPCListenerInvalid"
  const GATEWAY_NO_ADDRESS := "GatewayNoAddress"

  method IndexByName(listeners: seq<Listener>) returns (byName: map<string, Listener>)
    ensures byName == ByName(listeners)
  {
    byName := map[];
    for k := 0 to |listeners|
      invariant byName == ByName(listeners[..k])
    {
      assert listeners[..k + 1][..k] == listeners[..k];
      byName := byName[listeners[k].name := listeners[k]];
    }
    assert listeners[..|listeners|] == listeners;
  }

  // Check the listener of every RPC port, up to the first that will not do.
  method CheckRPCListeners(spec: Spec, gw: GatewayObject, byName: map<string, Listener>) returns (reason: Option<string>)
    requires IsParent(spec, gw) && byName == ByName(gw.listeners)
    ensures reason.None? <==> forall k :: 0 <= k < |spec.rpcPorts| ==> RPCRouteServes(spec, gw, k)
    ensures reason in {None, Some(RPC_LISTENER_INVALID), Some(NAMESPACE_NOT_ADMITTED)}
  {
    hide RPCRouteServes, ListenerRPC, ListenerAdmitsNamespace, ByName;
    for ordinal := 0 to |spec.rpcPorts|
      invariant forall k :: 0 <= k < ordinal ==> RPCRouteServes(spec, gw, k)
    {
      var name := ListenerRPC(ordinal);
      LookupRPC(spec, gw, ordinal);
      if name !in byName || byName[name].protocol != TCP || byName[name].port != spec.rpcPorts[ordinal] {
        return Some(RPC_LISTENER_INVALID);
      }
      if !ListenerAdmitsNamespace(byName[name], gw.namespace, spec.namespace) {
        return Some(NAMESPACE_NOT_ADMITTED);
      }
    }
    reason := None;
  }

  method FirstAddress(addresses: seq<string>) returns (address: string)
    ensures address == "" ==> forall k :: 0 <= k < |addresses| ==> addresses[k] == ""
    ensures address != "" ==> exists k :: IsFirst(addresses, k) && addresses[k] == address
  {
    for k := 0 to |addresses|
      invariant forall m :: 0 <= m < k ==> addresses[m] == ""
    {
      if addresses[k] != "" {
        assert IsFirst(addresses, k);
        return addresses[k];
      }
    }
    address := "";
  }

  predicate IsFirst(addresses: seq<string>, k: int) {
    0 <= k < |addresses| && addresses[k] != "" && forall m :: 0 <= m < k ==> addresses[m] == ""
  }

  /** Ready exactly if the HTTP route and the RPC route of every port can serve through the gateway
      and it has an address, which is then its first non-empty one. A reason is given exactly for a
      gateway that is not ready, and only while the cluster has not been provisioned. */
  method EnsureExistingGateway(spec: Spec, found: Found, provisioned: bool)
    returns (address: string, ready: bool, failed: bool, reason: Option<string>)
    requires found.FoundGateway? ==> IsParent(spec, found.gw)
    ensures failed == found.ReadFailed?
    ensures ready <==> found.FoundGateway? && HTTPRouteServes(spec, found.gw) && HasAddress(found.gw)
                       && forall k :: 0 <= k < |spec.rpcPorts| ==> RPCRouteServes(spec, found.gw, k)
    ensures if ready then exists k :: IsFirst(found.gw.addresses, k) && found.gw.addresses[k] == address else address == ""
    ensures reason.Some? <==> !ready && !failed && !provisioned
    ensures reason.Some? ==>
      && (reason.value == GATEWAY_NOT_FOUND <==> found.Missing?)
      && (reason.value == GATEWAY_NO_ADDRESS <==>
            && found.FoundGateway? && HTTPRouteServes(spec, found.gw)
            && forall k :: 0 <= k < |spec.rpcPorts| ==> RPCRouteServes(spec, found.gw, k))
      && (reason.value == HTTP_LISTENER_INVALID ==> found.FoundGateway? && !HTTPRouteServes(spec, found.gw))
      && (reason.value == RPC_LISTENER_INVALID ==>
            && found.FoundGateway? && HTTPRouteServes(spec, found.gw)
            && exists k :: 0 <= k < |spec.rpcPorts| && !RPCRouteServes(spec, found.gw, k))
  {
    hide RPCRouteServes, HTTPRouteServes, ListenerAdmitsNamespace, ByName;
    assert |GATEWAY_NOT_FOUND| == 15 && |HTTP_LISTENER_INVALID| == 19 && |NAMESPACE_NOT_ADMITTED| == 20;
    assert |RPC_LISTENER_INVALID| == 18 && |GATEWAY_NO_ADDRESS| == 16;
    address, ready, failed, reason := "", false, false, None;
    if found.ReadFailed? {
      failed := true;
      return;
    }
    if found.Missing? {
      reason := if provisioned then None else Some(GATEWAY_NOT_FOUND);
      return;
    }
    var gw := found.gw;
    var byName := IndexByName(gw.listeners);
    LookupHTTP(spec, gw);
    if LISTENER_HTTP !in byName || byName[LISTENER_HTTP].protocol != TLS
       || byName[LISTENER_HTTP].hostname != Some(spec.httpHostname)
    {
      reason := if provisioned then None else Some(HTTP_LISTENER_INVALID);
      return;
    }
    if !ListenerAdmitsNamespace(byName[LISTENER_HTTP], gw.namespace, spec.namespace) {
      reason := if provisioned then None else Some(NAMESPACE_NOT_ADMITTED);
      return;
    }
    var invalid := CheckRPCListeners(spec, gw, byName);
    if invalid.Some? {
      reason := if provisioned then None else invalid;
      return;
    }
    address := FirstAddress(gw.addresses);
    if address != "" {
      ready := true;
    } else {
      reason := if provisioned then None else Some(GATEWAY_NO_ADDRESS);
    }
  }

  lemma LookupHTTP(spec: Spec, gw: GatewayObject)
    requires IsParent(spec, gw)
    ensures var m := ByName(gw.listeners);
            HTTPRouteServes(spec, gw) <==>
            LISTENER_HTTP in m && m[LISTENER_HTTP].protocol == TLS && m[LISTENER_HTTP].hostname == Some(spec.httpHostname)
            && ListenerAdmitsNamespace(m[LISTENER_HTTP], gw.namespace, spec.namespace)
  {
    var m := ByName(gw.listeners);
    if HTTPRouteServes(spec, gw) {
      var l :| Attaches(gw, spec.namespace, BuildTLSRoute(spec), l);
      ByNameMeaning(gw.listeners, LISTENER_HTTP, l);
    } else if LISTENER_HTTP in m {
      ByNameMeaning(gw.listeners, LISTENER_HTTP, m[LISTENER_HTTP]);
      assert !Attaches(gw, spec.namespace, BuildTLSRoute(spec), m[LISTENER_HTTP]);
    }
  }

  lemma LookupRPC(spec: Spec, gw: GatewayObject, ordinal: nat)
    requires IsParent(spec, gw) && ordinal < |spec.rpcPorts|
    ensures var m, name := ByName(gw.listeners), ListenerRPC(ordinal);
            RPCRouteServes(spec, gw, ordinal) <==>
            name in m && m[name].protocol == TCP && m[name].port == spec.rpcPorts[ordinal]
            && ListenerAdmitsNamespace(m[name], gw.namespace, spec.namespace)
  {
    var m, name := ByName(gw.listeners), ListenerRPC(ordinal);
    if RPCRouteServes(spec, gw, ordinal) {
      var l :| Attaches(gw, spec.namespace, TCPRoute(spec, ordinal), l) && l.port == spec.rpcPorts[ordinal];
      ByNameMeaning(gw.listeners, name, l);
    } else if name in m && m[name].port == spec.rpcPorts[ordinal] {
      ByNameMeaning(gw.listeners, name, m[name]);
      assert !Attaches(gw, spec.namespace, TCPRoute(spec, ordinal), m[name]);
    }
  }

  /** A managed gateway with an address passes the same verification. */
  lemma ManagedGatewayServes(spec: Spec, addresses: seq<string>)
    requires IsParent(spec, ManagedGateway(spec, addresses))
    ensures var gw := ManagedGateway(spec, addresses);
            HTTPRouteServes(spec, gw) && forall k :: 0 <= k < |spec.rpcPorts| ==> RPCRouteServes(spec, gw, k)
  {
    var gw := ManagedGateway(spec, addresses);
    forall k | 0 <= k < |spec.rpcPorts|
      ensures RPCRouteServes(spec, gw, k)
    {
      ManagedListener(spec, addresses, k);
      assert Attaches(gw, spec.namespace, TCPRoute(spec, k), RPCListener(spec, k));
    }
    forall m | 1 <= m < |gw.listeners|
      ensures gw.listeners[m].name != LISTENER_HTTP
    {
      assert gw.listeners[m] == gw.listeners[1 + (m - 1)] == RPCListener(spec, m - 1);
      ListenerNamesDistinct(m - 1, 0);
    }
    assert IsLast(gw.listeners, LISTENER_HTTP, 0);
    assert Attaches(gw, spec.namespace, BuildTLSRoute(spec), HTTPListener(spec));
  }

  lemma ManagedListener(spec: Spec, addresses: seq<string>, k: nat)
    requires k < |spec.rpcPorts|
    ensures Named(ManagedGateway(spec, addresses).listeners, ListenerRPC(k), RPCListener(spec, k))
  {
    hide ListenerRPC;
    var gw := ManagedGateway(spec, addresses);
    assert gw.listeners[1 + k].name == ListenerRPC(k);
    forall m | 1 + k < m < |gw.listeners|
      ensures gw.listeners[m].name != ListenerRPC(k)
    {
      assert gw.listeners[m] == gw.listeners[1 + (m - 1)] == RPCListener(spec, m - 1);
      ListenerNamesDistinct(m - 1, k);
    }
    assert IsLast(gw.listeners, ListenerRPC(k), 1 + k);
  }

  /* --------------------------------- From a port to a pod --------------------------------- */

  datatype Service = Service(name: string, podName: string, port: int, targetPort: int)

  function BuildPodService(spec: Spec, ordinal: nat): Service {
    Service(PodSvc(spec.name, ordinal), PodName(spec.name, ordinal), PORT_RPC, PORT_RPC)
  }

  // A listener, a route attached to it, the service the route forwards to, a pod the service
  // selects, and the port that pod binds.
  predicate Path(spec: Spec, gw: GatewayObject, port: int, l: Listener, route: nat, service: nat, pod: nat) {
    && l.port == port && Attaches(gw, spec.namespace, TCPRoute(spec, route), l)
    && BuildPodService(spec, service).name == TCPRoute(spec, route).backend
    && BuildPodService(spec, service).port == TCPRoute(spec, route).backendPort
    && BuildPodService(spec, service).podName == PodName(spec.name, pod)
    && BuildPodService(spec, service).targetPort == PORT_RPC
  }

  ghost predicate Reaches(spec: Spec, gw: GatewayObject, port: int, pod: nat) {
    exists l, route: nat, service: nat ::
      route < spec.servers && service < spec.servers && Path(spec, gw, port, l, route, service, pod)
  }

  /** Through a gateway that passed, a port reaches exactly the pods it is the port of. */
  lemma PortReachesItsPods(spec: Spec, gw: GatewayObject, port: int, pod: nat)
    requires |spec.rpcPorts| == spec.servers && pod < spec.servers
    requires forall k :: 0 <= k < |spec.rpcPorts| ==> RPCRouteServes(spec, gw, k)
    ensures Reaches(spec, gw, port, pod) <==> spec.rpcPorts[pod] == port
  {
    hide PodSvc, PodName, Attaches, ByName;
    if spec.rpcPorts[pod] == port {
      assert RPCRouteServes(spec, gw, pod);
      var l :| Attaches(gw, spec.namespace, TCPRoute(spec, pod), l) && l.port == spec.rpcPorts[pod];
      assert Path(spec, gw, port, l, pod, pod, pod);
    }
    if Reaches(spec, gw, port, pod) {
      var l, route: nat, service: nat :|
        route < spec.servers && service < spec.servers && Path(spec, gw, port, l, route, service, pod);
      PodNamesDistinct(spec.name, service, route);
      PodNamesDistinct(spec.name, service, pod);
      assert RPCRouteServes(spec, gw, route);
      var own :| Attaches(gw, spec.namespace, TCPRoute(spec, route), own) && own.port == spec.rpcPorts[route];
      AttachesToOne(gw, spec.namespace, TCPRoute(spec, route), l, own);
    }
  }

  lemma AttachesToOne(gw: GatewayObject, namespace: string, r: Route, l: Listener, l': Listener)
    requires Attaches(gw, namespace, r, l) && Attaches(gw, namespace, r, l')
    ensures l == l'
  {
    ByNameMeaning(gw.listeners, r.section, l);
    ByNameMeaning(gw.listeners, r.section, l');
  }

  /** With distinct ports, each reaches its own pod and no other. */
  lemma PortReachesOnlyItsPod(spec: Spec, gw: GatewayObject, i: nat, j: nat)
    requires |spec.rpcPorts| == spec.servers && i < spec.servers && j < spec.servers
    requires forall k :: 0 <= k < |spec.rpcPorts| ==> RPCRouteServes(spec, gw, k)
    requires forall k, m :: 0 <= k < m < |spec.rpcPorts| ==> spec.rpcPorts[k] != spec.rpcPorts[m]
    ensures Reaches(spec, gw, spec.rpcPorts[i], j) <==> i == j
  {
    PortReachesItsPods(spec, gw, spec.rpcPorts[i], j);
  }
}
