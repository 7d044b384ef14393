/** The service runtime: gateway client, configuration, the route table with its
    permission bookkeeping, and the unregister/register start-up handshake. */
module Services {
  import opened Wrappers
  import opened Text
  import opened Http

  /** APIGateway: configuration only; its calls go through a GatewayLink. */
  datatype ApiGateway = ApiGateway(host: string, authorization: string, hostFrontend: string, hostBackend: string)
  {
    /** APIGateway.get_frontend_url */
    function FrontendUrl(path: string): (u: string)
      ensures StartsWith(u, "http")
      ensures StartsWith(hostFrontend, "http") ==> u == hostFrontend + "/" + path
      ensures !StartsWith(hostFrontend, "http") ==> u == "http://" + hostFrontend + "/" + path
    {
      var host := if StartsWith(hostFrontend, "http") then hostFrontend else "http://" + hostFrontend;
      assert StartsWith(host, "http") by {
        if !StartsWith(hostFrontend, "http") {
          assert host[..4] == "http";
        }
      }
      assert (host + "/" + path)[..4] == host[..4];
      host + "/" + path
    }

    /** The URL APIGateway.post sends to. */
    function Url(path: string): (u: string)
      ensures StartsWith(u, "http://" + host + "/")
      ensures u[|"http://" + host + "/"|..] == path
    {
      var u := "http://" + host + "/" + path;
      assert u[..|"http://" + host + "/"|] == "http://" + host + "/";
      u
    }
  }

  /** A frontend URL never gains a second scheme: a host that already carries
      one yields the same URL as its scheme-less form. */
  lemma FrontendUrlScheme(g: ApiGateway, path: string)
    requires !StartsWith(g.hostFrontend, "http")
    ensures g.FrontendUrl(path) == g.(hostFrontend := "http://" + g.hostFrontend).FrontendUrl(path)
  {
    var h := "http://" + g.hostFrontend;
    assert h[..4] == "http";
  }

  /** The JSON bodies the service posts to the gateway. The permission list is
      kept as a set: the joined string's order is Python's set iteration order. */
  datatype Payload =
    | RegisterService(name: string, url: string, endpoint: string, version: Option<string>)
    | UnregisterService(url: string, version: Option<string>)
    | RegisterPermissions(service: string, permissions: set<string>)

  datatype Request = Request(url: string, authorization: string, payload: Payload)

  /** The gateway's answer to one POST: a reply with `r.ok` and `r.text`, or no
      answer at all (the gateway is not reachable). */
  datatype Reply = Reply(ok: bool, text: string) | Unreachable

  function NextReply(replies: seq<Reply>): Reply
  {
    if replies == [] then Unreachable else replies[0]
  }

  function Succeeds(r: Reply): bool
  {
    r.Reply? && r.ok
  }

  /** The network between the service and the gateway: the requests sent so far
      and the answers the gateway will give, in order. */
  class GatewayLink {
    var sent: seq<Request>
    var replies: seq<Reply>

    constructor (replies: seq<Reply>)
      ensures sent == [] && this.replies == replies
    {
      sent := [];
      this.replies := replies;
    }

    /** requests.post to the gateway. */
    method Post(gateway: ApiGateway, path: string, payload: Payload) returns (reply: Reply)
      modifies this
      ensures sent == old(sent) + [Request(gateway.Url(path), gateway.authorization, payload)]
      ensures reply == NextReply(old(replies))
      ensures replies == if old(replies) == [] then [] else old(replies)[1..]
    {
      sent := sent + [Request(gateway.Url(path), gateway.authorization, payload)];
      reply := NextReply(replies);
      if replies != [] {
        replies := replies[1..];
      }
    }
  }

  /** The exception a failed gateway call raises. */
  function CallError(what: string, r: Reply): (e: string)
    ensures r.Reply? ==> StartsWith(e, "Failed to " + what + " service: ") && e[|"Failed to " + what + " service: "|..] == r.text
  {
    assert r.Reply? ==> ("Failed to " + what + " service: " + r.text)[..|"Failed to " + what + " service: "|] == "Failed to " + what + " service: ";
    if r.Unreachable? then "gateway unreachable" else "Failed to " + what + " service: " + r.text
  }

  /** What a service tells the gateway about itself. */
  datatype ServiceInfo = ServiceInfo(name: string, url: string, port: int, version: Option<string>, gateway: ApiGateway)

  /** The POST of Service.register. */
  function RegisterRequest(info: ServiceInfo, hostname: string): (r: Request)
    ensures r.url == info.gateway.Url("service/register") && r.authorization == info.gateway.authorization
    ensures r.payload.RegisterService? && r.payload.name == info.name && r.payload.url == info.url
    ensures r.payload.version == info.version
    // the endpoint is this host at the service's port
    ensures StartsWith(r.payload.endpoint, "http://" + hostname + ":")
    ensures r.payload.endpoint == "http://" + hostname + ":" + IntToString(info.port) + "/"
  {
    var endpoint := "http://" + hostname + ":" + IntToString(info.port) + "/";
    assert endpoint[..|"http://" + hostname + ":"|] == "http://" + hostname + ":";
    Request(info.gateway.Url("service/register"), info.gateway.authorization,
            RegisterService(info.name, info.url, endpoint, info.version))
  }

  /** The POST of Service.unregister. */
  function UnregisterRequest(info: ServiceInfo): (r: Request)
    ensures r.url == info.gateway.Url("service/unregister") && r.authorization == info.gateway.authorization
    ensures r.payload == UnregisterService(info.url, info.version)
  {
    Request(info.gateway.Url("service/unregister"), info.gateway.authorization, UnregisterService(info.url, info.version))
  }

  class Service {
    const name: string
    const url: string
    const port: int
    const version: Option<string>
    const gateway: ApiGateway
    const debug: bool
    const frontend: bool
    /** The distinct permission names the routes require. */
    var usedPermissions: set<string>
    /** The rules registered with the Flask app, in order. */
    var routes: seq<Rule>

    constructor (name: string, url: string, port: int, version: Option<string>, gateway: ApiGateway,
                 debug: bool, frontend: bool)
      ensures this.name == name && this.url == url && this.port == port && this.version == version
      ensures this.gateway == gateway && this.debug == debug && this.frontend == frontend
      ensures usedPermissions == {} && routes == []
    {
      this.name, this.url, this.port, this.version := name, url, port, version;
      this.gateway, this.debug, this.frontend := gateway, debug, frontend;
      usedPermissions := {};
      routes := [];
    }

    /** Service.full_path */
    function FullPath(path: string): (p: string)
      ensures StartsWith(p, "/" + url)
      ensures path == "" ==> p == "/" + url
      ensures path != "" ==> p == "/" + url + "/" + path
    {
      var p := "/" + url + (if path != "" then "/" + path else "");
      assert p[..|"/" + url|] == "/" + url;
      p
    }

    /** Service.route applied to a handler: records the permission and adds the rule. */
    method Route(path: string, permission: PermissionArg, endpoint: string, methods: seq<string>, handler: Handler)
      returns (required: Option<string>)
      modifies this
      ensures required == EffectivePermission(frontend, permission)
      ensures usedPermissions == old(usedPermissions) + Recorded(required)
      ensures routes == old(routes) + [Rule(FullPath(path), endpoint, methods, required, handler)]
    {
      required := EffectivePermission(frontend, permission);
      if required.Some? {
        usedPermissions := usedPermissions + {required.value};
      }
      routes := routes + [Rule(FullPath(path), endpoint, methods, required, handler)];
    }

    function Info(): ServiceInfo
    {
      ServiceInfo(name, url, port, version, gateway)
    }

    /** Service.register; a frontend does not talk to the gateway. */
    method Register(link: GatewayLink, hostname: string) returns (r: Result<(), string>)
      modifies link
      ensures frontend ==> r == Success(()) && link.sent == old(link.sent) && link.replies == old(link.replies)
      ensures !frontend ==> link.sent == old(link.sent) + [RegisterRequest(Info(), hostname)]
      ensures !frontend ==> link.replies == if old(link.replies) == [] then [] else old(link.replies)[1..]
      ensures !frontend ==> r == var reply := NextReply(old(link.replies));
                                if Succeeds(reply) then Success(()) else Failure(CallError("register", reply))
    {
      if frontend {
        return Success(());
      }
      var payload := RegisterService(name, url, "http://" + hostname + ":" + IntToString(port) + "/", version);
      var reply := link.Post(gateway, "service/register", payload);
      if !Succeeds(reply) {
        return Failure(CallError("register", reply));
      }
      return Success(());
    }

    /** Service.unregister; a frontend does not talk to the gateway. */
    method Unregister(link: GatewayLink) returns (r: Result<(), string>)
      modifies link
      ensures frontend ==> r == Success(()) && link.sent == old(link.sent) && link.replies == old(link.replies)
      ensures !frontend ==> link.sent == old(link.sent) + [UnregisterRequest(Info())]
      ensures !frontend ==> link.replies == if old(link.replies) == [] then [] else old(link.replies)[1..]
      ensures !frontend ==> r == var reply := NextReply(old(link.replies));
                                if Succeeds(reply) then Success(()) else Failure(CallError("unregister", reply))
    {
      if frontend {
        return Success(());
      }
      var reply := link.Post(gateway, "service/unregister", UnregisterService(url, version));
      if !Succeeds(reply) {
        return Failure(CallError("unregister", reply));
      }
      return Success(());
    }

    /** Service.add_route_list: the "routes" rule, under the default permission. */
    method AddRouteList()
      modifies this
      ensures usedPermissions == old(usedPermissions) + (if frontend then {} else {"service"})
      ensures routes == old(routes) + [Rule(FullPath("routes"), "site_map", ["GET"], EffectivePermission(frontend, Default), SiteMap)]
    {
      var _ := Route("routes", Default, "site_map", ["GET"], SiteMap);
    }

    /** The part of serve_indefinitely that ends route registration: the route
      list, then one announcement of every permission used. The status of the
      reply is not checked, but an unreachable gateway ends start-up. */
    method ServeIndefinitely(link: GatewayLink) returns (r: Result<(), string>)
      modifies this, link
      ensures usedPermissions == old(usedPermissions) + (if frontend then {} else {"service"})
      ensures routes == old(routes) + [Rule(FullPath("routes"), "site_map", ["GET"], EffectivePermission(frontend, Default), SiteMap)]
      ensures link.sent == old(link.sent) + [Request(gateway.Url("membership/permission/register"), gateway.authorization,
                                                     RegisterPermissions(name, usedPermissions))]
      ensures link.replies == if old(link.replies) == [] then [] else old(link.replies)[1..]
      ensures r.Failure? <==> NextReply(old(link.replies)).Unreachable?
      ensures r.Failure? ==> r.error == CallError("register permissions", Unreachable)
    {
      AddRouteList();
      var reply := link.Post(gateway, "membership/permission/register", RegisterPermissions(name, usedPermissions));
      r := if reply.Unreachable? then Failure(CallError("register permissions", reply)) else Success(());
    }
  }

  /** Two different paths never share a full path. */
  lemma FullPathInjective(s: Service, p: string, q: string)
    requires s.FullPath(p) == s.FullPath(q)
    ensures p == q
  {
    var n := |"/" + s.url|;
    if p != "" && q != "" {
      assert p == s.FullPath(p)[n + 1..];
      assert q == s.FullPath(q)[n + 1..];
    }
  }

  /** The APP_DEBUG parse of read_config. */
  function ParseDebug(s: string): (r: Result<bool, string>)
    ensures r.Success? <==> Lower(s) == "true" || Lower(s) == "false"
    ensures r.Success? ==> r.value == (Lower(s) == "true")
  {
    var debugStr := Lower(s);
    if debugStr == "true" || debugStr == "false" then Success(debugStr == "true")
    else Failure("APP_DEBUG environment variable must be either 'true' or 'false'. Found '" + debugStr + "'")
  }

  /** APP_DEBUG is accepted exactly when it spells true or false in any case. */
  lemma DebugFlagCaseInsensitive(s: string)
    ensures ParseDebug(s).Success? <==> SameIgnoringCase(s, "true") || SameIgnoringCase(s, "false")
    ensures ParseDebug(s) == Success(true) <==> SameIgnoringCase(s, "true")
  {
    LowerMatches(s, "true");
    LowerMatches(s, "false");
  }

  datatype DbConfig = DbConfig(host: string, name: string, user: string, password: string)
  datatype Config = Config(db: DbConfig, gateway: ApiGateway, debug: bool)

  const RequiredVariables: set<string> :=
    {"MYSQL_HOST", "MYSQL_DB", "MYSQL_USER", "MYSQL_PASS", "APIGATEWAY", "BEARER", "HOST_FRONTEND", "HOST_BACKEND", "APP_DEBUG"}

  /** read_config: a failure stands for the process exiting with status 1. */
  function ReadConfig(env: map<string, string>): (r: Result<Config, string>)
    ensures r.Success? <==> RequiredVariables <= env.Keys && ParseDebug(env["APP_DEBUG"]).Success?
    ensures r.Success? ==> r.value.debug == ParseDebug(env["APP_DEBUG"]).value
    ensures r.Success? ==> r.value.gateway == ApiGateway(env["APIGATEWAY"], "Bearer " + env["BEARER"], env["HOST_FRONTEND"], env["HOST_BACKEND"])
    ensures r.Success? ==> r.value.db == DbConfig(env["MYSQL_HOST"], env["MYSQL_DB"], env["MYSQL_USER"], env["MYSQL_PASS"])
  {
    if !(RequiredVariables <= env.Keys) then Failure("Missing one or more configuration environment variables")
    else
      var debug := ParseDebug(env["APP_DEBUG"]);
      if debug.Failure? then Failure(debug.error)
      else Success(Config(DbConfig(env["MYSQL_HOST"], env["MYSQL_DB"], env["MYSQL_USER"], env["MYSQL_PASS"]),
                          ApiGateway(env["APIGATEWAY"], "Bearer " + env["BEARER"], env["HOST_FRONTEND"], env["HOST_BACKEND"]),
                          debug.value))
  }

  /** A gateway call made during start-up. */
  datatype Call = UnregisterCall | RegisterCall

  /** The start-up handshake of create, given the gateway's answers: the calls
      made and the error that stops start-up, if any. */
  datatype Handshake = Handshake(calls: seq<Call>, error: Option<string>)

  function Answer(replies: seq<Reply>, k: nat): Reply
  {
    if k < |replies| then replies[k] else Unreachable
  }

  /** Unregister; on failure (swallowed once) unregister again, whose failure is
      fatal; then register, whose failure is fatal too. */
  function StartupHandshake(replies: seq<Reply>): (h: Handshake)
    ensures 2 <= |h.calls| <= 3
    ensures h.calls[0] == UnregisterCall
    // the registration is attempted exactly when one of the first two unregister calls went through
    ensures RegisterCall in h.calls <==> Succeeds(Answer(replies, 0)) || Succeeds(Answer(replies, 1))
    ensures RegisterCall in h.calls ==> h.calls[|h.calls| - 1] == RegisterCall
    // start-up survives exactly when the registration went through
    ensures h.error.None? <==> RegisterCall in h.calls && Succeeds(Answer(replies, |h.calls| - 1))
  {
    var first := Answer(replies, 0);
    if Succeeds(first) then
      var reg := Answer(replies, 1);
      Handshake([UnregisterCall, RegisterCall], if Succeeds(reg) then None else Some(CallError("register", reg)))
    else
      var second := Answer(replies, 1);
      if !Succeeds(second) then
        Handshake([UnregisterCall, UnregisterCall], Some(CallError("unregister", second)))
      else
        var reg := Answer(replies, 2);
        Handshake([UnregisterCall, UnregisterCall, RegisterCall], if Succeeds(reg) then None else Some(CallError("register", reg)))
  }

  /** The unregister call is repeated exactly when the first one failed. */
  lemma StartupHandshakeRetry(replies: seq<Reply>)
    ensures StartupHandshake(replies).calls[1] == UnregisterCall <==> !Succeeds(Answer(replies, 0))
    ensures forall i :: 0 <= i < |StartupHandshake(replies).calls| - 1 ==> StartupHandshake(replies).calls[i] == UnregisterCall
    ensures |StartupHandshake(replies).calls| == 3 ==> RegisterCall in StartupHandshake(replies).calls
  {
  }

  function Consumed(replies: seq<Reply>, n: nat): seq<Reply>
  {
    if n <= |replies| then replies[n..] else []
  }

  lemma ConsumedStep(replies: seq<Reply>, n: nat)
    ensures NextReply(Consumed(replies, n)) == Answer(replies, n)
    ensures (if Consumed(replies, n) == [] then [] else Consumed(replies, n)[1..]) == Consumed(replies, n + 1)
  {
  }

  /** The requests a backend service sends for a sequence of handshake calls. */
  function CallRequests(info: ServiceInfo, hostname: string, calls: seq<Call>): (rs: seq<Request>)
    ensures |rs| == |calls|
  {
    if calls == [] then []
    else [if calls[0] == UnregisterCall then UnregisterRequest(info) else RegisterRequest(info, hostname)]
         + CallRequests(info, hostname, calls[1..])
  }

  /** The handshake part of create for a backend service. */
  method RunHandshake(service: Service, link: GatewayLink, hostname: string) returns (r: Result<(), string>)
    requires !service.frontend
    modifies link
    ensures var h := StartupHandshake(old(link.replies));
            && r == (if h.error.None? then Success(()) else Failure(h.error.value))
            && link.sent == old(link.sent) + CallRequests(service.Info(), hostname, h.calls)
            && link.replies == Consumed(old(link.replies), |h.calls|)
  {
    ghost var replies := link.replies;
    ghost var sent := link.sent;
    ghost var h := StartupHandshake(replies);
    ghost var u, g := UnregisterRequest(service.Info()), RegisterRequest(service.Info(), hostname);
    var unregistered := UnregisterWithRetry(service, link);
    if unregistered.Failure? {
      assert h.calls == [UnregisterCall, UnregisterCall];
      CallRequestsShape(service.Info(), hostname, h.calls);
      return Failure(unregistered.error);
    }
    ghost var n := if Succeeds(Answer(replies, 0)) then 1 else 2;
    ConsumedStep(replies, n);
    var registered := service.Register(link, hostname);
    assert link.replies == Consumed(replies, n + 1);
    assert |h.calls| == n + 1 && h.calls[n] == RegisterCall;
    CallRequestsShape(service.Info(), hostname, h.calls);
    assert link.sent == sent + CallRequests(service.Info(), hostname, h.calls);
    r := if registered.Failure? then Failure(registered.error) else Success(());
  }

  /** The unregister call of create, tried a second time if the first fails. */
  method UnregisterWithRetry(service: Service, link: GatewayLink) returns (r: Result<(), string>)
    requires !service.frontend
    modifies link
    ensures var first, second := Answer(old(link.replies), 0), Answer(old(link.replies), 1);
            if Succeeds(first) then
              && r == Success(())
              && link.sent == old(link.sent) + [UnregisterRequest(service.Info())]
              && link.replies == Consumed(old(link.replies), 1)
            else
              && r == (if Succeeds(second) then Success(()) else Failure(CallError("unregister", second)))
              && link.sent == old(link.sent) + [UnregisterRequest(service.Info()), UnregisterRequest(service.Info())]
              && link.replies == Consumed(old(link.replies), 2)
  {
    ghost var replies := link.replies;
    ConsumedStep(replies, 0);
    ConsumedStep(replies, 1);
    assert replies == Consumed(replies, 0);
    r := service.Unregister(link);
    if r.Failure? {
      // the gateway may not be up yet: wait and try once more (the wait is not modelled)
      r := service.Unregister(link);
    }
  }

  lemma CallRequestsShape(info: ServiceInfo, hostname: string, calls: seq<Call>)
    ensures forall i :: 0 <= i < |calls| ==>
              CallRequests(info, hostname, calls)[i] == if calls[i] == UnregisterCall then UnregisterRequest(info) else RegisterRequest(info, hostname)
  {
    if calls != [] {
      CallRequestsShape(info, hostname, calls[1..]);
    }
  }

  /** create: read the configuration, build the backend service, then the
      handshake with the gateway. A failure stands for the process ending. */
  method Create(name: string, url: string, port: int, version: string, env: map<string, string>,
                hostname: string, link: GatewayLink)
    returns (r: Result<Service, string>)
    modifies link
    ensures ReadConfig(env).Failure? ==>
              r == Failure(ReadConfig(env).error) && link.sent == old(link.sent) && link.replies == old(link.replies)
    ensures ReadConfig(env).Success? ==>
              var h := StartupHandshake(old(link.replies));
              && (r.Success? <==> h.error.None?)
              && (r.Failure? ==> r.error == h.error.value)
              && link.sent == old(link.sent) + CallRequests(ServiceInfo(name, url, port, Some(version), ReadConfig(env).value.gateway), hostname, h.calls)
              && link.replies == Consumed(old(link.replies), |h.calls|)
    ensures r.Success? ==>
              && fresh(r.value)
              && r.value.name == name && r.value.url == url && r.value.port == port
              && r.value.version == Some(version) && !r.value.frontend
              && r.value.gateway == ReadConfig(env).value.gateway && r.value.debug == ReadConfig(env).value.debug
              && r.value.usedPermissions == {} && r.value.routes == []
  {
    var config := ReadConfig(env);
    if config.Failure? {
      return Failure(config.error);
    }
    var service := new Service(name, url, port, Some(version), config.value.gateway, config.value.debug, false);
    var handshake := RunHandshake(service, link, hostname);
    if handshake.Failure? {
      return Failure(handshake.error);
    }
    return Success(service);
  }

  /** create_frontend: no handshake, and the frontend flag opens every route by default. */
  method CreateFrontend(url: string, port: int, env: map<string, string>) returns (r: Result<Service, string>)
    ensures ReadConfig(env).Failure? ==> r == Failure(ReadConfig(env).error)
    ensures ReadConfig(env).Success? ==> r.Success?
    ensures r.Success? ==>
              && fresh(r.value)
              && r.value.name == "frontend" && r.value.url == url && r.value.port == port
              && r.value.version == None && r.value.frontend
              && r.value.gateway == ReadConfig(env).value.gateway && r.value.debug == ReadConfig(env).value.debug
              && r.value.usedPermissions == {} && r.value.routes == []
  {
    var config := ReadConfig(env);
    if config.Failure? {
      return Failure(config.error);
    }
    var service := new Service("frontend", url, port, None, config.value.gateway, config.value.debug, true);
    return Success(service);
  }
}
