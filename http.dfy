/** The HTTP side of a service: the per-route permission guard, the response
    envelope of route_helper, the JSON rendering of 4xx aborts and assert_get. */
module Http {
  import opened Wrappers
  import opened Text

  /** The permission argument of Service.route: left at its default, None
      (public), or a named permission. */
  datatype PermissionArg = Default | Public | Named(name: string)

  /** The permission a route requires; None means public. */
  function EffectivePermission(frontend: bool, p: PermissionArg): (r: Option<string>)
    // backends are closed by default, frontends open by default
    ensures p == Default ==> r == (if frontend then None else Some("service"))
    ensures p == Public ==> r == None
    ensures p.Named? ==> r == Some(p.name)
  {
    match p
    case Default => if frontend then None else Some("service")
    case Public => None
    case Named(n) => Some(n)
  }

  /** The permissions a route records into the service's used-permission set. */
  function Recorded(permission: Option<string>): (s: set<string>)
    ensures permission.None? ==> s == {}
    ensures permission.Some? ==> s == {permission.value}
  {
    if permission.Some? then {permission.value} else {}
  }

  /** An `abort(code, description)`. */
  datatype Abort = Abort(code: int, message: string)

  /** The permission tokens of the X-User-Permissions header; a missing header reads as "". */
  function Tokens(header: Option<string>): (ts: seq<string>)
    ensures header.None? ==> ts == [""]
    ensures header.Some? ==> |ts| == Count(header.value, ',') + 1
    ensures forall i :: 0 <= i < |ts| ==> ',' !in ts[i]
  {
    Split(header.GetOr(""), ',')
  }

  /** The guard `auth` wraps around every handler: None lets the request through. */
  function Authorize(permission: Option<string>, header: Option<string>): (r: Option<Abort>)
    ensures r.None? <==> permission.None? || permission.value in Tokens(header) || "service" in Tokens(header)
    ensures r.Some? ==> r.value == Abort(403, "user does not have the " + permission.value + " permission")
  {
    if permission.None? then None
    else
      var permissions := Tokens(header);
      if permission.value !in permissions && "service" !in permissions
      then Some(Abort(403, "user does not have the " + permission.value + " permission"))
      else None
  }

  /** Without the header only a public route, or one requiring the empty
      permission name, lets the request through. */
  lemma MissingHeaderDenied(permission: Option<string>)
    ensures Authorize(permission, None).None? <==> permission.None? || permission == Some("")
  {
    assert Tokens(None) == [""];
  }

  /** A header listing exactly the comma-free tokens ts grants a permission iff
      it is among ts or "service" is. */
  lemma HeaderOfTokens(permission: string, ts: seq<string>)
    requires |ts| > 0 && forall i :: 0 <= i < |ts| ==> ',' !in ts[i]
    ensures Authorize(Some(permission), Some(Join(ts, ','))).None? <==> permission in ts || "service" in ts
  {
    SplitJoin(ts, ',');
  }

  /** The "service" credential passes every guard, whatever else the header holds. */
  lemma ServiceGrantsAll(permission: Option<string>, before: seq<string>, after: seq<string>)
    requires forall i :: 0 <= i < |before| ==> ',' !in before[i]
    requires forall i :: 0 <= i < |after| ==> ',' !in after[i]
    ensures Authorize(permission, Some(Join(before + ["service"] + after, ','))).None?
  {
    var head := before + ["service"];
    var ts := head + after;
    assert forall i :: 0 <= i < |head| ==> ',' !in head[i];
    assert forall i :: 0 <= i < |ts| ==> ',' !in ts[i] by {
      forall i | 0 <= i < |ts|
        ensures ',' !in ts[i]
      {
        if i < |head| {
          assert ts[i] == head[i];
        } else {
          assert ts[i] == after[i - |head|];
        }
      }
    }
    SplitJoin(ts, ',');
    assert ts[|before|] == "service";
    assert "service" in Tokens(Some(Join(ts, ',')));
  }

  /** What a handler did: returned a value or None, or raised. */
  datatype Outcome<T> = Returned(result: Option<T>) | RaisedNotFound | RaisedAbort(abort: Abort) | RaisedOther

  /** A JSON response `{"data": data, "status": status}` (no "data" when None),
      or the framework's own error page with its status code. */
  datatype Response<T> = Json(code: int, status: string, data: Option<T>) | ErrorPage(code: int)

  /** The error handlers _wrap_error_codes installs: a 4xx abort becomes
      `{"status": description}` with its code; any other abort reaches the
      framework, which answers with the abort's own code. */
  function Render<T>(a: Abort): (r: Response<T>)
    ensures r.code == a.code
    ensures r.Json? <==> 400 <= a.code < 500
    ensures r.Json? ==> r.status == a.message && r.data.None?
  {
    if 400 <= a.code < 500 then Json(a.code, a.message, None) else ErrorPage(a.code)
  }

  /** route_helper: in JSON mode a missing body is a 400; NotFound becomes 404
      "not found"; other errors propagate; a result is wrapped in the envelope. */
  function RouteHelper<B, T>(json: bool, body: Option<B>, handler: Option<B> -> Outcome<T>, status: string): (r: Response<T>)
    ensures json && body.None? ==> r == Json(400, "missing json", None)
    ensures !(json && body.None?) ==>
              match handler(if json then body else None)
              case Returned(res) => r == Json(200, status, res)
              case RaisedNotFound => r == Json(404, "not found", None)
              case RaisedAbort(a) => r == (if a.code == 404 then Json(404, "not found", None) else Render(a))
              case RaisedOther => r == ErrorPage(500)
  {
    if json && body.None? then Render(Abort(400, "missing json"))
    else
      match handler(if json then body else None)
      case Returned(res) => Json(200, status, res)
      case RaisedNotFound => Json(404, "not found", None)
      case RaisedAbort(a) => if a.code == 404 then Json(404, "not found", None) else Render(a)
      case RaisedOther => ErrorPage(500)
  }

  /** A request to a route: the permission guard, then route_helper. */
  function Handle<B, T>(permission: Option<string>, header: Option<string>, json: bool, body: Option<B>,
                        handler: Option<B> -> Outcome<T>, status: string): (r: Response<T>)
    ensures Authorize(permission, header).Some? ==>
              r == Json(403, "user does not have the " + permission.value + " permission", None)
    ensures Authorize(permission, header).None? ==> r == RouteHelper(json, body, handler, status)
  {
    var denied := Authorize(permission, header);
    if denied.Some? then Render(denied.value) else RouteHelper(json, body, handler, status)
  }

  /** A denied request never reaches its handler: any two handlers give the same response. */
  lemma DeniedIgnoresHandler<B, T>(permission: Option<string>, header: Option<string>, json: bool, body: Option<B>,
                                   h1: Option<B> -> Outcome<T>, h2: Option<B> -> Outcome<T>, status: string)
    requires Authorize(permission, header).Some?
    ensures Handle(permission, header, json, body, h1, status) == Handle(permission, header, json, body, h2, status)
  {
  }

  /** assert_get */
  function AssertGet<V>(data: map<string, V>, key: string): (r: Result<V, Abort>)
    ensures r.Success? <==> key in data
    ensures r.Success? ==> r.value == data[key]
    ensures r.Failure? ==> r.error == Abort(400, "Missing required parameter " + key)
  {
    if key !in data then Failure(Abort(400, "Missing required parameter " + key)) else Success(data[key])
  }

  /** The CRUD operation an entity route runs. */
  datatype EntityOp = GetOp | PutOp | DeleteOp | PostOp | ListOp

  /** What a registered route runs. */
  datatype Handler =
    | EntityHandler(table: string, op: EntityOp, json: bool, status: string)
    | SiteMap
    | Other(tag: nat)

  /** One rule of the service's URL map. */
  datatype Rule = Rule(path: string, endpoint: string, methods: seq<string>, permission: Option<string>, handler: Handler)
}
