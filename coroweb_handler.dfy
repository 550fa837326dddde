/**
 * The request binder of the web layer: how a `RequestHandler` turns an incoming request
 * into the keyword arguments of its handler function, or into a `400 Bad Request`; and the
 * filters `add_route` / `add_routes` apply before registering handlers.
 *
 * Body decoding (`request.json()`, `request.post()`) and query-string parsing (`parse_qs`)
 * are not modelled: the request carries their results.
 */
module CorowebHandler {
  import opened Wrappers
  import opened Text
  import opened Values
  import opened CorowebSignature

  /** What `parse_qs` gives for one key: never an empty list. */
  type ValueList = s: seq<string> | |s| > 0 witness [""]

  datatype Request = Request(
    httpMethod: string,
    contentType: string,             // "" when the request has none
    json: Value,                     // the decoded JSON body
    form: map<string, string>,       // the decoded form body
    queryString: string,
    query: map<string, ValueList>,   // parse_qs(query_string, True)
    matchInfo: map<string, string>)  // the route's path variables

  /** A keyword argument: a value, or the request object itself. */
  datatype Arg = Val(value: Value) | RequestObject

  type Kw = map<string, Arg>

  /** What the handler function does with its arguments: return a value or raise. */
  datatype Outcome = Returns(value: Value) | Raises

  datatype Response = BadRequest(message: string) | Reply(body: Value)

  /** The body returned when the handler raises: `{"error": "ApiError"}`. */
  const ApiError: Value := Dict(map["error" := Str("ApiError")])

  /** The five attributes `RequestHandler.__init__` computes from the handler's signature. */
  datatype Classification = Classification(
    hasRequestArg: bool,
    hasVarKwArg: bool,
    hasNamedKwArgs: bool,
    namedKwArgs: seq<string>,
    requiredKwArgs: seq<string>)

  /** The classification of a function whose `request` parameter is well placed. */
  function ClassificationOf(fn: Func): Classification
    requires HasRequestArg(fn).Ok?
  {
    Classification(HasRequestArg(fn).value, HasVarKwArg(fn.params), HasNamedKwArgs(fn.params),
      NamedKwArgs(fn.params), RequiredKwArgs(fn.params))
  }

  /** The handler takes keyword arguments, so the body or query is read. */
  predicate KeywordStyle(c: Classification)
  {
    c.hasVarKwArg || c.hasNamedKwArgs || |c.requiredKwArgs| > 0
  }

  /** `dict(**m)` for string-valued `m`. */
  function StrArgs(m: map<string, string>): Kw
  {
    map k | k in m :: Val(Str(m[k]))
  }

  function JsonArgs(m: map<string, Value>): Kw
  {
    map k | k in m :: Val(m[k])
  }

  /** Each query key bound to its first value. */
  function QueryArgs(q: map<string, ValueList>): Kw
  {
    map k | k in q :: Val(Str(q[k][0]))
  }

  /** `copy`: the entries of `kw` whose key is one of `names`. */
  function Restrict(kw: Kw, names: seq<string>): Kw
  {
    map k | k in kw && k in names :: kw[k]
  }

  /** The first of `names` that `kw` lacks. */
  function FirstMissing(names: seq<string>, kw: Kw): Option<string>
  {
    if |names| == 0 then None
    else if names[0] !in kw then Some(names[0])
    else FirstMissing(names[1..], kw)
  }

  /** The outcome of reading the body or the query: nothing read, arguments, or a rejection. */
  datatype Extraction = NoPayload | Payload(kw: Kw) | Reject(message: string)

  predicate IsJson(ct: string)
  {
    "application/json" <= Lower(ct)
  }

  predicate IsForm(ct: string)
  {
    "application/x-www-form-urlencoded" <= Lower(ct) || "multipart/form-data" <= Lower(ct)
  }

  /** How a POST body is read, by its content type. */
  function PostPayload(req: Request): Extraction
  {
    if req.contentType == "" then Reject("Missing Content-Type")
    else if IsJson(req.contentType) then
      if req.json.Dict? then Payload(JsonArgs(req.json.entries)) else Reject("JSON body must be object.")
    else if IsForm(req.contentType) then Payload(StrArgs(req.form))
    else Reject("Unsupported Content-Type: " + req.contentType)
  }

  /** The first stage of `__call__`: what is read from the body or the query string. */
  function Extract(c: Classification, req: Request): Extraction
  {
    if !KeywordStyle(c) then NoPayload
    else if req.httpMethod == "POST" then PostPayload(req)
    else if req.httpMethod == "GET" && req.queryString != "" then Payload(QueryArgs(req.query))
    else NoPayload
  }

  /** The keyword arguments before the required-argument check. */
  function Arguments(c: Classification, req: Request): Kw
    requires !Extract(c, req).Reject?
  {
    var kw :=
      match Extract(c, req)
      case NoPayload => StrArgs(req.matchInfo)
      case Payload(read) =>
        (if !c.hasVarKwArg && |c.namedKwArgs| > 0 then Restrict(read, c.namedKwArgs) else read)
        + StrArgs(req.matchInfo);
    if c.hasRequestArg then kw["request" := RequestObject] else kw
  }

  /** The arguments the handler is called with, or the `Bad Request` message. */
  function Bind(c: Classification, req: Request): Result<Kw, string>
  {
    var extracted := Extract(c, req);
    if extracted.Reject? then Err(extracted.message)
    else
      match FirstMissing(c.requiredKwArgs, Arguments(c, req))
      case Some(name) => Err("Missing argument: " + name)
      case None => Ok(Arguments(c, req))
  }

  /** What `__call__` answers. */
  function Respond(c: Classification, req: Request, run: Kw -> Outcome): Response
  {
    match Bind(c, req)
    case Err(message) => BadRequest(message)
    case Ok(kw) =>
      match run(kw)
      case Returns(v) => Reply(v)
      case Raises => Reply(ApiError)
  }

  /** A URL handler: the function and what `__init__` learnt from its signature. */
  class RequestHandler {
    const func: Func
    const info: Classification

    /** `RequestHandler(app, fn)`; it raises instead when `request` is misplaced (see `Router.AddRoute`). */
    constructor (fn: Func)
      requires HasRequestArg(fn).Ok?
      ensures func == fn && info == ClassificationOf(fn)
    {
      func := fn;
      info := ClassificationOf(fn);
    }

    /** The first stage of `__call__`: reading the body or the query string. */
    method ReadRequest(req: Request) returns (e: Extraction)
      ensures e == Extract(info, req)
    {
      e := NoPayload;
      if info.hasVarKwArg || info.hasNamedKwArgs || |info.requiredKwArgs| > 0 {
        if req.httpMethod == "POST" {
          if req.contentType == "" {
            return Reject("Missing Content-Type");
          }
          var ct := Lower(req.contentType);
          if "application/json" <= ct {
            if !req.json.Dict? {
              return Reject("JSON body must be object.");
            }
            e := Payload(JsonArgs(req.json.entries));
          } else if "application/x-www-form-urlencoded" <= ct || "multipart/form-data" <= ct {
            e := Payload(StrArgs(req.form));
          } else {
            return Reject("Unsupported Content-Type: " + req.contentType);
          }
        }
        if req.httpMethod == "GET" {
          if req.queryString != "" {
            var read := FirstValues(req.query);
            e := Payload(read);
          }
        }
      }
    }

    /** `__call__(request)`, with `run` standing for the handler function's behaviour. */
    method Call(req: Request, run: Kw -> Outcome) returns (resp: Response)
      ensures resp == Respond(info, req, run)
    {
      var e := ReadRequest(req);
      if e.Reject? {
        return BadRequest(e.message);
      }
      var args: Kw;
      if e.NoPayload? {
        args := StrArgs(req.matchInfo);
      } else {
        args := e.kw;
        if !info.hasVarKwArg && |info.namedKwArgs| > 0 {
          args := CopyNamed(args, info.namedKwArgs);
        }
        args := Overlay(args, req.matchInfo);
      }
      if info.hasRequestArg {
        args := args["request" := RequestObject];
      }
      var missing := CheckRequired(info.requiredKwArgs, args);
      if missing.Some? {
        return BadRequest("Missing argument: " + missing.value);
      }
      var outcome := run(args);
      match outcome {
        case Returns(v) => resp := Reply(v);
        case Raises => resp := Reply(ApiError);
      }
    }
  }

  /** `kw[k] = v[0]` for every key of the parsed query. */
  method FirstValues(query: map<string, ValueList>) returns (read: Kw)
    ensures read == QueryArgs(query)
  {
    read := map[];
    var todo := query.Keys;
    while todo != {}
      invariant todo <= query.Keys
      invariant forall k :: k in read <==> k in query && k !in todo
      invariant forall k :: k in read ==> read[k] == Val(Str(query[k][0]))
      decreases |todo|
    {
      var k :| k in todo;
      read := read[k := Val(Str(query[k][0]))];
      todo := todo - {k};
    }
  }

  /** The `copy` loop: keeps the entries of `kw` named in `names`. */
  method CopyNamed(kw: Kw, names: seq<string>) returns (copy: Kw)
    ensures copy == Restrict(kw, names)
  {
    copy := map[];
    for i := 0 to |names|
      invariant copy == Restrict(kw, names[..i])
    {
      var name := names[i];
      assert names[..i + 1] == names[..i] + [name];
      if name in kw {
        copy := copy[name := kw[name]];
      }
    }
    assert names[..|names|] == names;
  }

  /** The `match_info` loop: every path variable overwrites `kw`. */
  method Overlay(kw: Kw, matchInfo: map<string, string>) returns (args: Kw)
    ensures args == kw + StrArgs(matchInfo)
  {
    args := kw;
    var todo := matchInfo.Keys;
    OverlayEnds(kw, matchInfo);
    while todo != {}
      invariant todo <= matchInfo.Keys
      invariant args == kw + StrArgs(matchInfo - todo)
      decreases |todo|
    {
      var k :| k in todo;
      OverlayStep(kw, matchInfo, todo, k);
      args := args[k := Val(Str(matchInfo[k]))];
      todo := todo - {k};
    }
  }

  lemma OverlayEnds(kw: Kw, matchInfo: map<string, string>)
    ensures kw + StrArgs(matchInfo - matchInfo.Keys) == kw
    ensures matchInfo - {} == matchInfo
  {
    assert matchInfo - matchInfo.Keys == map[];
  }

  /** Overwriting one more path variable extends the overlay by that key. */
  lemma OverlayStep(kw: Kw, matchInfo: map<string, string>, todo: set<string>, k: string)
    requires k in todo && todo <= matchInfo.Keys
    ensures (kw + StrArgs(matchInfo - todo))[k := Val(Str(matchInfo[k]))] == kw + StrArgs(matchInfo - (todo - {k}))
  {
  }

  /** The required-argument loop: the first name `kw` lacks, if any. */
  method CheckRequired(names: seq<string>, kw: Kw) returns (missing: Option<string>)
    ensures missing == FirstMissing(names, kw)
  {
    for i := 0 to |names|
      invariant FirstMissing(names, kw) == FirstMissing(names[i..], kw)
    {
      assert names[i..][1..] == names[i + 1..];
      if names[i] !in kw {
        return Some(names[i]);
      }
    }
    assert names[|names|..] == [];
    return None;
  }

  // ---------------------------------------------------------------- properties of the binder

  /** `FirstMissing` finds a name exactly when one is absent, and it is the first absent one. */
  lemma {:induction false} FirstMissingMeaning(names: seq<string>, kw: Kw)
    ensures FirstMissing(names, kw).None? <==> forall n :: n in names ==> n in kw
    ensures FirstMissing(names, kw).Some? ==>
      (exists i :: 0 <= i < |names| && names[i] == FirstMissing(names, kw).value
        && names[i] !in kw && forall j :: 0 <= j < i ==> names[j] in kw)
  {
    if |names| > 0 {
      FirstMissingMeaning(names[1..], kw);
      assert forall n :: n in names ==> n == names[0] || n in names[1..];
      if names[0] in kw && FirstMissing(names, kw).Some? {
        var i :| 0 <= i < |names[1..]| && names[1..][i] == FirstMissing(names, kw).value
          && names[1..][i] !in kw && forall j :: 0 <= j < i ==> names[1..][j] in kw;
        assert names[i + 1] == names[1..][i];
        assert forall j :: 1 <= j <= i ==> names[j] == names[1..][j - 1];
      }
    }
  }

  /**
   * A POST to a handler taking keyword arguments is refused exactly when the content type is
   * missing, is JSON whose body is not an object, or is neither JSON, urlencoded nor multipart.
   */
  lemma PostRejections(c: Classification, req: Request)
    requires KeywordStyle(c) && req.httpMethod == "POST"
    ensures Extract(c, req).Reject? <==>
      req.contentType == "" || (IsJson(req.contentType) && !req.json.Dict?) || (!IsJson(req.contentType) && !IsForm(req.contentType))
    ensures req.contentType == "" ==> Bind(c, req) == Err("Missing Content-Type")
    ensures req.contentType != "" && IsJson(req.contentType) && !req.json.Dict? ==> Bind(c, req) == Err("JSON body must be object.")
    ensures req.contentType != "" && !IsJson(req.contentType) && !IsForm(req.contentType) ==>
      Bind(c, req) == Err("Unsupported Content-Type: " + req.contentType)
  {
  }

  /** The content type is matched without regard to ASCII letter case. */
  lemma ContentTypeCaseInsensitive(c: Classification, req: Request, contentType: string)
    requires req.contentType != "" && contentType != "" && Lower(contentType) == Lower(req.contentType)
    ensures Extract(c, req).Payload? ==> Extract(c, req.(contentType := contentType)) == Extract(c, req)
  {
  }

  /** Without a body or query read, the arguments are the path variables, unfiltered. */
  lemma UnreadIsMatchInfo(c: Classification, req: Request)
    requires Extract(c, req).NoPayload?
    ensures Arguments(c, req) - {"request"} == StrArgs(req.matchInfo) - {"request"}
  {
  }

  /**
   * For a GET with a query string, a key that no path variable and no `request` argument
   * shadows, and that the handler accepts, is bound to its first value.
   */
  lemma GetTakesFirstValue(c: Classification, req: Request, k: string)
    requires KeywordStyle(c) && req.httpMethod == "GET" && req.queryString != ""
    requires k in req.query && k !in req.matchInfo && !(c.hasRequestArg && k == "request")
    requires c.hasVarKwArg || k in c.namedKwArgs
    ensures k in Arguments(c, req) && Arguments(c, req)[k] == Val(Str(req.query[k][0]))
  {
  }

  /** Without `**kw`, read arguments are cut down to the named keyword parameters; path variables and `request` are then added. */
  lemma PayloadRestrictedToNamed(c: Classification, req: Request)
    requires Extract(c, req).Payload? && !c.hasVarKwArg && |c.namedKwArgs| > 0
    ensures forall k :: k in Arguments(c, req) ==>
      k in c.namedKwArgs || k in req.matchInfo || (c.hasRequestArg && k == "request")
  {
  }

  /** Path variables overwrite whatever was read, and `request` overwrites everything. */
  lemma MatchInfoWins(c: Classification, req: Request)
    requires !Extract(c, req).Reject?
    ensures forall k :: k in req.matchInfo && !(c.hasRequestArg && k == "request") ==>
      k in Arguments(c, req) && Arguments(c, req)[k] == Val(Str(req.matchInfo[k]))
    ensures c.hasRequestArg ==> "request" in Arguments(c, req) && Arguments(c, req)["request"] == RequestObject
  {
  }

  /**
   * Once the request is read, binding fails exactly when a required keyword argument is
   * absent, with the first such name in the message; on success every required name is bound.
   */
  lemma MissingArgument(c: Classification, req: Request)
    requires !Extract(c, req).Reject?
    ensures Bind(c, req).Ok? <==> forall n :: n in c.requiredKwArgs ==> n in Arguments(c, req)
    ensures Bind(c, req).Err? ==>
      (exists i :: 0 <= i < |c.requiredKwArgs|
        && Bind(c, req).error == "Missing argument: " + c.requiredKwArgs[i]
        && c.requiredKwArgs[i] !in Arguments(c, req)
        && forall j :: 0 <= j < i ==> c.requiredKwArgs[j] in Arguments(c, req))
  {
    FirstMissingMeaning(c.requiredKwArgs, Arguments(c, req));
  }

  /** A call is refused exactly when binding fails; a handler that raises yields the ApiError body. */
  lemma ApiErrorOnRaise(c: Classification, req: Request, run: Kw -> Outcome)
    ensures Respond(c, req, run).BadRequest? <==> Bind(c, req).Err?
    ensures Bind(c, req).Ok? && run(Bind(c, req).value).Raises? ==> Respond(c, req, run) == Reply(ApiError)
    ensures Bind(c, req).Ok? && run(Bind(c, req).value).Returns? ==>
      Respond(c, req, run) == Reply(run(Bind(c, req).value).value)
  {
  }

  /** A handler with a required keyword argument, asked by GET without a query string, answers `Missing argument`. */
  lemma RequiredWithoutQuery(req: Request)
    requires req.httpMethod == "GET" && req.queryString == "" && req.matchInfo == map[]
    ensures var fn := Func("api_get", [Param("id", KeywordOnly, false)], Str("GET"), Str("/api/{x}"));
      && HasRequestArg(fn) == Ok(false)
      && Bind(ClassificationOf(fn), req) == Err("Missing argument: id")
  {
    var fn := Func("api_get", [Param("id", KeywordOnly, false)], Str("GET"), Str("/api/{x}"));
    var ps := fn.params;
    assert ps[1..] == [];
    assert RequestScan(fn.name, ps[1..], false) == Ok(false);
    assert HasRequestArg(fn) == Ok(false);
    assert RequiredKwArgs(ps) == ["id"];
    var c := ClassificationOf(fn);
    assert KeywordStyle(c) && Extract(c, req) == NoPayload;
    assert Arguments(c, req) == map[];
    assert FirstMissing(c.requiredKwArgs, Arguments(c, req)) == Some("id");
    assert "Missing argument: " + "id" == "Missing argument: id";
  }

  /** `@post('/api') def api_post(*, a)`. */
  const ApiPost := Func("api_post", [Param("a", KeywordOnly, false)], Str("POST"), Str("/api"))

  lemma ApiPostClassification()
    ensures HasRequestArg(ApiPost) == Ok(false)
    ensures ClassificationOf(ApiPost) == Classification(false, false, true, ["a"], ["a"])
  {
    var ps := ApiPost.params;
    assert ps[1..] == [];
    assert RequestScan(ApiPost.name, ps[1..], false) == Ok(false);
    assert RequiredKwArgs(ps) == ["a"] && NamedKwArgs(ps) == ["a"];
  }

  lemma JsonContentType()
    ensures IsJson("application/json")
  {
    JsonTypeLower();
  }

  lemma JsonTypeLower()
    ensures Lower("application/json") == "application/json"
  {
    LowerUnchanged("application/json");
  }

  /** A JSON object posted to a handler with a required keyword `a` binds `a`; a JSON list is refused. */
  lemma JsonBodyBinds(req: Request)
    requires req.httpMethod == "POST" && req.contentType == "application/json" && req.matchInfo == map[]
    ensures HasRequestArg(ApiPost) == Ok(false)
    ensures req.json == Dict(map["a" := Int(5)]) ==> Bind(ClassificationOf(ApiPost), req) == Ok(map["a" := Val(Int(5))])
    ensures req.json == List([Int(1), Int(2)]) ==> Bind(ClassificationOf(ApiPost), req) == Err("JSON body must be object.")
  {
    ApiPostClassification();
    JsonContentType();
    var c := Classification(false, false, true, ["a"], ["a"]);
    if req.json == Dict(map["a" := Int(5)]) {
      JsonObjectBinds(c, req);
    } else if req.json == List([Int(1), Int(2)]) {
      JsonListRefused(c, req);
    }
  }

  lemma JsonObjectBinds(c: Classification, req: Request)
    requires c == Classification(false, false, true, ["a"], ["a"]) && IsJson(req.contentType)
    requires req.httpMethod == "POST" && req.contentType != "" && req.matchInfo == map[]
    requires req.json == Dict(map["a" := Int(5)])
    ensures Bind(c, req) == Ok(map["a" := Val(Int(5))])
  {
    var kw := map["a" := Val(Int(5))];
    assert JsonArgs(req.json.entries) == kw;
    assert Extract(c, req) == Payload(kw);
    assert Restrict(kw, ["a"]) == kw;
    assert Arguments(c, req) == kw;
    assert FirstMissing(["a"], kw) == None by {
      assert ["a"][1..] == [];
    }
  }

  lemma JsonListRefused(c: Classification, req: Request)
    requires c == Classification(false, false, true, ["a"], ["a"]) && IsJson(req.contentType)
    requires req.httpMethod == "POST" && req.contentType != "" && req.json.List?
    ensures Bind(c, req) == Err("JSON body must be object.")
  {
  }

  // ---------------------------------------------------------------- route registration

  datatype RouteError = NotDecorated(fn: string) | BadSignature(error: SignatureError)

  /** A registered route: method, path and the handler object. */
  datatype Route = Route(httpMethod: Value, path: Value, handler: RequestHandler)

  /** A module attribute as `add_routes` sees it: a function, or something not callable. */
  datatype Member = Function(f: Func) | Data(v: Value)

  /** What `add_route(app, fn)` raises, if anything. */
  function AddRouteError(fn: Func): Option<RouteError>
  {
    if fn.route == Null || fn.httpMethod == Null then Some(NotDecorated(fn.name))
    else if HasRequestArg(fn).Err? then Some(BadSignature(HasRequestArg(fn).error))
    else None
  }

  /** `add_routes`' filter: a public callable carrying truthy `__method__` and `__route__`. */
  predicate Routable(name: string, m: Member)
  {
    !("_" <= name) && m.Function? && Truthy(m.f.httpMethod) && Truthy(m.f.route)
  }

  /** The functions `add_routes` hands to `add_route`, in listing order. */
  function Registered(listing: seq<(string, Member)>): seq<Func>
  {
    if |listing| == 0 then []
    else
      var last := listing[|listing| - 1];
      Registered(listing[..|listing| - 1]) + if Routable(last.0, last.1) then [last.1.f] else []
  }

  /** Every function handed on comes from a routable entry of the listing. */
  lemma {:induction false} RegisteredRoutable(listing: seq<(string, Member)>)
    ensures forall f :: f in Registered(listing) ==>
      exists i :: 0 <= i < |listing| && Routable(listing[i].0, listing[i].1) && listing[i].1.f == f
  {
    if |listing| > 0 {
      var n := |listing| - 1;
      var init := listing[..n];
      RegisteredRoutable(init);
      forall f | f in Registered(listing)
        ensures exists i :: 0 <= i < |listing| && Routable(listing[i].0, listing[i].1) && listing[i].1.f == f
      {
        if f in Registered(init) {
          var i :| 0 <= i < n && Routable(init[i].0, init[i].1) && init[i].1.f == f;
          assert init[i] == listing[i];
        }
      }
    }
  }

  /** The first error `add_route` raises over `fns`. */
  function FirstRouteError(fns: seq<Func>): Option<RouteError>
  {
    if |fns| == 0 then None
    else if AddRouteError(fns[0]).Some? then AddRouteError(fns[0])
    else FirstRouteError(fns[1..])
  }

  /** The functions `add_route` accepts over `fns` before the first one it rejects. */
  function CleanPrefix(fns: seq<Func>): seq<Func>
  {
    if |fns| == 0 then []
    else if AddRouteError(fns[0]).Some? then []
    else [fns[0]] + CleanPrefix(fns[1..])
  }

  /** The route `add_route` registers for `fn`. */
  predicate Registers(r: Route, fn: Func)
    requires HasRequestArg(fn).Ok?
  {
    r.httpMethod == fn.httpMethod && r.path == fn.route && r.handler.func == fn && r.handler.info == ClassificationOf(fn)
  }

  /** `routes` are, one for one and in order, the routes `add_route` registers for `fns`. */
  predicate RegistersAll(routes: seq<Route>, fns: seq<Func>)
  {
    |routes| == |fns| && forall i :: 0 <= i < |fns| ==> HasRequestArg(fns[i]).Ok? && Registers(routes[i], fns[i])
  }

  /**
   * The accepted prefix is a prefix of `fns`, every function in it registers, and it falls
   * short of `fns` exactly when some function is rejected, the next one raising the first error.
   */
  lemma {:induction false} CleanPrefixMeaning(fns: seq<Func>)
    ensures CleanPrefix(fns) <= fns
    ensures forall f :: f in CleanPrefix(fns) ==> AddRouteError(f) == None
    ensures CleanPrefix(fns) == fns <==> FirstRouteError(fns) == None
    ensures |CleanPrefix(fns)| < |fns| ==> FirstRouteError(fns) == AddRouteError(fns[|CleanPrefix(fns)|])
  {
    if |fns| > 0 && AddRouteError(fns[0]).None? {
      CleanPrefixMeaning(fns[1..]);
      assert fns == [fns[0]] + fns[1..];
    }
  }

  /** Over functions that all register, the accepted prefix runs on into what follows. */
  lemma {:induction false} CleanPrefixConcat(a: seq<Func>, b: seq<Func>)
    requires FirstRouteError(a) == None
    ensures CleanPrefix(a + b) == a + CleanPrefix(b)
  {
    if |a| > 0 {
      assert (a + b)[1..] == a[1..] + b;
      CleanPrefixConcat(a[1..], b);
      assert [a[0]] + (a[1..] + CleanPrefix(b)) == a + CleanPrefix(b);
    } else {
      assert a + b == b;
    }
  }

  lemma {:induction false} FirstRouteErrorConcat(a: seq<Func>, b: seq<Func>)
    ensures FirstRouteError(a + b) == if FirstRouteError(a).Some? then FirstRouteError(a) else FirstRouteError(b)
  {
    if |a| > 0 {
      assert (a + b)[1..] == a[1..] + b;
      FirstRouteErrorConcat(a[1..], b);
    } else {
      assert a + b == b;
    }
  }

  /** Every function `add_routes` passes on carries both tags, so `add_route` never reports them missing. */
  lemma RegisteredAreDecorated(listing: seq<(string, Member)>)
    ensures forall f :: f in Registered(listing) ==> f.httpMethod != Null && f.route != Null
    ensures forall f :: f in Registered(listing) ==> !AddRouteError(f).Some? || AddRouteError(f).value.BadSignature?
  {
    RegisteredRoutable(listing);
  }

  /** A public function decorated by `get` or `post` with a non-empty path is registered. */
  lemma DecoratedIsRoutable(name: string, path: string, fn: Func)
    requires !("_" <= name) && path != ""
    ensures Routable(name, Function(Get(path, fn))) && Routable(name, Function(Post(path, fn)))
  {
  }

  /** The application's router: the routes registered so far. */
  class Router {
    var routes: seq<Route>

    constructor ()
      ensures routes == []
    {
      routes := [];
    }

    /** `add_route(app, fn)`. */
    method AddRoute(fn: Func) returns (err: Option<RouteError>)
      modifies this
      ensures err == AddRouteError(fn)
      ensures err.Some? ==> routes == old(routes)
      ensures err.None? ==>
        (|routes| == |old(routes)| + 1 && routes[..|old(routes)|] == old(routes)
          && Registers(routes[|old(routes)|], fn))
    {
      if fn.route == Null || fn.httpMethod == Null {
        return Some(NotDecorated(fn.name));
      }
      match HasRequestArg(fn) {
        case Err(e) => return Some(BadSignature(e));
        case Ok(_) =>
      }
      var handler := new RequestHandler(fn);
      routes := routes + [Route(fn.httpMethod, fn.route, handler)];
      err := None;
    }

    /** `add_routes(app, module)` over the module's attributes as `dir` lists them. */
    method AddRoutes(listing: seq<(string, Member)>) returns (err: Option<RouteError>)
      modifies this
      ensures err == FirstRouteError(Registered(listing))
      ensures |old(routes)| <= |routes| && routes[..|old(routes)|] == old(routes)
      ensures RegistersAll(routes[|old(routes)|..], CleanPrefix(Registered(listing)))
      ensures err.None? ==> RegistersAll(routes[|old(routes)|..], Registered(listing))
    {
      var i := 0;
      while i < |listing|
        invariant 0 <= i <= |listing|
        invariant |old(routes)| <= |routes| && routes[..|old(routes)|] == old(routes)
        invariant FirstRouteError(Registered(listing[..i])) == None
        invariant RegistersAll(routes[|old(routes)|..], Registered(listing[..i]))
      {
        var m := listing[i].1;
        if Routable(listing[i].0, m) {
          ghost var before := routes;
          err := AddRoute(m.f);
          if err.Some? {
            FirstErrorAt(listing, i);
            return;
          }
          AppendRoute(old(routes), before, routes, Registered(listing[..i]), m.f);
        }
        CleanStep(listing, i);
        i := i + 1;
      }
      assert listing[..i] == listing;
      CleanPrefixMeaning(Registered(listing));
      err := None;
    }
  }

  /** When the entries before `i` register cleanly and entry `i` fails, its error is the first. */
  lemma {:induction false} FirstErrorAt(listing: seq<(string, Member)>, i: nat)
    requires i < |listing| && Routable(listing[i].0, listing[i].1)
    requires FirstRouteError(Registered(listing[..i])) == None && AddRouteError(listing[i].1.f).Some?
    ensures FirstRouteError(Registered(listing)) == AddRouteError(listing[i].1.f)
    ensures CleanPrefix(Registered(listing)) == Registered(listing[..i])
  {
    RegisteredSplit(listing, i);
    var rest := [listing[i].1.f] + Registered(listing[i + 1..]);
    assert Registered(listing) == Registered(listing[..i]) + rest;
    FirstRouteErrorConcat(Registered(listing[..i]), rest);
    CleanPrefixConcat(Registered(listing[..i]), rest);
    assert rest[0] == listing[i].1.f;
    assert Registered(listing[..i]) + [] == Registered(listing[..i]);
  }

  /** An entry that is skipped, or registers without error, keeps the prefix clean and extends it. */
  lemma {:induction false} CleanStep(listing: seq<(string, Member)>, i: nat)
    requires i < |listing| && FirstRouteError(Registered(listing[..i])) == None
    requires Routable(listing[i].0, listing[i].1) ==> AddRouteError(listing[i].1.f) == None
    ensures FirstRouteError(Registered(listing[..i + 1])) == None
    ensures Registered(listing[..i + 1]) ==
      Registered(listing[..i]) + if Routable(listing[i].0, listing[i].1) then [listing[i].1.f] else []
  {
    RegisteredSnoc(listing, i);
    if Routable(listing[i].0, listing[i].1) {
      FirstRouteErrorConcat(Registered(listing[..i]), [listing[i].1.f]);
      assert [listing[i].1.f][1..] == [];
    } else {
      assert Registered(listing[..i + 1]) == Registered(listing[..i]);
    }
  }

  /** One route registered for `f` after those for `fns` extends them to those for `fns + [f]`. */
  lemma {:induction false} AppendRoute(start: seq<Route>, before: seq<Route>, after: seq<Route>, fns: seq<Func>, f: Func)
    requires |start| <= |before| && before[..|start|] == start
    requires RegistersAll(before[|start|..], fns)
    requires |after| == |before| + 1 && after[..|before|] == before
    requires HasRequestArg(f).Ok? && Registers(after[|before|], f)
    ensures |start| <= |after| && after[..|start|] == start
    ensures RegistersAll(after[|start|..], fns + [f])
  {
    assert after[..|start|] == before[..|start|];
    var added, extended := after[|start|..], fns + [f];
    forall i | 0 <= i < |extended|
      ensures HasRequestArg(extended[i]).Ok? && Registers(added[i], extended[i])
    {
      if i < |fns| {
        assert added[i] == before[|start|..][i];
      }
    }
  }

  /** The functions registered from `listing` split at a routable entry `i`. */
  lemma {:induction false} RegisteredSplit(listing: seq<(string, Member)>, i: nat)
    requires i < |listing| && Routable(listing[i].0, listing[i].1)
    ensures Registered(listing) == Registered(listing[..i]) + [listing[i].1.f] + Registered(listing[i + 1..])
  {
    var head, tail := listing[..i + 1], listing[i + 1..];
    RegisteredSnoc(listing, i);
    assert head + tail == listing;
    RegisteredConcat(head, tail);
  }

  /** One more entry of the listing adds its function when it is routable. */
  lemma {:induction false} RegisteredSnoc(listing: seq<(string, Member)>, i: nat)
    requires i < |listing|
    ensures Registered(listing[..i + 1]) ==
      Registered(listing[..i]) + if Routable(listing[i].0, listing[i].1) then [listing[i].1.f] else []
  {
    assert listing[..i + 1][..i] == listing[..i];
  }

  lemma {:induction false} RegisteredConcat(a: seq<(string, Member)>, b: seq<(string, Member)>)
    ensures Registered(a + b) == Registered(a) + Registered(b)
    decreases |b|
  {
    if |b| == 0 {
      assert a + b == a;
    } else {
      var b' := b[..|b| - 1];
      RegisteredConcat(a, b');
      assert (a + b)[..|a + b| - 1] == a + b';
      assert (a + b)[|a + b| - 1] == b[|b| - 1];
    }
  }
}
