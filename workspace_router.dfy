/**
  The ws-proxy workspace router: given the host name a request was sent to
  and its URL path, decide whether it targets a workspace IDE, a workspace
  port, or blobserve, and record the workspace coordinates in the route's
  vars.
 */
module WorkspaceRouter {
  import opened Wrappers
  import opened HostGrammar

  // Keys of the route vars map
  const WorkspacePortIdentifier := "workspacePort"
  const WorkspaceIdIdentifier := "workspaceID"
  const ForeignOriginIdentifier := "foreignOrigin"
  const ForeignPathIdentifier := "foreignPath"

  const IdentifierKeys: set<string> :=
    {WorkspacePortIdentifier, WorkspaceIdIdentifier, ForeignOriginIdentifier, ForeignPathIdentifier}

  /** The parts of an HTTP request the router reads; header names are canonical. */
  datatype Request = Request(host: string, header: map<string, seq<string>>, path: string)

  /** The first value of a header, or "" when it is absent. */
  function HeaderGet(header: map<string, seq<string>>, name: string): string {
    if name in header && |header[name]| > 0 then header[name][0] else ""
  }

  /**
    The host name the matchers look at. For the `Host` header it is the
    request's host up to its first `:` (the port is dropped); any other
    header (such as `x-wsproxy-host`) is taken as it is.
   */
  function GetHostHeader(header: string, req: Request): (hostname: string)
    ensures header == "Host" ==> hostname <= req.host && ':' !in hostname
    ensures header == "Host" ==> hostname == req.host || req.host[|hostname|] == ':'
    ensures header != "Host" ==> hostname == HeaderGet(req.header, header)
  {
    if header == "Host" then UpToFirst(req.host, ':'); UpTo(req.host, ':') else HeaderGet(req.header, header)
  }

  // ---------------------------------------------------------------------------
  // The ordinary host patterns

  /** What the ordinary IDE host pattern captures: the prefix group and the workspace ID. */
  datatype IdeHostCapture = IdeHostCapture(prefix: string, id: string)

  /** What `<digits>-<id><suffix>` captures: the port and the workspace ID. */
  datatype PortCapture = PortCapture(port: string, id: string)

  /** What the ordinary port host pattern captures. */
  datatype PortHostCapture = PortHostCapture(prefix: string, port: string, id: string)

  /** What the foreign IDE path pattern captures. */
  datatype IdePathCapture = IdePathCapture(id: string, foreignPath: string)

  /** What the foreign port path pattern captures. */
  datatype PortPathCapture = PortPathCapture(port: string, id: string, foreignPath: string)

  /** The alternatives of the optional group `(webview-|browser-|extensions-)`. */
  const OptionalPrefixes: seq<string> := ["webview-", "browser-", "extensions-"]

  /** What the optional prefix group can capture: one alternative, or nothing. */
  predicate IsHostPrefix(p: string) {
    p == "" || p in OptionalPrefixes
  }

  /** The alternative of the optional prefix group that `host` begins with, or "" if none. */
  function LeadingPrefix(host: string): (p: string)
    ensures p == "" || (p in OptionalPrefixes && p <= host)
    ensures forall q :: q in OptionalPrefixes && q <= host ==> q == p
  {
    if "webview-" <= host then
      assert host[0] == 'w' && host[1] == 'e';
      "webview-"
    else if "browser-" <= host then
      assert host[0] == 'b';
      "browser-"
    else if "extensions-" <= host then
      assert host[0] == 'e';
      "extensions-"
    else ""
  }

  /** The workspace ID of `<id><suffix>` when it starts at position `k` of `host`. */
  function IdeHostAt(host: string, suffix: string, k: nat): Option<string>
    requires k <= |host|
  {
    match IdEnd(host, k, suffix)
    case Some(e) => Some(host[k..e])
    case None => None
  }

  /**
    `^(webview-|browser-|extensions-)?<id><suffix>`, giving the prefix group
    ("" when it does not take part) and the workspace ID. The group is greedy:
    a prefix is tried before the pattern is tried without it.
   */
  function IdeHostMatch(host: string, suffix: string): Option<IdeHostCapture>
  {
    var p := LeadingPrefix(host);
    var withPrefix := if p != "" then IdeHostAt(host, suffix, |p|) else None;
    if withPrefix.Some? then Some(IdeHostCapture(p, withPrefix.value))
    else
      match IdeHostAt(host, suffix, 0)
      case Some(id) => Some(IdeHostCapture("", id))
      case None => None
  }

  /** The port and workspace ID of `<digits>-<id><suffix>` when it starts at position `k` of `host`. */
  function PortHostAt(host: string, suffix: string, k: nat): Option<PortCapture>
    requires k <= |host|
  {
    var n := Run(Digit, host, k);
    if 1 <= n && k + n < |host| && host[k + n] == '-' then
      match IdEnd(host, k + n + 1, suffix)
      case Some(e) => Some(PortCapture(host[k..k + n], host[k + n + 1..e]))
      case None => None
    else None
  }

  /**
    `^(webview-|browser-|extensions-)?([0-9]+)-<id><suffix>`, giving the
    prefix group, the port and the workspace ID.
   */
  function PortHostMatch(host: string, suffix: string): Option<PortHostCapture>
  {
    var p := LeadingPrefix(host);
    var withPrefix := if p != "" then PortHostAt(host, suffix, |p|) else None;
    if withPrefix.Some? then Some(PortHostCapture(p, withPrefix.value.port, withPrefix.value.id))
    else
      match PortHostAt(host, suffix, 0)
      case Some(c) => Some(PortHostCapture("", c.port, c.id))
      case None => None
  }

  // ---------------------------------------------------------------------------
  // The foreign-content path patterns

  /** `^/<id>(/.*)`, giving the workspace ID and the foreign path. */
  function IdePathMatch(path: string): Option<IdePathCapture>
  {
    if 1 <= |path| && path[0] == '/' then
      match IdEnd(path, 1, "/")
      case Some(e) => Some(IdePathCapture(path[1..e], UpTo(path[e..], '\n')))
      case None => None
    else None
  }

  /** `^/([0-9]+)-<id>(/.*)`, giving the port, the workspace ID and the foreign path. */
  function PortPathMatch(path: string): Option<PortPathCapture>
  {
    if 1 <= |path| && path[0] == '/' then
      var n := Run(Digit, path, 1);
      if 1 <= n && 1 + n < |path| && path[1 + n] == '-' then
        match IdEnd(path, n + 2, "/")
        case Some(e) => Some(PortPathCapture(path[1..1 + n], path[n + 2..e], UpTo(path[e..], '\n')))
        case None => None
      else None
    else None
  }

  // ---------------------------------------------------------------------------
  // What the matchers decide

  /** The coordinates a successful match writes into the route vars. */
  datatype Captures = Captures(
    workspaceId: string,
    workspacePort: Option<string>,
    foreignOrigin: string,
    foreignPath: Option<string>)

  /**
    The IDE matcher. The foreign-content host pattern is tried first; when it
    matches, the path alone decides. Otherwise the ordinary host pattern
    decides, and the prefix group is recorded as the foreign origin.
   */
  function IdeMatch(suffix: string, hostname: string, path: string): (r: Option<Captures>)
    ensures hostname == "" ==> r.None?
    ensures r.Some? ==> r.value.workspacePort.None?
  {
    if hostname == "" then None
    else
      match ForeignOrigin(hostname, suffix)
      case Some(origin) =>
        (match IdePathMatch(path)
         case Some(c) => Some(Captures(c.id, None, origin, Some(c.foreignPath)))
         case None => None)
      case None =>
        (match IdeHostMatch(hostname, suffix)
         case Some(c) => Some(Captures(c.id, None, c.prefix, None))
         case None => None)
  }

  /** The port matcher, in the same shape as the IDE matcher. */
  function PortMatch(suffix: string, hostname: string, path: string): (r: Option<Captures>)
    ensures hostname == "" ==> r.None?
    ensures r.Some? ==> r.value.workspacePort.Some?
  {
    if hostname == "" then None
    else
      match ForeignOrigin(hostname, suffix)
      case Some(origin) =>
        (match PortPathMatch(path)
         case Some(c) => Some(Captures(c.id, Some(c.port), origin, Some(c.foreignPath)))
         case None => None)
      case None =>
        (match PortHostMatch(hostname, suffix)
         case Some(c) => Some(Captures(c.id, Some(c.port), c.prefix, None))
         case None => None)
  }

  // ---------------------------------------------------------------------------
  // Route vars

  /** A Go map that is nil reads as empty. */
  function VarsOrEmpty(vars: Option<map<string, string>>): map<string, string> {
    if vars.Some? then vars.value else map[]
  }

  /** The keys a match that captured `c` writes. */
  function WrittenKeys(c: Captures): (keys: set<string>)
    ensures keys <= IdentifierKeys
    ensures WorkspaceIdIdentifier in keys && ForeignOriginIdentifier in keys
    ensures WorkspacePortIdentifier in keys <==> c.workspacePort.Some?
    ensures ForeignPathIdentifier in keys <==> c.foreignPath.Some?
  {
    {WorkspaceIdIdentifier, ForeignOriginIdentifier}
    + (if c.workspacePort.Some? then {WorkspacePortIdentifier} else {})
    + (if c.foreignPath.Some? then {ForeignPathIdentifier} else {})
  }

  /**
    The route vars after a match that captured `c`: the map is allocated when
    absent, the captured coordinates are written, every other entry is kept.
   */
  function Assign(vars: Option<map<string, string>>, c: Captures): (v: map<string, string>)
    ensures v.Keys == VarsOrEmpty(vars).Keys + WrittenKeys(c)
    ensures forall k :: k in VarsOrEmpty(vars) && k !in WrittenKeys(c) ==> v[k] == VarsOrEmpty(vars)[k]
    ensures v[WorkspaceIdIdentifier] == c.workspaceId && v[ForeignOriginIdentifier] == c.foreignOrigin
    ensures c.workspacePort.Some? ==> v[WorkspacePortIdentifier] == c.workspacePort.value
    ensures c.foreignPath.Some? ==> v[ForeignPathIdentifier] == c.foreignPath.value
  {
    var v := VarsOrEmpty(vars)[WorkspaceIdIdentifier := c.workspaceId];
    var v := if c.workspacePort.Some? then v[WorkspacePortIdentifier := c.workspacePort.value] else v;
    var v := v[ForeignOriginIdentifier := c.foreignOrigin];
    if c.foreignPath.Some? then v[ForeignPathIdentifier := c.foreignPath.value] else v
  }

  /** The part of a mux route match the matchers write: its vars, nil until allocated. */
  class RouteMatch {
    var vars: Option<map<string, string>>

    constructor ()
      ensures vars == None
    {
      vars := None;
    }
  }

  /** The IDE matcher as the router runs it, updating the route vars in place. */
  method MatchWorkspaceHostHeader(wsHostSuffix: string, header: string, req: Request, m: RouteMatch)
    returns (matched: bool)
    modifies m
    ensures var c := IdeMatch(wsHostSuffix, GetHostHeader(header, req), req.path);
      && matched == c.Some?
      && m.vars == if c.Some? then Some(Assign(old(m.vars), c.value)) else old(m.vars)
  {
    var hostname := GetHostHeader(header, req);
    if hostname == "" {
      return false;
    }

    var foreignOrigin := ForeignOrigin(hostname, wsHostSuffix);
    if foreignOrigin.Some? {
      var pathMatch := IdePathMatch(req.path);
      if pathMatch.None? {
        return false;
      }
      var workspaceId, foreignPath := pathMatch.value.id, pathMatch.value.foreignPath;
      if m.vars.None? {
        m.vars := Some(map[]);
      }
      m.vars := Some(m.vars.value[WorkspaceIdIdentifier := workspaceId]);
      m.vars := Some(m.vars.value[ForeignOriginIdentifier := foreignOrigin.value]);
      m.vars := Some(m.vars.value[ForeignPathIdentifier := foreignPath]);
      return true;
    }

    var hostMatch := IdeHostMatch(hostname, wsHostSuffix);
    if hostMatch.None? {
      return false;
    }
    var prefix, workspaceId := hostMatch.value.prefix, hostMatch.value.id;
    if m.vars.None? {
      m.vars := Some(map[]);
    }
    m.vars := Some(m.vars.value[WorkspaceIdIdentifier := workspaceId]);
    m.vars := Some(m.vars.value[ForeignOriginIdentifier := prefix]);
    return true;
  }

  /** The port matcher as the router runs it, updating the route vars in place. */
  method MatchWorkspacePortHostHeader(wsHostSuffix: string, header: string, req: Request, m: RouteMatch)
    returns (matched: bool)
    modifies m
    ensures var c := PortMatch(wsHostSuffix, GetHostHeader(header, req), req.path);
      && matched == c.Some?
      && m.vars == if c.Some? then Some(Assign(old(m.vars), c.value)) else old(m.vars)
  {
    var hostname := GetHostHeader(header, req);
    if hostname == "" {
      return false;
    }

    var foreignOrigin := ForeignOrigin(hostname, wsHostSuffix);
    if foreignOrigin.Some? {
      var pathMatch := PortPathMatch(req.path);
      if pathMatch.None? {
        return false;
      }
      var workspacePort, workspaceId, foreignPath := pathMatch.value.port, pathMatch.value.id, pathMatch.value.foreignPath;
      if m.vars.None? {
        m.vars := Some(map[]);
      }
      m.vars := Some(m.vars.value[WorkspaceIdIdentifier := workspaceId]);
      m.vars := Some(m.vars.value[WorkspacePortIdentifier := workspacePort]);
      m.vars := Some(m.vars.value[ForeignOriginIdentifier := foreignOrigin.value]);
      m.vars := Some(m.vars.value[ForeignPathIdentifier := foreignPath]);
      return true;
    }

    var hostMatch := PortHostMatch(hostname, wsHostSuffix);
    if hostMatch.None? {
      return false;
    }
    var prefix, workspacePort, workspaceId := hostMatch.value.prefix, hostMatch.value.port, hostMatch.value.id;
    if m.vars.None? {
      m.vars := Some(map[]);
    }
    m.vars := Some(m.vars.value[WorkspaceIdIdentifier := workspaceId]);
    m.vars := Some(m.vars.value[WorkspacePortIdentifier := workspacePort]);
    m.vars := Some(m.vars.value[ForeignOriginIdentifier := prefix]);
    return true;
  }

  /**
    The blobserve matcher: `^blobserve<suffix>`. It has no frame, so it leaves
    the route vars as they are.
   */
  method MatchBlobserveHostHeader(wsHostSuffix: string, header: string, req: Request, m: RouteMatch)
    returns (matched: bool)
    ensures matched <==> "blobserve" + wsHostSuffix <= GetHostHeader(header, req)
  {
    var hostname := GetHostHeader(header, req);
    if hostname == "" {
      return false;
    }
    matched := "blobserve" + wsHostSuffix <= hostname;
  }

  /** The coordinates the proxy reads back from the route vars. */
  datatype WorkspaceCoords = WorkspaceCoords(id: string, port: string)

  /** A missing key, or a nil map, reads as "". */
  function Lookup(vars: Option<map<string, string>>, key: string): string {
    if key in VarsOrEmpty(vars) then VarsOrEmpty(vars)[key] else ""
  }

  function GetWorkspaceCoords(vars: Option<map<string, string>>): (coords: WorkspaceCoords)
    ensures vars.None? ==> coords == WorkspaceCoords("", "")
    ensures vars.Some? && WorkspaceIdIdentifier in vars.value ==> coords.id == vars.value[WorkspaceIdIdentifier]
    ensures vars.Some? && WorkspacePortIdentifier in vars.value ==> coords.port == vars.value[WorkspacePortIdentifier]
    ensures vars.Some? && WorkspaceIdIdentifier !in vars.value ==> coords.id == ""
    ensures vars.Some? && WorkspacePortIdentifier !in vars.value ==> coords.port == ""
  {
    WorkspaceCoords(Lookup(vars, WorkspaceIdIdentifier), Lookup(vars, WorkspacePortIdentifier))
  }

  /** The suffixes each matcher is built with. */
  datatype HostRouter = HostRouter(header: string, ideSuffix: string, portSuffix: string, blobserveSuffix: string)

  /**
    The IDE matcher uses the all-cluster suffix when one is configured and the
    host suffix otherwise; the port and blobserve matchers always use the host
    suffix.
   */
  function HostBasedRouter(header: string, wsHostSuffix: string, wsHostSuffixRegex: string): (r: HostRouter)
    ensures r.header == header
    ensures r.portSuffix == wsHostSuffix && r.blobserveSuffix == wsHostSuffix
    ensures wsHostSuffixRegex != "" ==> r.ideSuffix == wsHostSuffixRegex
    ensures wsHostSuffixRegex == "" ==> r.ideSuffix == wsHostSuffix
  {
    var allClusterWsHostSuffixRegex := if wsHostSuffixRegex == "" then wsHostSuffix else wsHostSuffixRegex;
    HostRouter(header, allClusterWsHostSuffixRegex, wsHostSuffix, wsHostSuffix)
  }
}
