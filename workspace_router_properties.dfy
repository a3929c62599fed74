/**
  What the ws-proxy matchers accept and what they capture, stated against
  the declarative grammar of workspace IDs and ports.
 */
module WorkspaceRouterProperties {
  import opened Wrappers
  import opened HostGrammar
  import opened WorkspaceRouter

  /** Reading `x + y + z` back off a text that starts with it. */
  lemma ConcatParts(s: string, x: string, y: string, z: string)
    requires x + y + z <= s
    ensures x <= s && s[|x|..|x| + |y|] == y && z <= s[|x| + |y|..]
  {
    assert (x + y + z)[..|x|] == x;
    assert (x + y + z)[|x|..|x| + |y|] == y;
    assert (x + y + z)[|x| + |y|..] == z;
  }

  /** A text that has `suffix` at position `e` starts with the parts before it and `suffix`. */
  lemma PartsPrefix(s: string, k: nat, e: nat, suffix: string)
    requires k <= e <= |s| && suffix <= s[e..]
    ensures s[..k] + s[k..e] + suffix <= s
  {
    assert s[..k] + s[k..e] == s[..e];
    assert s == s[..e] + s[e..];
  }

  // ---------------------------------------------------------------------------
  // Ordinary host patterns

  /** What `IdeHostAt` finds is a workspace ID followed by the suffix. */
  lemma IdeHostAtSound(host: string, suffix: string, k: nat, id: string)
    requires k <= |host| && IdeHostAt(host, suffix, k) == Some(id)
    ensures IsWorkspaceId(id) && host[..k] + id + suffix <= host
  {
    var e := IdEnd(host, k, suffix).value;
    IdEndSound(host, k, suffix);
    PartsPrefix(host, k, e, suffix);
  }

  lemma IdeHostMatchSound(host: string, suffix: string)
    requires IdeHostMatch(host, suffix).Some?
    ensures var c := IdeHostMatch(host, suffix).value;
      IsHostPrefix(c.prefix) && IsWorkspaceId(c.id) && c.prefix + c.id + suffix <= host
  {
    var p := LeadingPrefix(host);
    if p != "" && IdeHostAt(host, suffix, |p|).Some? {
      IdeHostAtSound(host, suffix, |p|, IdeHostAt(host, suffix, |p|).value);
      assert host[..|p|] == p;
    } else {
      IdeHostAtSound(host, suffix, 0, IdeHostAt(host, suffix, 0).value);
      assert host[..0] == "";
    }
  }

  /**
    Every host of the shape `[prefix]<id><suffix>...` is accepted, and when it
    carries a prefix the match captures exactly that prefix and that ID.
   */
  lemma IdeHostMatchComplete(host: string, suffix: string, p: string, id: string)
    requires IsHostPrefix(p) && IsWorkspaceId(id) && p + id + suffix <= host
    ensures IdeHostMatch(host, suffix).Some?
    ensures p != "" || LeadingPrefix(host) == "" ==> IdeHostMatch(host, suffix).value == IdeHostCapture(p, id)
  {
    ConcatParts(host, p, id, suffix);
    IdEndComplete(host, |p|, |p| + |id|, suffix);
  }

  /** What `PortHostAt` finds is a port, `-`, a workspace ID and the suffix. */
  lemma PortHostAtSound(host: string, suffix: string, k: nat)
    requires k <= |host| && PortHostAt(host, suffix, k).Some?
    ensures var c := PortHostAt(host, suffix, k).value;
      && IsPort(c.port) && IsWorkspaceId(c.id)
      && host[..k] + c.port + "-" + c.id + suffix <= host
  {
    var n, e := PortHostAtParts(host, suffix, k);
    DigitRunIsPort(host, k);
    IdEndSound(host, k + n + 1, suffix);
    DashJoin(host, k, k + n);
    PartsPrefix(host, k + n + 1, e, suffix);
  }

  /** Where the port ends and where the ID ends when `PortHostAt` finds them. */
  lemma PortHostAtParts(host: string, suffix: string, k: nat) returns (n: nat, e: nat)
    requires k <= |host| && PortHostAt(host, suffix, k).Some?
    ensures 1 <= n && k + n < e <= |host| && host[k + n] == '-'
    ensures Run(Digit, host, k) == n && IdEnd(host, k + n + 1, suffix) == Some(e)
    ensures PortHostAt(host, suffix, k) == Some(PortCapture(host[k..k + n], host[k + n + 1..e]))
  {
    n := Run(Digit, host, k);
    e := IdEnd(host, k + n + 1, suffix).value;
  }

  /** A non-empty run of digits is a port. */
  lemma DigitRunIsPort(s: string, k: nat)
    requires k <= |s| && Run(Digit, s, k) >= 1
    ensures IsPort(s[k..k + Run(Digit, s, k)])
  {
    RunInClass(Digit, s, k);
  }

  /** The text up to a `-` at `m`, read as the parts before `k`, from `k` to `m`, and the `-`. */
  lemma DashJoin(s: string, k: nat, m: nat)
    requires k <= m < |s| && s[m] == '-'
    ensures s[..k] + s[k..m] + "-" == s[..m + 1]
  {
  }

  lemma PortHostMatchSound(host: string, suffix: string)
    requires PortHostMatch(host, suffix).Some?
    ensures var c := PortHostMatch(host, suffix).value;
      && IsHostPrefix(c.prefix) && IsPort(c.port) && IsWorkspaceId(c.id)
      && c.prefix + c.port + "-" + c.id + suffix <= host
  {
    var p := LeadingPrefix(host);
    if p != "" && PortHostAt(host, suffix, |p|).Some? {
      PortHostAtSound(host, suffix, |p|);
      assert host[..|p|] == p;
    } else {
      PortHostAtSound(host, suffix, 0);
      assert host[..0] == "";
    }
  }

  /** `<digits>-<id><suffix>` at position `k` is found there, with that port and ID. */
  lemma PortHostAtComplete(host: string, suffix: string, k: nat, port: string, id: string)
    requires IsPort(port) && IsWorkspaceId(id)
    requires k + |port| + 1 + |id| <= |host|
    requires host[k..k + |port|] == port && host[k + |port|] == '-'
    requires host[k + |port| + 1..k + |port| + 1 + |id|] == id
    requires suffix <= host[k + |port| + 1 + |id|..]
    ensures PortHostAt(host, suffix, k) == Some(PortCapture(port, id))
  {
    PortHostAtPositions(host, suffix, k, |port|, k + |port| + 1 + |id|);
  }

  /** `PortHostAt` at position `k`, with the port ending at `k + n` and the ID at `e`. */
  lemma PortHostAtPositions(host: string, suffix: string, k: nat, n: nat, e: nat)
    requires k + n < e <= |host| && host[k + n] == '-'
    requires IsPort(host[k..k + n]) && IsWorkspaceId(host[k + n + 1..e]) && suffix <= host[e..]
    ensures PortHostAt(host, suffix, k) == Some(PortCapture(host[k..k + n], host[k + n + 1..e]))
  {
    DigitsAt(host, k, host[k..k + n]);
    RunForced(Digit, host, k, n);
    IdEndComplete(host, k + n + 1, e, suffix);
    PortHostAtSlices(host, suffix, k, n, e);
  }

  /** `PortHostAt` when the digit run, the `-` and the end of the ID are known. */
  lemma PortHostAtSlices(host: string, suffix: string, k: nat, n: nat, e: nat)
    requires k + n < |host| && Run(Digit, host, k) == n && 1 <= n && host[k + n] == '-'
    requires IdEnd(host, k + n + 1, suffix) == Some(e)
    ensures PortHostAt(host, suffix, k) == Some(PortCapture(host[k..k + n], host[k + n + 1..e]))
  {
  }

  /**
    Every host of the shape `[prefix]<digits>-<id><suffix>...` is accepted,
    with exactly that prefix, port and ID captured.
   */
  lemma PortHostMatchComplete(host: string, suffix: string, p: string, port: string, id: string)
    requires IsHostPrefix(p) && IsPort(port) && IsWorkspaceId(id)
    requires p + port + "-" + id + suffix <= host
    ensures PortHostMatch(host, suffix) == Some(PortHostCapture(p, port, id))
  {
    ConcatParts(host, p + port + "-", id, suffix);
    ConcatParts(host, p, port, "-");
    PortHostAtComplete(host, suffix, |p|, port, id);
    LeadingPrefixBeforeDigit(host, p);
  }

  /** A port's digits, found at position `k` of `s`, are digits of `s`. */
  lemma DigitsAt(s: string, k: nat, port: string)
    requires k + |port| <= |s| && s[k..k + |port|] == port && IsPort(port)
    ensures InClass(Digit, s, k, k + |port|)
  {
    forall j | k <= j < k + |port| ensures Digit.Has(s[j]) {
      assert s[j] == port[j - k];
    }
  }

  /**
    No alternative of the prefix group starts with a digit, so the prefix group
    of a host name whose port starts after `p` captures exactly `p`.
   */
  lemma LeadingPrefixBeforeDigit(host: string, p: string)
    requires IsHostPrefix(p) && |p| < |host| && p <= host && Digit.Has(host[|p|])
    ensures LeadingPrefix(host) == p
  {
    if p == "" {
      assert !("webview-" <= host) && !("browser-" <= host) && !("extensions-" <= host);
    }
  }

  // ---------------------------------------------------------------------------
  // Foreign-content path patterns

  lemma IdePathMatchSound(path: string, id: string, foreignPath: string)
    requires IdePathMatch(path) == Some(IdePathCapture(id, foreignPath))
    ensures IsWorkspaceId(id) && "/" + id + foreignPath <= path
    ensures "/" <= foreignPath && '\n' !in foreignPath
    ensures 1 + |id| + |foreignPath| == |path| || path[1 + |id| + |foreignPath|] == '\n'
  {
    var e := IdEnd(path, 1, "/").value;
    IdEndSound(path, 1, "/");
    ForeignPathAt(path, e);
    assert path[..1] == "/";
    PartsPrefix(path, 1, e, foreignPath);
  }

  lemma IdePathMatchComplete(path: string, id: string)
    requires IsWorkspaceId(id) && "/" + id + "/" <= path
    ensures IdePathMatch(path).Some? && IdePathMatch(path).value.id == id
  {
    ConcatParts(path, "/", id, "/");
    IdEndComplete(path, 1, 1 + |id|, "/");
  }

  lemma PortPathMatchSound(path: string)
    requires PortPathMatch(path).Some?
    ensures var c := PortPathMatch(path).value;
      && IsPort(c.port) && IsWorkspaceId(c.id) && "/" + c.port + "-" + c.id + c.foreignPath <= path
      && "/" <= c.foreignPath && '\n' !in c.foreignPath
      && (2 + |c.port| + |c.id| + |c.foreignPath| == |path| || path[2 + |c.port| + |c.id| + |c.foreignPath|] == '\n')
  {
    var n, e := PortPathMatchParts(path);
    DigitRunIsPort(path, 1);
    IdEndSound(path, n + 2, "/");
    ForeignPathAt(path, e);
    PortPathLayout(path, n, e);
    assert 2 + |path[1..1 + n]| + |path[n + 2..e]| == e;
  }

  /** An accepted port path starts with `/`, the port, `-`, the ID and the foreign path. */
  lemma PortPathLayout(path: string, n: nat, e: nat)
    requires n + 2 <= e <= |path| && path[0] == '/' && path[1 + n] == '-'
    ensures "/" + path[1..1 + n] + "-" + path[n + 2..e] + UpTo(path[e..], '\n') <= path
  {
    assert path[..e] == path[..1] + path[1..1 + n] + path[1 + n..2 + n] + path[2 + n..e];
    UpToFirst(path[e..], '\n');
    PrefixJoin(path, e, "/" + path[1..1 + n] + "-" + path[n + 2..e], UpTo(path[e..], '\n'));
  }

  /** Where the port ends and where the ID ends in an accepted port path. */
  lemma PortPathMatchParts(path: string) returns (n: nat, e: nat)
    requires PortPathMatch(path).Some?
    ensures 1 <= n && n + 2 <= e < |path| && path[0] == '/' && path[1 + n] == '-'
    ensures Run(Digit, path, 1) == n && IdEnd(path, n + 2, "/") == Some(e)
    ensures PortPathMatch(path) == Some(PortPathCapture(path[1..1 + n], path[n + 2..e], UpTo(path[e..], '\n')))
  {
    n := Run(Digit, path, 1);
    e := IdEnd(path, n + 2, "/").value;
  }

  lemma PrefixJoin(s: string, k: nat, x: string, y: string)
    requires k <= |s| && x == s[..k] && y <= s[k..]
    ensures x + y <= s
  {
    assert s == s[..k] + s[k..];
  }

  /** What `(/.*)` captures at position `e`: from that `/` up to the first newline. */
  lemma ForeignPathAt(path: string, e: nat)
    requires e < |path| && path[e] == '/'
    ensures var fp := UpTo(path[e..], '\n');
      && "/" <= fp && fp <= path[e..] && '\n' !in fp
      && (e + |fp| == |path| || path[e + |fp|] == '\n')
  {
    UpToFirst(path[e..], '\n');
    assert path[e..][0] == '/';
  }

  lemma PortPathMatchComplete(path: string, port: string, id: string)
    requires IsPort(port) && IsWorkspaceId(id) && "/" + port + "-" + id + "/" <= path
    ensures PortPathMatch(path).Some?
    ensures PortPathMatch(path).value.port == port && PortPathMatch(path).value.id == id
  {
    ConcatParts(path, "/" + port + "-", id, "/");
    ConcatParts(path, "/", port, "-");
    DigitsAt(path, 1, port);
    RunForced(Digit, path, 1, |port|);
    IdEndComplete(path, |port| + 2, |port| + 2 + |id|, "/");
  }

  // ---------------------------------------------------------------------------
  // The IDE matcher

  /**
    When the host matches `<origin>foreign<suffix>`, the path alone decides:
    the request is accepted exactly when the path is `/<id>/...`, and then the
    ID and the foreign path come from the path, the origin from the host.
   */
  lemma IdeMatchForeign(suffix: string, hostname: string, path: string)
    requires ForeignOrigin(hostname, suffix).Some?
    ensures IdeMatch(suffix, hostname, path).Some? <==> IdePathMatch(path).Some?
    ensures IdeMatch(suffix, hostname, path).Some? ==>
      var c := IdeMatch(suffix, hostname, path).value;
      && IsWorkspaceId(c.workspaceId) && c.workspacePort.None? && c.foreignPath.Some?
      && "/" + c.workspaceId + c.foreignPath.value <= path && "/" <= c.foreignPath.value
      && '\n' !in c.foreignPath.value
      && (1 + |c.workspaceId| + |c.foreignPath.value| == |path|
          || path[1 + |c.workspaceId| + |c.foreignPath.value|] == '\n')
      && c.foreignOrigin == ForeignOrigin(hostname, suffix).value
      && c.foreignOrigin + "foreign" + suffix <= hostname && '\n' !in c.foreignOrigin
  {
    assert hostname != "";
    if IdePathMatch(path).Some? {
      var c := IdePathMatch(path).value;
      IdePathMatchSound(path, c.id, c.foreignPath);
    }
  }

  lemma IdeMatchForeignComplete(suffix: string, hostname: string, path: string, id: string)
    requires ForeignOrigin(hostname, suffix).Some?
    requires IsWorkspaceId(id) && "/" + id + "/" <= path
    ensures IdeMatch(suffix, hostname, path).Some?
    ensures IdeMatch(suffix, hostname, path).value.workspaceId == id
  {
    assert hostname != "";
    IdePathMatchComplete(path, id);
  }

  /**
    Otherwise the host decides: an accepted host is `[prefix]<id><suffix>...`,
    with the prefix recorded as the foreign origin and no foreign path.
   */
  lemma IdeMatchOrdinary(suffix: string, hostname: string, path: string)
    requires ForeignOrigin(hostname, suffix).None?
    requires IdeMatch(suffix, hostname, path).Some?
    ensures var c := IdeMatch(suffix, hostname, path).value;
      && IsHostPrefix(c.foreignOrigin) && IsWorkspaceId(c.workspaceId)
      && c.foreignOrigin + c.workspaceId + suffix <= hostname
      && c.workspacePort.None? && c.foreignPath.None?
  {
    IdeHostMatchSound(hostname, suffix);
  }

  lemma IdeMatchOrdinaryComplete(suffix: string, hostname: string, path: string, p: string, id: string)
    requires ForeignOrigin(hostname, suffix).None?
    requires IsHostPrefix(p) && IsWorkspaceId(id) && p + id + suffix <= hostname
    ensures IdeMatch(suffix, hostname, path).Some?
    ensures p != "" || LeadingPrefix(hostname) == "" ==>
      IdeMatch(suffix, hostname, path).value == Captures(id, None, p, None)
  {
    IdeHostMatchComplete(hostname, suffix, p, id);
  }

  /**
    There is no fall-back to the ordinary pattern: a host that matches both
    patterns, with a path that names no workspace, is rejected.
   */
  lemma ForeignPatternTakesPrecedence(suffix: string, id: string)
    requires IsWorkspaceId(id) && '\n' !in suffix
    ensures IdeHostMatch(id + suffix + "foreign" + suffix, suffix).Some?
    ensures IdeMatch(suffix, id + suffix + "foreign" + suffix, "/").None?
  {
    var host := id + suffix + "foreign" + suffix;
    IdeHostMatchComplete(host, suffix, "", id);
    WorkspaceIdHasNoNewline(id);
    ForeignOriginFound(host, id + suffix, suffix);
    assert IdePathMatch("/").None?;
  }

  /** A host whose first line reaches an occurrence of `foreign<suffix>` matches the foreign pattern. */
  lemma ForeignOriginFound(host: string, before: string, suffix: string)
    requires before + "foreign" + suffix <= host && '\n' !in before
    ensures ForeignOrigin(host, suffix).Some?
  {
    var k := |before|;
    ConcatParts(host, before, "foreign", suffix);
    assert host[k..][..7 + |suffix|] == host[k..k + 7] + host[k + 7..][..|suffix|];
    assert OccursAt(host, "foreign" + suffix, k);
    assert host[..k] == before;
    FirstLineReaches(host, k);
  }

  /** The first line of `s` is at least `k` long when the first `k` characters hold no newline. */
  lemma FirstLineReaches(s: string, k: nat)
    requires k <= |s| && '\n' !in s[..k]
    ensures |UpTo(s, '\n')| >= k
  {
    UpToFirst(s, '\n');
    assert forall j :: 0 <= j < k ==> s[..k][j] == s[j];
  }

  lemma WorkspaceIdHasNoNewline(id: string)
    requires IsWorkspaceId(id)
    ensures '\n' !in id
  {
    if !IsUuidId(id) {
      var a: nat, b: nat :| IsTripleSplit(id, a, b);
      assert id == id[..a] + [id[a]] + id[a + 1..a + 1 + b] + [id[a + 1 + b]] + id[a + 2 + b..];
    } else {
      assert id == [id[0]] + id[1..8] + [id[8]] + id[9..13] + [id[13]] + id[14..18]
                 + [id[18]] + id[19..23] + [id[23]] + id[24..36];
    }
  }

  // ---------------------------------------------------------------------------
  // The port matcher

  lemma PortMatchForeign(suffix: string, hostname: string, path: string)
    requires ForeignOrigin(hostname, suffix).Some?
    ensures PortMatch(suffix, hostname, path).Some? <==> PortPathMatch(path).Some?
    ensures PortMatch(suffix, hostname, path).Some? ==>
      var c := PortMatch(suffix, hostname, path).value;
      && IsWorkspaceId(c.workspaceId) && c.workspacePort.Some? && IsPort(c.workspacePort.value)
      && c.foreignPath.Some?
      && "/" + c.workspacePort.value + "-" + c.workspaceId + c.foreignPath.value <= path
      && "/" <= c.foreignPath.value && '\n' !in c.foreignPath.value
      && (2 + |c.workspacePort.value| + |c.workspaceId| + |c.foreignPath.value| == |path|
          || path[2 + |c.workspacePort.value| + |c.workspaceId| + |c.foreignPath.value|] == '\n')
      && c.foreignOrigin == ForeignOrigin(hostname, suffix).value
      && c.foreignOrigin + "foreign" + suffix <= hostname && '\n' !in c.foreignOrigin
  {
    assert hostname != "";
    if PortPathMatch(path).Some? {
      PortPathMatchSound(path);
    }
  }

  lemma PortMatchForeignComplete(suffix: string, hostname: string, path: string, port: string, id: string)
    requires ForeignOrigin(hostname, suffix).Some?
    requires IsPort(port) && IsWorkspaceId(id) && "/" + port + "-" + id + "/" <= path
    ensures PortMatch(suffix, hostname, path).Some?
    ensures PortMatch(suffix, hostname, path).value.workspaceId == id
    ensures PortMatch(suffix, hostname, path).value.workspacePort == Some(port)
  {
    assert hostname != "";
    PortPathMatchComplete(path, port, id);
  }

  lemma PortMatchOrdinary(suffix: string, hostname: string, path: string)
    requires ForeignOrigin(hostname, suffix).None?
    requires PortMatch(suffix, hostname, path).Some?
    ensures var c := PortMatch(suffix, hostname, path).value;
      && c.workspacePort.Some? && IsPort(c.workspacePort.value)
      && IsHostPrefix(c.foreignOrigin) && IsWorkspaceId(c.workspaceId)
      && c.foreignOrigin + c.workspacePort.value + "-" + c.workspaceId + suffix <= hostname
      && c.foreignPath.None?
  {
    PortHostMatchSound(hostname, suffix);
  }

  lemma PortMatchOrdinaryComplete(suffix: string, hostname: string, path: string, p: string, port: string, id: string)
    requires ForeignOrigin(hostname, suffix).None?
    requires IsHostPrefix(p) && IsPort(port) && IsWorkspaceId(id)
    requires p + port + "-" + id + suffix <= hostname
    ensures PortMatch(suffix, hostname, path) == Some(Captures(id, Some(port), p, None))
  {
    PortHostMatchComplete(hostname, suffix, p, port, id);
  }

  // ---------------------------------------------------------------------------
  // Coordinates read back after a match

  /** After a match the coordinates are the captured ones; the IDE matcher leaves the port as it was. */
  lemma CoordsAfterMatch(vars: Option<map<string, string>>, c: Captures)
    ensures GetWorkspaceCoords(Some(Assign(vars, c))).id == c.workspaceId
    ensures GetWorkspaceCoords(Some(Assign(vars, c))).port ==
      if c.workspacePort.Some? then c.workspacePort.value else GetWorkspaceCoords(vars).port
  {
  }

  /** After a port match the coordinates are a well-formed workspace ID and port. */
  lemma PortMatchCoords(suffix: string, hostname: string, path: string, vars: Option<map<string, string>>)
    requires PortMatch(suffix, hostname, path).Some?
    ensures var coords := GetWorkspaceCoords(Some(Assign(vars, PortMatch(suffix, hostname, path).value)));
      IsWorkspaceId(coords.id) && IsPort(coords.port)
  {
    if ForeignOrigin(hostname, suffix).Some? {
      PortMatchForeign(suffix, hostname, path);
    } else {
      PortMatchOrdinary(suffix, hostname, path);
    }
    CoordsAfterMatch(vars, PortMatch(suffix, hostname, path).value);
  }

  /** After an IDE match the workspace ID read back is a well-formed one. */
  lemma IdeMatchCoords(suffix: string, hostname: string, path: string, vars: Option<map<string, string>>)
    requires IdeMatch(suffix, hostname, path).Some?
    ensures var coords := GetWorkspaceCoords(Some(Assign(vars, IdeMatch(suffix, hostname, path).value)));
      IsWorkspaceId(coords.id) && coords.port == GetWorkspaceCoords(vars).port
  {
    if ForeignOrigin(hostname, suffix).Some? {
      IdeMatchForeign(suffix, hostname, path);
    } else {
      IdeMatchOrdinary(suffix, hostname, path);
    }
    CoordsAfterMatch(vars, IdeMatch(suffix, hostname, path).value);
  }
}
