/**
  The fixed grammar of workspace host names and paths used by the ws-proxy
  router, hand-coded: character classes, the two shapes of a workspace ID, the
  port prefix, and the searches that stand in for the router's regular
  expressions (leftmost-first, anchored at the start, not at the end).
 */
module HostGrammar {
  import opened Wrappers

  /** The character classes the patterns use. */
  datatype CharClass = HexLetter | Hex | LowerAlnum | Digit {
    predicate Has(c: char) {
      match this
      case HexLetter => 'a' <= c <= 'f'
      case Hex => '0' <= c <= '9' || 'a' <= c <= 'f'
      case LowerAlnum => '0' <= c <= '9' || 'a' <= c <= 'z'
      case Digit => '0' <= c <= '9'
    }
  }

  /** Every character of `s` at a position in `lo..hi` is in `cls`. */
  predicate InClass(cls: CharClass, s: string, lo: nat, hi: nat)
    requires hi <= |s|
  {
    forall k :: lo <= k < hi ==> cls.Has(s[k])
  }

  /** Length of the longest run of `cls` characters of `s` that starts at `i`. */
  function Run(cls: CharClass, s: string, i: nat): (n: nat)
    requires i <= |s|
    ensures i + n <= |s|
    ensures i + n == |s| || !cls.Has(s[i + n])
    decreases |s| - i
  {
    if i < |s| && cls.Has(s[i]) then 1 + Run(cls, s, i + 1) else 0
  }

  /** Every character of the run is in the class. */
  lemma {:induction false} RunInClass(cls: CharClass, s: string, i: nat)
    requires i <= |s|
    ensures InClass(cls, s, i, i + Run(cls, s, i))
    decreases |s| - i
  {
    if i < |s| && cls.Has(s[i]) {
      RunInClass(cls, s, i + 1);
    }
  }

  /** A run that ends where the class stops is the longest run. */
  lemma {:induction false} RunForced(cls: CharClass, s: string, i: nat, n: nat)
    requires i + n <= |s| && InClass(cls, s, i, i + n)
    requires i + n == |s| || !cls.Has(s[i + n])
    ensures Run(cls, s, i) == n
    decreases n
  {
    if n > 0 {
      RunForced(cls, s, i + 1, n - 1);
    }
  }

  /** The text of `s` before the first `c`, or all of `s` when there is none. */
  function UpTo(s: string, c: char): string {
    if s == [] || s[0] == c then [] else [s[0]] + UpTo(s[1..], c)
  }

  /** `UpTo` stops at the first `c`: what it gives starts `s`, holds no `c`, and is followed by `c` if anything. */
  lemma {:induction false} UpToFirst(s: string, c: char)
    ensures var r := UpTo(s, c);
      && r <= s && c !in r
      && (|r| == |s| || s[|r|] == c)
  {
    if s != [] && s[0] != c {
      UpToFirst(s[1..], c);
      assert s == [s[0]] + s[1..];
    }
  }

  // ---------------------------------------------------------------------------
  // Workspace IDs, as a declarative grammar

  /** The positions of the `-` separators of a UUID. */
  predicate IsUuidSeparator(k: int) {
    k == 8 || k == 13 || k == 18 || k == 23
  }

  /** `[a-f][0-9a-f]{7}-[0-9a-f]{4}-[0-9a-f]{4}-[0-9a-f]{4}-[0-9a-f]{12}` */
  predicate IsUuidId(t: string) {
    && |t| == 36 && HexLetter.Has(t[0])
    && forall k :: 0 <= k < 36 ==> if IsUuidSeparator(k) then t[k] == '-' else Hex.Has(t[k])
  }

  /**
    `t` splits as `[0-9a-z]{a}-[0-9a-z]{b}-[0-9a-z]{8}` with both `a` and `b`
    in 2..16: the separators sit at positions `a` and `a + 1 + b`.
   */
  predicate IsTripleSplit(t: string, a: nat, b: nat) {
    && 2 <= a <= 16 && 2 <= b <= 16 && |t| == a + b + 10
    && forall k :: 0 <= k < |t| ==> if k == a || k == a + 1 + b then t[k] == '-' else LowerAlnum.Has(t[k])
  }

  /** `[0-9a-z]{2,16}-[0-9a-z]{2,16}-[0-9a-z]{8}`, e.g. pink-panda-ns35kd21 */
  ghost predicate IsTripleId(t: string) {
    exists a: nat, b: nat :: IsTripleSplit(t, a, b)
  }

  ghost predicate IsWorkspaceId(t: string) {
    IsUuidId(t) || IsTripleId(t)
  }

  /** `[0-9]+` */
  predicate IsPort(t: string) {
    |t| > 0 && InClass(Digit, t, 0, |t|)
  }

  /** Every workspace ID is non-empty: it has at least 14 characters. */
  lemma WorkspaceIdNonEmpty(t: string)
    requires IsWorkspaceId(t)
    ensures |t| >= 14
  {
    if !IsUuidId(t) {
      var a: nat, b: nat :| IsTripleSplit(t, a, b);
    }
  }

  /**
    How long the workspace ID at the start of `s` is, read off `s` the way the
    pattern does: 36 for a UUID, otherwise the lengths of the first two runs of
    `[0-9a-z]` characters plus 10.
   */
  ghost function IdLen(s: string): nat {
    if |s| >= 36 && IsUuidId(s[..36]) then 36
    else
      var a := Run(LowerAlnum, s, 0);
      if a + 1 <= |s| then a + Run(LowerAlnum, s, a + 1) + 10 else a + 10
  }

  /** The runs of `[0-9a-z]` characters at the start of a UUID. */
  lemma UuidRuns(s: string)
    ensures |s| >= 36 && IsUuidId(s[..36]) ==>
      Run(LowerAlnum, s, 0) == 8 && Run(LowerAlnum, s, 9) == 4 && s[18] == '-'
  {
    if |s| >= 36 && IsUuidId(s[..36]) {
      var u := s[..36];
      assert forall k :: 0 <= k < 36 ==> s[k] == u[k];
      RunForced(LowerAlnum, s, 0, 8);
      RunForced(LowerAlnum, s, 9, 4);
    }
  }

  /** Text that starts with a three-part ID does not start with a UUID. */
  lemma TripleBlocksUuid(t: string, a: nat, b: nat, s: string)
    requires IsTripleSplit(t, a, b) && t <= s
    ensures !(|s| >= 36 && IsUuidId(s[..36]))
    ensures Run(LowerAlnum, s, 0) == a && Run(LowerAlnum, s, a + 1) == b
  {
    assert forall k :: 0 <= k < |t| ==> s[k] == t[k];
    RunForced(LowerAlnum, s, 0, a);
    RunForced(LowerAlnum, s, a + 1, b);
    UuidRuns(s);
  }

  /** A workspace ID at the start of `s` is exactly `IdLen(s)` characters long. */
  lemma IdLenOfPrefix(t: string, s: string)
    requires IsWorkspaceId(t) && t <= s
    ensures |t| == IdLen(s)
  {
    if IsUuidId(t) {
      assert s[..36] == t;
    } else {
      var a: nat, b: nat :| IsTripleSplit(t, a, b);
      TripleBlocksUuid(t, a, b, s);
    }
  }

  /**
    No workspace ID is a proper prefix of another: at any position of a host
    name or path at most one workspace ID starts, so the order in which the
    pattern's two alternatives are tried never changes the captured ID.
   */
  lemma WorkspaceIdPrefixFree(t: string, u: string)
    requires IsWorkspaceId(t) && IsWorkspaceId(u) && t <= u
    ensures t == u
  {
    IdLenOfPrefix(t, u);
    IdLenOfPrefix(u, u);
  }

  // ---------------------------------------------------------------------------
  // Recognisers: where a pattern element that starts at `i` ends

  /** End of the UUID alternative starting at `i`, if it matches there. */
  function UuidEnd(s: string, i: nat): (e: Option<nat>)
    requires i <= |s|
    ensures e.Some? ==> e.value == i + 36 <= |s| && IsUuidId(s[i..e.value])
  {
    if i + 36 <= |s| && IsUuidId(s[i..i + 36]) then Some(i + 36) else None
  }

  /**
    End of the three-part alternative starting at `i`, if it matches there.
    Since `-` is not in `[0-9a-z]`, each of the first two parts is the whole
    run of `[0-9a-z]` characters, whatever the repetition bounds allow.
   */
  function TripleEnd(s: string, i: nat): (e: Option<nat>)
    requires i <= |s|
    ensures e.Some? ==> i + 14 <= e.value <= |s|
  {
    var a := Run(LowerAlnum, s, i);
    if 2 <= a <= 16 && i + a < |s| && s[i + a] == '-' then
      var b := Run(LowerAlnum, s, i + a + 1);
      if 2 <= b <= 16 && i + a + b + 10 <= |s| && s[i + a + 1 + b] == '-'
         && InClass(LowerAlnum, s, i + a + b + 2, i + a + b + 10)
      then Some(i + a + b + 10)
      else None
    else None
  }

  lemma TripleEndSound(s: string, i: nat)
    requires i <= |s| && TripleEnd(s, i).Some?
    ensures IsTripleId(s[i..TripleEnd(s, i).value])
  {
    var a := Run(LowerAlnum, s, i);
    var b := Run(LowerAlnum, s, i + a + 1);
    var e := TripleEnd(s, i).value;
    var t := s[i..e];
    RunInClass(LowerAlnum, s, i);
    RunInClass(LowerAlnum, s, i + a + 1);
    forall k | 0 <= k < |t|
      ensures if k == a || k == a + 1 + b then t[k] == '-' else LowerAlnum.Has(t[k])
    {
      assert t[k] == s[i + k];
    }
    assert IsTripleSplit(t, a, b);
  }

  lemma TripleEndComplete(s: string, i: nat, e: nat)
    requires i <= e <= |s| && IsTripleId(s[i..e])
    ensures TripleEnd(s, i) == Some(e)
  {
    var t := s[i..e];
    var a: nat, b: nat :| IsTripleSplit(t, a, b);
    forall k | i <= k < e
      ensures if k == i + a || k == i + a + 1 + b then s[k] == '-' else LowerAlnum.Has(s[k])
    {
      assert s[k] == t[k - i];
    }
    TripleEndAt(s, i, a, b);
  }

  /** The three-part alternative, stated on `s` itself. */
  lemma TripleEndAt(s: string, i: nat, a: nat, b: nat)
    requires 2 <= a <= 16 && 2 <= b <= 16 && i + a + b + 10 <= |s|
    requires forall k :: i <= k < i + a + b + 10 ==>
      if k == i + a || k == i + a + 1 + b then s[k] == '-' else LowerAlnum.Has(s[k])
    ensures TripleEnd(s, i) == Some(i + a + b + 10)
  {
    RunForced(LowerAlnum, s, i, a);
    RunForced(LowerAlnum, s, i + a + 1, b);
  }

  /**
    End of the workspace-ID group starting at `i` when `follow` comes right
    after it: the UUID alternative is tried first, then the three-part one.
   */
  function IdEnd(s: string, i: nat, follow: string): (e: Option<nat>)
    requires i <= |s|
    ensures e.Some? ==> i + 14 <= e.value <= |s| && follow <= s[e.value..]
  {
    var u := UuidEnd(s, i);
    if u.Some? && follow <= s[u.value..] then u
    else
      var t := TripleEnd(s, i);
      if t.Some? && follow <= s[t.value..] then t else None
  }

  /** What `IdEnd` finds is a workspace ID followed by `follow`. */
  lemma IdEndSound(s: string, i: nat, follow: string)
    requires i <= |s| && IdEnd(s, i, follow).Some?
    ensures IsWorkspaceId(s[i..IdEnd(s, i, follow).value])
  {
    if !(UuidEnd(s, i).Some? && follow <= s[UuidEnd(s, i).value..]) {
      TripleEndSound(s, i);
    }
  }

  /** Whenever a workspace ID followed by `follow` starts at `i`, `IdEnd` finds exactly it. */
  lemma IdEndComplete(s: string, i: nat, e: nat, follow: string)
    requires i <= e <= |s| && IsWorkspaceId(s[i..e]) && follow <= s[e..]
    ensures IdEnd(s, i, follow) == Some(e)
  {
    var u := UuidEnd(s, i);
    if u.Some? {
      IdLenOfPrefix(s[i..u.value], s[i..]);
      IdLenOfPrefix(s[i..e], s[i..]);
    } else {
      assert !IsUuidId(s[i..e]);
      TripleEndComplete(s, i, e);
    }
  }

  // ---------------------------------------------------------------------------
  // The greedy `(.*)` of the foreign-content host pattern

  predicate OccursAt(s: string, pat: string, k: nat) {
    k <= |s| && pat <= s[k..]
  }

  /** The last position at or before `i` where `pat` occurs in `s`. */
  function LastOccurrence(s: string, pat: string, i: nat): (r: Option<nat>)
    requires i <= |s|
    ensures r.Some? ==> r.value <= i && OccursAt(s, pat, r.value)
    ensures r.Some? ==> forall k :: r.value < k <= i ==> !OccursAt(s, pat, k)
    ensures r.None? ==> forall k :: 0 <= k <= i ==> !OccursAt(s, pat, k)
  {
    if OccursAt(s, pat, i) then Some(i)
    else if i == 0 then None
    else LastOccurrence(s, pat, i - 1)
  }

  /**
    The text that `^(.*)foreign<suffix>` captures: `.` matches anything but a
    newline and `*` is greedy, so it is everything before the last
    `foreign<suffix>` that starts on the first line.
   */
  function ForeignOrigin(host: string, suffix: string): (r: Option<string>)
    ensures r.Some? ==> r.value + "foreign" + suffix <= host && '\n' !in r.value
    ensures r.Some? ==> forall k :: |r.value| < k <= |UpTo(host, '\n')| ==> !OccursAt(host, "foreign" + suffix, k)
    ensures r.None? ==> forall k :: 0 <= k <= |UpTo(host, '\n')| ==> !OccursAt(host, "foreign" + suffix, k)
  {
    UpToFirst(host, '\n');
    var line := UpTo(host, '\n');
    match LastOccurrence(host, "foreign" + suffix, |line|)
    case Some(k) =>
      assert host[..k] == line[..k];
      assert host[..k] + "foreign" + suffix == host[..k] + ("foreign" + suffix);
      assert host == host[..k] + host[k..];
      Some(host[..k])
    case None => None
  }
}
