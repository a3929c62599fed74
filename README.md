# Workspace routing in ws-proxy, and the start-prebuild context parser

This project models two small pieces of Gitpod in Dafny.

**The ws-proxy workspace router** (`components/ws-proxy/pkg/proxy/workspacerouter.go`).
ws-proxy receives every request for a workspace. It reads the host name from
the `Host` header, or from the configured forwarding header. From the host
name (and, for foreign content, the URL path) it decides what the request is
for:

- a workspace IDE: `<id><suffix>`;
- an exposed workspace port: `<port>-<id><suffix>`;
- blobserve: `blobserve<suffix>`.

The IDE and port host names may start with one of `webview-`, `browser-` or
`extensions-`. A host name containing `foreign<suffix>` is a request for
foreign content. For those, the workspace coordinates come from the path
`/<id>/…` or `/<port>-<id>/…`.

A successful match writes the coordinates into the route's vars under
`workspaceID`, `workspacePort`, `foreignOrigin` and `foreignPath`. The proxy
reads them back as `WorkspaceCoords`.

The regular expressions are modelled by hand, with Go's RE2 leftmost-first
semantics:

- `HostGrammar` states the ID and port grammar declaratively (`IsWorkspaceId`,
  `IsPort`).
- Matching functions return the match end. They are proved sound and
  complete against the grammar.
- The two ID alternatives are tried in order, UUID first.
- The optional prefix group is greedy.
- `.` does not match a newline.
- None of the patterns is anchored at the end.

`WorkspaceRouter` models what each matcher decides (`IdeMatch`, `PortMatch`).
It also models the matchers themselves as methods that update a `RouteMatch`
object's vars, as the Go closures do. `WorkspaceRouterProperties` proves what
each matcher accepts and what it records.

**The start-prebuild context parser**
(`components/server/ee/src/prebuilds/start-prebuild-context-parser.ts`).
It owns context URLs that start with the prebuild prefix and `/`. It turns the
workspace context behind such a URL into a prebuild context:

- it refuses issue contexts;
- for commit contexts, it looks up the project by the repository's clone URL;
- it titles the result `Prebuild of "<title>"`.

## Model

| member | source | states |
|---|---|---|
| HostGrammar.IsUuidId | components/ws-proxy/pkg/proxy/workspacerouter.go:34 | the first alternative of the ID group: 36 characters, a letter `a`-`f` first, `-` at positions 8, 13, 18 and 23, and hex digits everywhere else |
| HostGrammar.IsTripleId | components/ws-proxy/pkg/proxy/workspacerouter.go:34 | the second alternative: two runs of 2 to 16 characters from `[0-9a-z]` and a run of 8, separated by `-` |
| HostGrammar.IsWorkspaceId | components/ws-proxy/pkg/proxy/workspacerouter.go:34 | a workspace ID is either shape; the matchers are proved sound and complete against this definition |
| HostGrammar.IsPort | components/ws-proxy/pkg/proxy/workspacerouter.go:35 | a port is a non-empty run of decimal digits |
| HostGrammar.UuidEnd | components/ws-proxy/pkg/proxy/workspacerouter.go:34 | when the UUID alternative matches at i, it ends 36 characters later and the text it spans is a UUID |
| HostGrammar.TripleEnd | components/ws-proxy/pkg/proxy/workspacerouter.go:34 | when the three-part alternative matches at i, it spans at least 14 characters within the text (what it spans is stated by `TripleEndSound`) |
| HostGrammar.IdEnd | components/ws-proxy/pkg/proxy/workspacerouter.go:34 | the ID group followed by the required text, with the UUID alternative tried first and the three-part one only when that fails; a match spans at least 14 characters and is followed by the required text |
| HostGrammar.UpTo | components/ws-proxy/pkg/proxy/workspacerouter.go:55-56 | the text before the first occurrence of a character, as `strings.Split(s, c)[0]`; its contract is `UpToFirst` |
| HostGrammar.RunForced | components/ws-proxy/pkg/proxy/workspacerouter.go:34 | a run of one character class that is followed by a character outside the class is the run `[…]{2,16}-` must consume: the repetition cannot stop early |
| HostGrammar.WorkspaceIdNonEmpty | components/ws-proxy/pkg/proxy/workspacerouter.go:34 | every workspace ID is at least 14 characters long, so the `workspaceID == ""` checks after a match can never fire |
| HostGrammar.WorkspaceIdPrefixFree | components/ws-proxy/pkg/proxy/workspacerouter.go:34 | no workspace ID is a proper prefix of another, so an ID is delimited unambiguously by what follows it |
| HostGrammar.TripleEndSound | components/ws-proxy/pkg/proxy/workspacerouter.go:34 | when the `[0-9a-z]{2,16}-[0-9a-z]{2,16}-[0-9a-z]{8}` alternative matches at i, the text matched is a three-part workspace ID |
| HostGrammar.TripleEndComplete | components/ws-proxy/pkg/proxy/workspacerouter.go:34 | every three-part workspace ID at position i is found by the three-part alternative, ending exactly where the ID ends |
| HostGrammar.IdEndSound | components/ws-proxy/pkg/proxy/workspacerouter.go:34 | a match of the ID group (UUID tried first, then three parts) followed by the required text spans a workspace ID and is followed by that text |
| HostGrammar.IdEndComplete | components/ws-proxy/pkg/proxy/workspacerouter.go:34 | any workspace ID at position i followed by the required text is the one the ID group matches |
| HostGrammar.LastOccurrence | components/ws-proxy/pkg/proxy/workspacerouter.go:80 | the greedy `(.*)` settles on the last start position where the pattern occurs, and is None only when it occurs nowhere |
| HostGrammar.ForeignOrigin | components/ws-proxy/pkg/proxy/workspacerouter.go:80 | `^(.*)(?:foreign)<suffix>` captures the longest newline-free text followed by `foreign<suffix>`, and fails exactly when no such occurrence starts on the first line |
| HostGrammar.UpToFirst | components/ws-proxy/pkg/proxy/workspacerouter.go:55-56 | the text before the first occurrence of a character starts the string, does not contain that character, and is followed by it unless it runs to the end |
| WorkspaceRouter.HeaderGet | components/ws-proxy/pkg/proxy/workspacerouter.go:59 | `Header.Get`: the first value recorded for the header name, or "" when there is none |
| WorkspaceRouter.GetHostHeader | components/ws-proxy/pkg/proxy/workspacerouter.go:53-60 | for `Host`: the request host up to its first `:`, which contains no `:` and is followed by `:` or the end; for any other header: that header's first value or "" |
| WorkspaceRouter.LeadingPrefix | components/ws-proxy/pkg/proxy/workspacerouter.go:79 | at most one of `webview-`, `browser-`, `extensions-` begins a host name, and it is the one the greedy optional group captures |
| WorkspaceRouter.IdeHostMatch | components/ws-proxy/pkg/proxy/workspacerouter.go:79 | the optional prefix group (one of `webview-`, `browser-`, `extensions-`), an ID and the suffix at the start of the host name, with the prefix group tried before the pattern without it; what it captures is stated by `IdeHostMatchSound` and `IdeHostMatchComplete` |
| WorkspaceRouter.PortHostMatch | components/ws-proxy/pkg/proxy/workspacerouter.go:133 | the optional prefix group, a run of digits, `-`, an ID and the suffix at the start of the host name, in the same order; see `PortHostMatchSound` and `PortHostMatchComplete` |
| WorkspaceRouter.IdePathMatch | components/ws-proxy/pkg/proxy/workspacerouter.go:81 | `^/<id>(/.*)`; see `IdePathMatchSound` and `IdePathMatchComplete` |
| WorkspaceRouter.PortPathMatch | components/ws-proxy/pkg/proxy/workspacerouter.go:135 | `^/([0-9]+)-<id>(/.*)`; see `PortPathMatchSound` and `PortPathMatchComplete` |
| WorkspaceRouter.IdeMatch | components/ws-proxy/pkg/proxy/workspacerouter.go:82-128 | an empty host name never matches, and an IDE match records no port |
| WorkspaceRouter.PortMatch | components/ws-proxy/pkg/proxy/workspacerouter.go:136-194 | an empty host name never matches, and a port match always records a port |
| WorkspaceRouter.WrittenKeys | components/ws-proxy/pkg/proxy/workspacerouter.go:160-166 | a match writes only the four identifier keys: always the ID and foreign origin, the port only for the port matcher, the foreign path only for foreign content |
| WorkspaceRouter.Assign | components/ws-proxy/pkg/proxy/workspacerouter.go:160-166 | the vars after a match hold the old keys plus the written ones; the captured values are written and every entry the match does not write is kept, such as an earlier port the IDE matcher does not write or an earlier foreign path an ordinary match does not write |
| WorkspaceRouter.MatchWorkspaceHostHeader | components/ws-proxy/pkg/proxy/workspacerouter.go:77-129 | the matcher returns true exactly when `IdeMatch` accepts the request; then the vars are allocated if nil and the captures are written, and otherwise the vars are left as they were |
| WorkspaceRouter.MatchWorkspacePortHostHeader | components/ws-proxy/pkg/proxy/workspacerouter.go:131-195 | the matcher returns true exactly when `PortMatch` accepts the request; then the vars are allocated if nil and the captures are written, and otherwise the vars are left as they were |
| WorkspaceRouter.MatchBlobserveHostHeader | components/ws-proxy/pkg/proxy/workspacerouter.go:197-208 | the blobserve matcher accepts exactly the host names that begin with `blobserve<suffix>`, and writes nothing |
| WorkspaceRouter.GetWorkspaceCoords | components/ws-proxy/pkg/proxy/workspacerouter.go:210-216 | the coordinates are the vars' ID and port entries, and "" for a missing entry or nil vars |
| WorkspaceRouter.HostBasedRouter | components/ws-proxy/pkg/proxy/workspacerouter.go:44-64 | the IDE matcher uses the all-cluster suffix when one is set and the host suffix otherwise; the port and blobserve matchers always use the host suffix |
| WorkspaceRouterProperties.IdeHostMatchSound | components/ws-proxy/pkg/proxy/workspacerouter.go:79 | a match of the IDE host pattern is an optional prefix, a workspace ID and the suffix, at the start of the host name |
| WorkspaceRouterProperties.IdeHostMatchComplete | components/ws-proxy/pkg/proxy/workspacerouter.go:79 | every host name that starts with an optional prefix, an ID and the suffix matches; the captures are exactly that prefix and ID when the prefix is non-empty, or when it is empty and the host begins with none of the optional prefixes |
| WorkspaceRouterProperties.PortHostMatchSound | components/ws-proxy/pkg/proxy/workspacerouter.go:133 | a match of the port host pattern is an optional prefix, a digit run, `-`, a workspace ID and the suffix, at the start of the host name |
| WorkspaceRouterProperties.PortHostMatchComplete | components/ws-proxy/pkg/proxy/workspacerouter.go:133 | every host name of the form prefix, port, `-`, ID, suffix matches with exactly those captures |
| WorkspaceRouterProperties.IdePathMatchSound | components/ws-proxy/pkg/proxy/workspacerouter.go:81 | a match of the IDE foreign-content path pattern is `/`, a workspace ID and a foreign path that starts with `/` and runs to the first newline or the end |
| WorkspaceRouterProperties.IdePathMatchComplete | components/ws-proxy/pkg/proxy/workspacerouter.go:81 | every path that begins `/<id>/` matches, capturing that ID |
| WorkspaceRouterProperties.PortPathMatchSound | components/ws-proxy/pkg/proxy/workspacerouter.go:135 | a match of the port foreign-content path pattern is `/`, a port, `-`, a workspace ID and a foreign path that starts with `/` and runs to the first newline or the end |
| WorkspaceRouterProperties.PortPathMatchComplete | components/ws-proxy/pkg/proxy/workspacerouter.go:135 | every path that begins `/<port>-<id>/` matches, capturing that port and ID |
| WorkspaceRouterProperties.IdeMatchForeign | components/ws-proxy/pkg/proxy/workspacerouter.go:88-108 | when the host name asks for foreign content, the IDE matcher accepts exactly when the path matches, and records the path's ID, the foreign path up to the first newline or the end, and as foreign origin what `ForeignOrigin` captures: the text before the last `foreign<suffix>` on the first line |
| WorkspaceRouterProperties.IdeMatchForeignComplete | components/ws-proxy/pkg/proxy/workspacerouter.go:88-108 | for a foreign-content host name, every path `/<id>/…` is accepted with that ID |
| WorkspaceRouterProperties.IdeMatchOrdinary | components/ws-proxy/pkg/proxy/workspacerouter.go:110-127 | otherwise, an IDE match comes from the host pattern: the ID is the host's, the foreign origin is the prefix group, and no foreign path is written |
| WorkspaceRouterProperties.IdeMatchOrdinaryComplete | components/ws-proxy/pkg/proxy/workspacerouter.go:110-127 | otherwise, every host name of the form prefix, ID, suffix is accepted; exactly that prefix and ID are recorded when the prefix is non-empty, or when it is empty and the host begins with none of the optional prefixes |
| WorkspaceRouterProperties.ForeignPatternTakesPrecedence | components/ws-proxy/pkg/proxy/workspacerouter.go:88-93 | a host name that fits the ordinary IDE pattern but also contains `foreign<suffix>` is judged by its path only, so with the path `/` it is rejected |
| WorkspaceRouterProperties.WorkspaceIdHasNoNewline | components/ws-proxy/pkg/proxy/workspacerouter.go:34 | a workspace ID contains no newline, so a host name that begins with one keeps its `foreign<suffix>` on the first line, where `(.*)` can reach it |
| WorkspaceRouterProperties.PortMatchForeign | components/ws-proxy/pkg/proxy/workspacerouter.go:142-168 | when the host name asks for foreign content, the port matcher accepts exactly when the path matches, and records the path's port and ID, the foreign path up to the first newline or the end, and as foreign origin what `ForeignOrigin` captures: the text before the last `foreign<suffix>` on the first line |
| WorkspaceRouterProperties.PortMatchForeignComplete | components/ws-proxy/pkg/proxy/workspacerouter.go:142-168 | for a foreign-content host name, every path `/<port>-<id>/…` is accepted with that port and ID |
| WorkspaceRouterProperties.PortMatchOrdinary | components/ws-proxy/pkg/proxy/workspacerouter.go:170-193 | otherwise, a port match comes from the host pattern: port and ID are the host's, the foreign origin is the prefix group, and no foreign path is written |
| WorkspaceRouterProperties.PortMatchOrdinaryComplete | components/ws-proxy/pkg/proxy/workspacerouter.go:170-193 | otherwise, every host name of the form prefix, port, `-`, ID, suffix is accepted with exactly those captures |
| WorkspaceRouterProperties.CoordsAfterMatch | components/ws-proxy/pkg/proxy/workspacerouter.go:210-216 | after a match, the coordinates read back are the captured ID, and the captured port (or the port already in the vars, or "") |
| WorkspaceRouterProperties.PortMatchCoords | components/ws-proxy/pkg/proxy/workspacerouter.go:38-40 | after a port match, the coordinates read back are a well-formed workspace ID and port |
| WorkspaceRouterProperties.IdeMatchCoords | components/ws-proxy/pkg/proxy/workspacerouter.go:38-40 | after an IDE match, the coordinates read back carry a well-formed workspace ID and the port the vars already held |
| StartPrebuildContextParser.Prefix | components/server/ee/src/prebuilds/start-prebuild-context-parser.ts:15 | the parser's prefix is the prebuild prefix followed by `/` |
| StartPrebuildContextParser.FindPrefix | components/server/ee/src/prebuilds/start-prebuild-context-parser.ts:17-21 | the prefix is returned exactly when the context URL starts with it, and nothing is returned otherwise |
| StartPrebuildContextParser.Handle | components/server/ee/src/prebuilds/start-prebuild-context-parser.ts:23-42 | issue contexts, and only those, fail with "cannot start prebuilds on an issue context"; otherwise the result keeps the context, sets no branch, is titled `Prebuild of "<title>"`, and names the looked-up project for a commit context and none otherwise |
| StartPrebuildContextParser.TitleRoundTrip | components/server/ee/src/prebuilds/start-prebuild-context-parser.ts:36 | the original title can be read back out of the prebuild title |
| StartPrebuildContextParser.ProjectMatchesCloneUrl | components/server/ee/src/prebuilds/start-prebuild-context-parser.ts:28-33 | with a store that returns only projects with the clone URL asked for, a prebuild names a project only for a commit context, and that project has the context's clone URL |
| StartPrebuildContextParser.FindPrefixIgnoresUser | components/server/ee/src/prebuilds/start-prebuild-context-parser.ts:17-21 | the user plays no part in recognising the prefix |
| StartPrebuildContextParser.DashboardContextUrlRecognised | components/dashboard/src/projects/ConfigureProject.tsx:92 | the dashboard's context URL `prebuild/<clone URL>` is recognised, and what follows the prefix is the clone URL |

## Left out

- The host suffix is spliced into the regular expressions unescaped. The model treats it as literal text, so a suffix that contains regular-expression metacharacters is not modelled. An invalid one, which makes `regexp.MustCompile` panic, is not modelled either.
- `Header.Get` canonicalises the header name. The model looks the name up exactly as given and expects canonical keys in `Request.header`.
- Go strings are matched rune by rune. The model works on `char`s and does not model invalid UTF-8.
- The `len(matches) < 3` and `len(matches) < 4` checks reject every request whose pattern does not match, since `FindStringSubmatch` then returns nil; the model keeps them as the `None` branches of the matchers. Only the `len(matches) == 3` and `== 4` tests after a match are decided in advance: the capture groups always exist, so they always hold. The `workspaceID == ""` and `workspacePort == ""` checks can never fire: `IdeMatchCoords`, `PortMatchCoords` and `WorkspaceIdNonEmpty` show that the captured ID and port are never empty. The matcher methods therefore do not repeat these checks.
- `IdeMatch`, and through it `WorkspaceRouter.MatchWorkspaceHostHeader`, records the optional prefix group as the foreign origin on an ordinary match. This follows the code: the group always exists, so `len(matches) == 3` always holds.
- The not-found handler only logs and answers 404. It is left out, as is the wiring of the matchers into gorilla/mux subrouters. `HostBasedRouter` is modelled as the suffixes each matcher is built with. Its `WorkspaceInfoProvider` argument is unused by the code.
- WorkspaceRouterProperties.IdeHostMatchComplete: when the host begins with an ID that itself starts with `webview-`, `browser-` or `extensions-`, it states only that the host name matches, not which ID is captured: the greedy prefix group may take those characters.
- WorkspaceRouterProperties.IdeMatchOrdinaryComplete: weaker in the same case, for the same reason.
- The value of `ContextURL.PREBUILD_PREFIX` is defined in gitpod-protocol, which is not part of this model. It is a parameter; the dashboard's context URL shows that it is `prebuild`.
- `ProjectDB.findProjectByCloneUrl` is a function parameter. Its asynchrony, and any error it raises, are not modelled.
- `IssueContext.is` and `CommitContext.is` are structural type guards. The model uses datatype variants instead: a context that passes the issue guard is an `IssueContext`, even though it also has a repository and a revision.
- The thrown error is modelled as a `Failure` result carrying the message.
- `components/supervisor-api/go/control_grpc.pb.go` and `components/dashboard/src/projects/Prebuilds.tsx` are not part of this model.
