/**
  The server's start-prebuild context parser: it recognises context URLs that
  ask for a prebuild, and turns the workspace context they name into a
  prebuild context, looking the project up by its clone URL.
 */
module StartPrebuildContextParser {
  import opened Wrappers

  datatype User = User(id: string)

  datatype Repository = Repository(cloneUrl: string)

  datatype Project = Project(id: string, name: string, cloneUrl: string)

  /**
    The workspace contexts the parser can be handed. An issue context also
    names a repository and a revision, so it is shaped like a commit context
    too; only the order of the parser's checks keeps it apart.
   */
  datatype WorkspaceContext =
    | IssueContext(title: string, repository: Repository, revision: string, nr: nat)
    | CommitContext(title: string, repository: Repository, revision: string)
    | OtherContext(title: string)

  datatype StartPrebuildContext = StartPrebuildContext(
    title: string,
    actual: WorkspaceContext,
    project: Option<Project>,
    branch: Option<string>)

  const IssueContextError := "cannot start prebuilds on an issue context"

  /** The prefix the parser owns: the context-URL prebuild prefix followed by `/`. */
  function Prefix(prebuildPrefix: string): (p: string)
    ensures |p| == |prebuildPrefix| + 1
    ensures prebuildPrefix <= p && p[|prebuildPrefix|] == '/'
  {
    prebuildPrefix + "/"
  }

  /** The prefix, when the context URL starts with it; the user plays no part. */
  function FindPrefix(prebuildPrefix: string, user: User, context: string): (r: Option<string>)
    ensures r.Some? <==> Prefix(prebuildPrefix) <= context
    ensures r.Some? ==> r.value == Prefix(prebuildPrefix)
  {
    if Prefix(prebuildPrefix) <= context then Some(Prefix(prebuildPrefix)) else None
  }

  /** The title of the prebuild context made from a context titled `title`. */
  function PrebuildTitle(title: string): string {
    "Prebuild of \"" + title + "\""
  }

  /**
    Issue contexts are refused before anything else is looked at. A commit
    context gets the project whose clone URL is its repository's, if there is
    one; any other context gets none. The branch is never set, and the
    original context is kept as it is.
   */
  function Handle(
    findProjectByCloneUrl: string -> Option<Project>,
    user: User,
    prefix: string,
    context: WorkspaceContext
  ): (r: Result<StartPrebuildContext>)
    ensures r.Failure? <==> context.IssueContext?
    ensures r.Failure? ==> r.error == IssueContextError
    ensures r.Success? ==> r.value.actual == context && r.value.branch.None?
    ensures r.Success? ==> r.value.title == PrebuildTitle(context.title)
    ensures r.Success? && context.CommitContext? ==>
      r.value.project == findProjectByCloneUrl(context.repository.cloneUrl)
    ensures r.Success? && context.OtherContext? ==> r.value.project.None?
  {
    if context.IssueContext? then
      Failure(IssueContextError)
    else
      var project := if context.CommitContext? then findProjectByCloneUrl(context.repository.cloneUrl) else None;
      var branch: Option<string> := None;
      Success(StartPrebuildContext(PrebuildTitle(context.title), context, project, branch))
  }

  /** Reads the original title back out of a prebuild title. */
  function OriginalTitle(title: string): Option<string> {
    if |title| >= 14 && title[..13] == "Prebuild of \"" && title[|title| - 1] == '"' then
      Some(title[13..|title| - 1])
    else
      None
  }

  /** The prebuild title keeps the original title whole: it can be read back. */
  lemma TitleRoundTrip(
    findProjectByCloneUrl: string -> Option<Project>, user: User, prefix: string, context: WorkspaceContext)
    requires !context.IssueContext?
    ensures OriginalTitle(Handle(findProjectByCloneUrl, user, prefix, context).value.title) == Some(context.title)
  {
    var t := PrebuildTitle(context.title);
    assert t[..13] == "Prebuild of \"";
    assert t[13..|t| - 1] == context.title;
  }

  /**
    With a store that only returns projects with the clone URL asked for, a
    prebuild context names a project only for a commit context, and then the
    project's clone URL is the context's.
   */
  lemma ProjectMatchesCloneUrl(
    findProjectByCloneUrl: string -> Option<Project>, user: User, prefix: string, context: WorkspaceContext)
    requires forall url :: findProjectByCloneUrl(url).Some? ==> findProjectByCloneUrl(url).value.cloneUrl == url
    requires Handle(findProjectByCloneUrl, user, prefix, context).Success?
    ensures var project := Handle(findProjectByCloneUrl, user, prefix, context).value.project;
      project.Some? ==> context.CommitContext? && project.value.cloneUrl == context.repository.cloneUrl
  {
  }

  /** Which user asks never changes what `FindPrefix` answers. */
  lemma FindPrefixIgnoresUser(prebuildPrefix: string, u1: User, u2: User, context: string)
    ensures FindPrefix(prebuildPrefix, u1, context) == FindPrefix(prebuildPrefix, u2, context)
  {
  }

  /**
    The dashboard starts a prebuild with the context URL `prebuild/<clone URL>`:
    the parser recognises it and what follows its prefix is the clone URL.
   */
  lemma DashboardContextUrlRecognised(user: User, cloneUrl: string)
    ensures FindPrefix("prebuild", user, "prebuild/" + cloneUrl) == Some("prebuild/")
    ensures ("prebuild/" + cloneUrl)[|Prefix("prebuild")|..] == cloneUrl
  {
    var url := "prebuild/" + cloneUrl;
    assert Prefix("prebuild") == "prebuild/" == url[..9];
  }
}
