/** internal/bot: which webhook events lead to check runs, how a pull request's diff is
    scanned for flagged terms, and the check run posted for it. The GitHub client of the
    event's installation, the diff parser, the YAML decoder and the gitignore matcher are
    parameters; each check run posted is an element of the sequence `HandleEvent` returns. */
module Bot {
  import opened Wrappers
  import opened GoStrings
  import opened Fmt
  import opened Lib
  import opened TermRegex
  import opened GitHub
  import opened Diff
  import opened Config

  const CheckSuccessConclusion: string := "success"
  const CheckFailureConclusion: string := "neutral"
  const CheckRunAnnotationLevel: string := "warning"
  const CheckRunStatus: string := "completed"
  /** What `fmt` prints first on a verb without argument or an argument without verb. */
  const FormatErrorMarker: string := "%!"
  const TermSeparator: string := ", "

  const CheckSuiteRelevantActions: StringSet := map["requested" := (), "rerequested" := ()]
  const CheckRunRelevantActions: StringSet := map["rerequested" := ()]
  const PullRequestRelevantActions: StringSet := map["opened" := (), "reopened" := ()]

  /** A compiled set of gitignore patterns: `MatchesPath`. */
  datatype IgnoreMatcher = IgnoreMatcher(matchesPath: string -> bool)

  /** `diffparser.Parse`, `ignore.CompileIgnoreLines` and `yaml.Unmarshal`. */
  datatype Libraries = Libraries(
    parseDiff: string -> Result<Diff, string>,
    compileIgnore: seq<string> -> Result<IgnoreMatcher, string>,
    yaml: Yaml)

  /** The bot configurations this model covers: the term list is a non-empty list of literal
      words (so `regexp.Compile` of their alternation succeeds and matches them literally) and
      the annotation body uses only the `%s` and `%%` verbs. */
  predicate Modelled(bot: BotConfig) {
    LiteralTerms(bot.termList) && SimpleFormat(bot.annotationBody)
  }

  /** The pull requests `HandleEvent` creates a check run for, in order: check-suite and
      check-run events must come from this app and carry an accepted action; a pull-request
      event needs only an accepted action; every other event is discarded. */
  function Dispatch(appID: int, event: Event): (prs: seq<PullRequest>)
    ensures event.OtherEvent? ==> prs == []
    ensures (event.CheckSuiteEvent? || event.CheckRunEvent?) ==>
              (prs == [] || prs == event.pullRequests) && (event.appID != appID ==> prs == [])
    ensures event.PullRequestEvent? ==> prs == [] || prs == [event.pullRequest]
  {
    match event
    case CheckSuiteEvent(action, id, _, _, prs) =>
      if id != appID then [] else if !Contains(CheckSuiteRelevantActions, action) then [] else prs
    case CheckRunEvent(action, id, _, _, prs) =>
      if id != appID then [] else if !Contains(CheckRunRelevantActions, action) then [] else prs
    case PullRequestEvent(action, _, _, pr) =>
      if !Contains(PullRequestRelevantActions, action) then [] else [pr]
    case OtherEvent(_) => []
  }

  /** `ignoredByRepo`: the repository's gitignore patterns exclude `filename`. Fails open:
      without an `ignore` list, or when it does not compile, nothing is ignored. */
  function IgnoredByRepo(libs: Libraries, api: Api, repo: Repository, headSHA: string, filename: string): (b: bool)
    ensures GetRepoConfig(api, libs.yaml, repo, headSHA).ignore.None? ==> !b
    ensures var ic := GetRepoConfig(api, libs.yaml, repo, headSHA);
            ic.ignore.Some? ==>
              (libs.compileIgnore(ic.ignore.value).Failure? ==> !b)
              && (libs.compileIgnore(ic.ignore.value).Success? ==>
                    (b <==> libs.compileIgnore(ic.ignore.value).value.matchesPath(filename)))
  {
    var ic := GetRepoConfig(api, libs.yaml, repo, headSHA);
    match ic.ignore
    case None => false
    case Some(patterns) =>
      match libs.compileIgnore(patterns)
      case Failure(_) => false
      case Success(matcher) => matcher.matchesPath(filename)
  }

  /** The distinct terms the matcher finds in a line, in the order they are first found. */
  function Matches(bot: BotConfig, content: string): (m: seq<string>)
    requires LiteralTerms(bot.termList)
    ensures NoDuplicates(m)
    ensures forall t :: t in m <==> t in FindAll(bot.termList, content)
    ensures forall i, j :: 0 <= i < j < |m| ==>
              IndexOf(FindAll(bot.termList, content), m[i]) < IndexOf(FindAll(bot.termList, content), m[j])
    ensures forall t :: t in m ==> t in bot.termList && OccursIn(t, content)
    ensures m != [] <==> ContainsTerm(bot.termList, content)
  {
    FindAllNonEmpty(bot.termList, content);
    DedupFirstOccurrenceOrder(FindAll(bot.termList, content));
    Dedup(FindAll(bot.termList, content))
  }

  /** The text of an annotation: the body with the matched terms substituted, cut before the
      first formatting error. */
  function Message(bot: BotConfig, m: seq<string>): (msg: string)
    requires SimpleFormat(bot.annotationBody)
    ensures HasPrefix(Sprintf(bot.annotationBody, Join(m, TermSeparator)), msg)
    ensures !OccursIn(FormatErrorMarker, msg)
    ensures !OccursIn(FormatErrorMarker, Sprintf(bot.annotationBody, Join(m, TermSeparator))) ==>
              msg == Sprintf(bot.annotationBody, Join(m, TermSeparator))
    ensures msg == Sprintf(bot.annotationBody, Join(m, TermSeparator))
            || OccursAt(Sprintf(bot.annotationBody, Join(m, TermSeparator)), FormatErrorMarker, |msg|)
  {
    CutBefore(Sprintf(bot.annotationBody, Join(m, TermSeparator)), FormatErrorMarker)
  }

  /** `createAnnotation`: a one-line warning at line `l` of file `f` listing the terms `m`. */
  function CreateAnnotation(bot: BotConfig, f: DiffFile, l: DiffLine, m: seq<string>): (a: Annotation)
    requires SimpleFormat(bot.annotationBody)
    ensures a.path == f.newName && a.startLine == l.number && a.endLine == a.startLine
    ensures a.annotationLevel == "warning" && a.title == bot.annotationTitle
    ensures a.message == Message(bot, m) && !OccursIn("%!", a.message)
  {
    Annotation(f.newName, l.number, l.number, CheckRunAnnotationLevel, Message(bot, m), bot.annotationTitle)
  }

  /** The annotation a line produces: one when some term is found in it, none otherwise. */
  function LineAnnotation(bot: BotConfig, f: DiffFile, l: DiffLine): seq<Annotation>
    requires Modelled(bot)
  {
    var m := Matches(bot, l.content);
    if |m| > 0 then [CreateAnnotation(bot, f, l, m)] else []
  }

  /** The annotations of the lines `ls`, in order. */
  function LinesAnnotations(bot: BotConfig, f: DiffFile, ls: seq<DiffLine>): seq<Annotation>
    requires Modelled(bot)
    decreases |ls|
  {
    if ls == [] then []
    else LinesAnnotations(bot, f, ls[..|ls| - 1]) + LineAnnotation(bot, f, ls[|ls| - 1])
  }

  /** The annotations of the hunks `hs`, in order: every line of each new range is scanned. */
  function HunksAnnotations(bot: BotConfig, f: DiffFile, hs: seq<DiffHunk>): seq<Annotation>
    requires Modelled(bot)
    decreases |hs|
  {
    if hs == [] then []
    else HunksAnnotations(bot, f, hs[..|hs| - 1]) + LinesAnnotations(bot, f, hs[|hs| - 1].newRange.lines)
  }

  /** The annotations of one file: none when the repository ignores it. */
  function FileAnnotations(bot: BotConfig, libs: Libraries, api: Api, repo: Repository, headSHA: string,
                           f: DiffFile): seq<Annotation>
    requires Modelled(bot)
  {
    if IgnoredByRepo(libs, api, repo, headSHA, f.newName) then [] else HunksAnnotations(bot, f, f.hunks)
  }

  /** The annotations of the files `files`, in order. */
  function FilesAnnotations(bot: BotConfig, libs: Libraries, api: Api, repo: Repository, headSHA: string,
                            files: seq<DiffFile>): seq<Annotation>
    requires Modelled(bot)
    decreases |files|
  {
    if files == [] then []
    else FilesAnnotations(bot, libs, api, repo, headSHA, files[..|files| - 1])
         + FileAnnotations(bot, libs, api, repo, headSHA, files[|files| - 1])
  }

  datatype AnnotationError =
    | DiffFetchFailed(headSHA: string, transportError: Option<string>)
    | DiffParseFailed(headSHA: string, parseError: string)

  function DiffRequest(repo: Repository, pr: PullRequest): RawDiffRequest {
    RawDiffRequest(repo.ownerLogin, repo.name, pr.number)
  }

  /** The specification of `createAnnotations`. */
  function AnnotationsFor(bot: BotConfig, libs: Libraries, api: Api, repo: Repository, pr: PullRequest)
    : (r: (seq<Annotation>, Option<AnnotationError>))
    requires Modelled(bot)
  {
    var reply := api.getRawDiff(DiffRequest(repo, pr));
    if reply.err.Some? || reply.status != 200 then ([], Some(DiffFetchFailed(pr.head.sha, reply.err)))
    else
      match libs.parseDiff(reply.body)
      case Failure(e) => ([], Some(DiffParseFailed(pr.head.sha, e)))
      case Success(diff) => (FilesAnnotations(bot, libs, api, repo, pr.head.sha, diff.files), None)
  }

  /** `createAnnotations`: fetch and parse the diff, then scan every line of every hunk's new
      range of every file the repository does not ignore. */
  method CreateAnnotations(bot: BotConfig, libs: Libraries, api: Api, repo: Repository, pr: PullRequest)
    returns (annotations: seq<Annotation>, err: Option<AnnotationError>)
    requires Modelled(bot)
    ensures (annotations, err) == AnnotationsFor(bot, libs, api, repo, pr)
  {
    var headSHA := pr.head.sha;
    var reply := api.getRawDiff(RawDiffRequest(repo.ownerLogin, repo.name, pr.number));
    if reply.err.Some? || reply.status != 200 {
      return [], Some(DiffFetchFailed(headSHA, reply.err));
    }
    var parsedDiff := libs.parseDiff(reply.body);
    if parsedDiff.Failure? {
      return [], Some(DiffParseFailed(headSHA, parsedDiff.error));
    }
    var files := parsedDiff.value.files;
    annotations := [];
    for i := 0 to |files|
      invariant annotations == FilesAnnotations(bot, libs, api, repo, headSHA, files[..i])
    {
      var f := files[i];
      assert files[..i + 1][..i] == files[..i];
      // Skip over any files listed in `ignore`
      if IgnoredByRepo(libs, api, repo, headSHA, f.newName) {
        continue;
      }
      var found := ScanHunks(bot, f);
      annotations := annotations + found;
    }
    assert files[..|files|] == files;
    err := None;
  }

  /** The loop of `createAnnotations` over the hunks of one file. */
  method ScanHunks(bot: BotConfig, f: DiffFile) returns (annotations: seq<Annotation>)
    requires Modelled(bot)
    ensures annotations == HunksAnnotations(bot, f, f.hunks)
  {
    annotations := [];
    for j := 0 to |f.hunks|
      invariant annotations == HunksAnnotations(bot, f, f.hunks[..j])
    {
      assert f.hunks[..j + 1][..j] == f.hunks[..j];
      var adds := f.hunks[j].newRange;
      var found := ScanLines(bot, f, adds.lines);
      annotations := annotations + found;
    }
    assert f.hunks[..|f.hunks|] == f.hunks;
  }

  /** The loop of `createAnnotations` over the lines of one new range. */
  method ScanLines(bot: BotConfig, f: DiffFile, lines: seq<DiffLine>) returns (annotations: seq<Annotation>)
    requires Modelled(bot)
    ensures annotations == LinesAnnotations(bot, f, lines)
  {
    annotations := [];
    for k := 0 to |lines|
      invariant annotations == LinesAnnotations(bot, f, lines[..k])
    {
      var l := lines[k];
      assert lines[..k + 1][..k] == lines[..k];
      var matches := Unique(FindAll(bot.termList, l.content));
      if |matches| > 0 {
        annotations := annotations + [CreateAnnotation(bot, f, l, matches)];
      }
    }
    assert lines[..|lines|] == lines;
  }

  /** The check run posted for a pull request whose scan produced `annotations`. */
  function CheckRunOptionsFor(bot: BotConfig, pr: PullRequest, annotations: seq<Annotation>): (cro: CheckRunOptions)
    ensures cro.name == bot.checkName && cro.headBranch == pr.head.ref && cro.headSHA == pr.head.sha
    ensures cro.status == "completed"
    ensures cro.conclusion == "neutral" <==> |annotations| > 0
    ensures cro.conclusion == "success" <==> |annotations| == 0
    ensures cro.output.summary == if |annotations| > 0 then bot.checkFailureSummary else bot.checkSuccessSummary
    ensures cro.output.title == bot.checkName && cro.output.text == bot.checkDetails
    ensures cro.output.annotations == annotations && cro.output.annotationsCount == |annotations|
  {
    var found := |annotations| > 0;
    CheckRunOptions(
      bot.checkName, pr.head.ref, pr.head.sha, CheckRunStatus,
      if found then CheckFailureConclusion else CheckSuccessConclusion,
      CheckRunOutput(bot.checkName, bot.checkDetails,
                     if found then bot.checkFailureSummary else bot.checkSuccessSummary,
                     |annotations|, annotations))
  }

  /** The specification of `createCheckRun`: nothing is posted when the annotations could not
      be computed. */
  function CheckRunFor(bot: BotConfig, libs: Libraries, api: Api, repo: Repository, pr: PullRequest)
    : Option<CheckRunPost>
    requires Modelled(bot)
  {
    var (annotations, err) := AnnotationsFor(bot, libs, api, repo, pr);
    if err.Some? then None
    else Some(CheckRunPost(repo.ownerLogin, repo.name, CheckRunOptionsFor(bot, pr, annotations)))
  }

  /** `createCheckRun`: build the options, then set conclusion and summary. */
  method CreateCheckRun(bot: BotConfig, libs: Libraries, api: Api, repo: Repository, pr: PullRequest)
    returns (post: Option<CheckRunPost>)
    requires Modelled(bot)
    ensures post == CheckRunFor(bot, libs, api, repo, pr)
    ensures post.None? <==> AnnotationsFor(bot, libs, api, repo, pr).1.Some?
  {
    var headSHA := pr.head.sha;
    var annotations, err := CreateAnnotations(bot, libs, api, repo, pr);
    if err.Some? {
      return None;
    }
    var cro := CheckRunOptions(bot.checkName, pr.head.ref, headSHA, CheckRunStatus, "",
                               CheckRunOutput(bot.checkName, bot.checkDetails, "", |annotations|, annotations));
    // presence of annotations signals there is usage of flagged terms
    if |annotations| > 0 {
      cro := cro.(conclusion := CheckFailureConclusion, output := cro.output.(summary := bot.checkFailureSummary));
    } else {
      cro := cro.(conclusion := CheckSuccessConclusion, output := cro.output.(summary := bot.checkSuccessSummary));
    }
    post := Some(CheckRunPost(repo.ownerLogin, repo.name, cro));
  }

  function Posted(post: Option<CheckRunPost>): seq<CheckRunPost> {
    if post.Some? then [post.value] else []
  }

  /** The check runs posted for the pull requests `prs`, processed one after the other. */
  function PostsFor(bot: BotConfig, libs: Libraries, api: Api, repo: Repository, prs: seq<PullRequest>)
    : seq<CheckRunPost>
    requires Modelled(bot)
    decreases |prs|
  {
    if prs == [] then []
    else PostsFor(bot, libs, api, repo, prs[..|prs| - 1]) + Posted(CheckRunFor(bot, libs, api, repo, prs[|prs| - 1]))
  }

  /** The specification of `HandleEvent`: the check runs posted for the dispatched pull
      requests, with the client of the event's installation. */
  function EventPosts(bot: BotConfig, libs: Libraries, clients: int -> Api, event: Event): seq<CheckRunPost>
    requires Modelled(bot)
  {
    match event
    case CheckSuiteEvent(_, _, repo, installationID, _) =>
      PostsFor(bot, libs, clients(installationID), repo, Dispatch(bot.appID, event))
    case CheckRunEvent(_, _, repo, installationID, _) =>
      PostsFor(bot, libs, clients(installationID), repo, Dispatch(bot.appID, event))
    case PullRequestEvent(_, repo, installationID, _) =>
      PostsFor(bot, libs, clients(installationID), repo, Dispatch(bot.appID, event))
    case OtherEvent(_) => []
  }

  /** The loop over a check suite's or check run's pull requests. */
  method CreateCheckRuns(bot: BotConfig, libs: Libraries, api: Api, repo: Repository, prs: seq<PullRequest>)
    returns (posts: seq<CheckRunPost>)
    requires Modelled(bot)
    ensures posts == PostsFor(bot, libs, api, repo, prs)
  {
    posts := [];
    for i := 0 to |prs|
      invariant posts == PostsFor(bot, libs, api, repo, prs[..i])
    {
      assert prs[..i + 1][..i] == prs[..i];
      var post := CreateCheckRun(bot, libs, api, repo, prs[i]);
      posts := posts + Posted(post);
    }
    assert prs[..|prs|] == prs;
  }

  /** `HandleEvent`. `clients` is `CreateClient`: the API client of an installation. */
  method HandleEvent(bot: BotConfig, libs: Libraries, clients: int -> Api, event: Event)
    returns (posts: seq<CheckRunPost>)
    requires Modelled(bot)
    ensures posts == EventPosts(bot, libs, clients, event)
  {
    posts := [];
    match event {
      case CheckSuiteEvent(action, appID, repo, installationID, pullRequests) =>
        if appID != bot.appID {
          return;
        }
        if !Contains(CheckSuiteRelevantActions, action) {
          return;
        }
        var gClient := clients(installationID);
        posts := CreateCheckRuns(bot, libs, gClient, repo, pullRequests);
      case CheckRunEvent(action, appID, repo, installationID, pullRequests) =>
        if appID != bot.appID {
          return;
        }
        if !Contains(CheckRunRelevantActions, action) {
          return;
        }
        var gClient := clients(installationID);
        posts := CreateCheckRuns(bot, libs, gClient, repo, pullRequests);
      case PullRequestEvent(action, repo, installationID, pullRequest) =>
        if !Contains(PullRequestRelevantActions, action) {
          return;
        }
        var gClient := clients(installationID);
        var post := CreateCheckRun(bot, libs, gClient, repo, pullRequest);
        assert Dispatch(bot.appID, event) == [pullRequest];
        assert [pullRequest][..0] == [];
        assert PostsFor(bot, libs, gClient, repo, [pullRequest]) == Posted(post);
        posts := Posted(post);
      case OtherEvent(_) =>
    }
  }
}
