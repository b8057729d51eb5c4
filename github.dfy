/** The parts of the GitHub API the core sees: the webhook events it handles, the pull
    request diff and repository contents requests, and the check-run payload it posts.
    Responses are values; the remote calls are the fields of `Api`. */
module GitHub {
  import opened Wrappers

  datatype Repository = Repository(ownerLogin: string, name: string)

  datatype Branch = Branch(ref: string, sha: string)

  datatype PullRequest = PullRequest(number: int, head: Branch)

  /** The decoded webhook payload. Check-suite and check-run events carry the id of the app
      that owns the suite or run and the pull requests it covers; a pull-request event carries
      one pull request and no app id. Every other payload type is `OtherEvent`. */
  datatype Event =
    | CheckSuiteEvent(action: string, appID: int, repo: Repository, installationID: int,
                      pullRequests: seq<PullRequest>)
    | CheckRunEvent(action: string, appID: int, repo: Repository, installationID: int,
                    pullRequests: seq<PullRequest>)
    | PullRequestEvent(action: string, repo: Repository, installationID: int, pullRequest: PullRequest)
    | OtherEvent(typeName: string)

  /** `PullRequests.GetRaw(owner, repo, number, Diff)`. */
  datatype RawDiffRequest = RawDiffRequest(owner: string, repo: string, number: int)

  /** The returned error (if any), the HTTP status and the body. */
  datatype RawReply = RawReply(err: Option<string>, status: int, body: string)

  /** `Repositories.GetContents(owner, repo, path, {Ref: ref})`. */
  datatype ContentsRequest = ContentsRequest(owner: string, repo: string, path: string, ref: string)

  /** The returned error (if any), the HTTP status, and what `GetContent()` of the returned
      file yields (its decoded text or its error). */
  datatype ContentsReply = ContentsReply(err: Option<string>, status: int, content: Result<string, string>)

  /** A client authenticated for one installation. */
  datatype Api = Api(getRawDiff: RawDiffRequest -> RawReply, getContents: ContentsRequest -> ContentsReply)

  datatype Annotation = Annotation(path: string, startLine: int, endLine: int, annotationLevel: string,
                                   message: string, title: string)

  datatype CheckRunOutput = CheckRunOutput(title: string, text: string, summary: string,
                                           annotationsCount: int, annotations: seq<Annotation>)

  /** `CreateCheckRunOptions` without `CompletedAt`. */
  datatype CheckRunOptions = CheckRunOptions(name: string, headBranch: string, headSHA: string, status: string,
                                             conclusion: string, output: CheckRunOutput)

  /** `Checks.CreateCheckRun(owner, repo, options)`: one check run posted. */
  datatype CheckRunPost = CheckRunPost(owner: string, repo: string, options: CheckRunOptions)
}
