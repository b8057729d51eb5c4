/** What the bot promises, stated over the specification functions of module Bot: event
    filtering, the independence of the pull requests of one event, the shape and order of the
    annotations, fail-open ignore handling, and four concrete cases of flagged, ignored and
    removed lines and of annotation bodies. */
module BotProperties {
  import opened Wrappers
  import opened GoStrings
  import opened Fmt
  import opened Lib
  import opened TermRegex
  import opened GitHub
  import opened Diff
  import opened Config
  import opened Bot

  // ---------------------------------------------------------------- event filtering

  /** The three allow-lists, element by element. */
  lemma AllowLists(action: string)
    ensures Contains(CheckSuiteRelevantActions, action) <==> action == "requested" || action == "rerequested"
    ensures Contains(CheckRunRelevantActions, action) <==> action == "rerequested"
    ensures Contains(PullRequestRelevantActions, action) <==> action == "opened" || action == "reopened"
  {
  }

  /** A check-suite or check-run event of another app creates no check run. */
  lemma ForeignAppIgnored(bot: BotConfig, libs: Libraries, clients: int -> Api, event: Event)
    requires Modelled(bot)
    requires (event.CheckSuiteEvent? || event.CheckRunEvent?) && event.appID != bot.appID
    ensures Dispatch(bot.appID, event) == []
    ensures EventPosts(bot, libs, clients, event) == []
  {
  }

  /** An event whose action is not on its kind's allow-list creates no check run, and neither
      does an unrecognised event. */
  lemma UnlistedActionIgnored(bot: BotConfig, libs: Libraries, clients: int -> Api, event: Event)
    requires Modelled(bot)
    requires event.OtherEvent?
             || (event.CheckSuiteEvent? && event.action != "requested" && event.action != "rerequested")
             || (event.CheckRunEvent? && event.action != "rerequested")
             || (event.PullRequestEvent? && event.action != "opened" && event.action != "reopened")
    ensures Dispatch(bot.appID, event) == []
    ensures EventPosts(bot, libs, clients, event) == []
  {
    if !event.OtherEvent? {
      AllowLists(event.action);
    }
  }

  /** An accepted check-suite or check-run event processes each of its pull requests once, in
      order; an accepted pull-request event processes its one pull request whatever app id the
      bot has. */
  lemma AcceptedEventDispatch(appID: int, event: Event)
    ensures event.CheckSuiteEvent? && event.appID == appID && event.action in {"requested", "rerequested"}
            ==> Dispatch(appID, event) == event.pullRequests
    ensures event.CheckRunEvent? && event.appID == appID && event.action == "rerequested"
            ==> Dispatch(appID, event) == event.pullRequests
    ensures event.PullRequestEvent? && event.action in {"opened", "reopened"}
            ==> forall other :: Dispatch(other, event) == [event.pullRequest]
  {
  }

  // ---------------------------------------------------------------- pull requests of one event

  /** One unfolding of `PostsFor` at the end of the list. */
  lemma PostsForSnoc(bot: BotConfig, libs: Libraries, api: Api, repo: Repository, prs: seq<PullRequest>, pr: PullRequest)
    requires Modelled(bot)
    ensures PostsFor(bot, libs, api, repo, prs + [pr])
            == PostsFor(bot, libs, api, repo, prs) + Posted(CheckRunFor(bot, libs, api, repo, pr))
  {
    assert (prs + [pr])[..|prs|] == prs;
  }

  lemma {:induction false} PostsForAppend(bot: BotConfig, libs: Libraries, api: Api, repo: Repository,
                                          a: seq<PullRequest>, b: seq<PullRequest>)
    requires Modelled(bot)
    ensures PostsFor(bot, libs, api, repo, a + b) == PostsFor(bot, libs, api, repo, a) + PostsFor(bot, libs, api, repo, b)
    decreases |b|
  {
    if b == [] {
      assert a + b == a;
    } else {
      var init, last := b[..|b| - 1], b[|b| - 1];
      var lastPost := Posted(CheckRunFor(bot, libs, api, repo, last));
      calc {
        PostsFor(bot, libs, api, repo, a + b);
        { assert a + b == (a + init) + [last]; }
        PostsFor(bot, libs, api, repo, (a + init) + [last]);
        { PostsForSnoc(bot, libs, api, repo, a + init, last); }
        PostsFor(bot, libs, api, repo, a + init) + lastPost;
        { PostsForAppend(bot, libs, api, repo, a, init); }
        PostsFor(bot, libs, api, repo, a) + PostsFor(bot, libs, api, repo, init) + lastPost;
        { PostsForSnoc(bot, libs, api, repo, init, last); assert b == init + [last]; }
        PostsFor(bot, libs, api, repo, a) + PostsFor(bot, libs, api, repo, b);
      }
    }
  }

  /** A pull request whose diff cannot be fetched or parsed gets no check run, and the others
      of the same event are processed as if it were not there. */
  lemma FailedPullRequestIsolated(bot: BotConfig, libs: Libraries, api: Api, repo: Repository,
                                  before: seq<PullRequest>, pr: PullRequest, after: seq<PullRequest>)
    requires Modelled(bot)
    requires AnnotationsFor(bot, libs, api, repo, pr).1.Some?
    ensures PostsFor(bot, libs, api, repo, before + [pr] + after)
            == PostsFor(bot, libs, api, repo, before) + PostsFor(bot, libs, api, repo, after)
  {
    calc {
      PostsFor(bot, libs, api, repo, before + [pr] + after);
      { PostsForAppend(bot, libs, api, repo, before + [pr], after); }
      PostsFor(bot, libs, api, repo, before + [pr]) + PostsFor(bot, libs, api, repo, after);
      { PostsForSnoc(bot, libs, api, repo, before, pr); assert CheckRunFor(bot, libs, api, repo, pr).None?; }
      PostsFor(bot, libs, api, repo, before) + [] + PostsFor(bot, libs, api, repo, after);
      PostsFor(bot, libs, api, repo, before) + PostsFor(bot, libs, api, repo, after);
    }
  }

  /** When every pull request can be scanned, the k-th check run posted is the one of the k-th
      pull request. */
  lemma {:induction false} PostsForAllScanned(bot: BotConfig, libs: Libraries, api: Api, repo: Repository,
                                              prs: seq<PullRequest>)
    requires Modelled(bot)
    requires forall k :: 0 <= k < |prs| ==> AnnotationsFor(bot, libs, api, repo, prs[k]).1.None?
    ensures |PostsFor(bot, libs, api, repo, prs)| == |prs|
    ensures forall k :: 0 <= k < |prs| ==>
              PostsFor(bot, libs, api, repo, prs)[k] == CheckRunFor(bot, libs, api, repo, prs[k]).value
    decreases |prs|
  {
    if prs != [] {
      var init, last := prs[..|prs| - 1], prs[|prs| - 1];
      assert prs == init + [last];
      assert forall k :: 0 <= k < |init| ==> init[k] == prs[k];
      PostsForAllScanned(bot, libs, api, repo, init);
      PostsForSnoc(bot, libs, api, repo, init, last);
      var post := CheckRunFor(bot, libs, api, repo, last);
      assert AnnotationsFor(bot, libs, api, repo, prs[|prs| - 1]).1.None?;
      assert post.Some?;
      var posts := PostsFor(bot, libs, api, repo, prs);
      assert posts == PostsFor(bot, libs, api, repo, init) + [post.value];
      forall k | 0 <= k < |prs|
        ensures posts[k] == CheckRunFor(bot, libs, api, repo, prs[k]).value
      {
        if k < |init| {
          assert prs[k] == init[k];
        }
      }
    }
  }

  /** Every check run posted for an event belongs to one of the dispatched pull requests and
      reports the annotations of that pull request. */
  lemma {:induction false} PostsForSound(bot: BotConfig, libs: Libraries, api: Api, repo: Repository,
                                         prs: seq<PullRequest>)
    requires Modelled(bot)
    ensures |PostsFor(bot, libs, api, repo, prs)| <= |prs|
    ensures forall p :: p in PostsFor(bot, libs, api, repo, prs) ==>
              exists k :: 0 <= k < |prs| && p.options.headSHA == prs[k].head.sha
                          && AnnotationsFor(bot, libs, api, repo, prs[k]).1.None?
                          && p.options.output.annotations == AnnotationsFor(bot, libs, api, repo, prs[k]).0
    decreases |prs|
  {
    if prs != [] {
      var init, last := prs[..|prs| - 1], prs[|prs| - 1];
      assert prs == init + [last];
      PostsForSound(bot, libs, api, repo, init);
      PostsForSnoc(bot, libs, api, repo, init, last);
      assert forall k :: 0 <= k < |init| ==> init[k] == prs[k];
      forall p | p in PostsFor(bot, libs, api, repo, prs)
        ensures exists k :: 0 <= k < |prs| && p.options.headSHA == prs[k].head.sha
                            && AnnotationsFor(bot, libs, api, repo, prs[k]).1.None?
                            && p.options.output.annotations == AnnotationsFor(bot, libs, api, repo, prs[k]).0
      {
        if p !in PostsFor(bot, libs, api, repo, init) {
          assert p == CheckRunFor(bot, libs, api, repo, prs[|prs| - 1]).value;
          var k := |prs| - 1;
          assert p.options.headSHA == prs[k].head.sha;
        }
      }
    }
  }

  /** The positions, in order, of the pull requests whose check run is posted. */
  function PostedIndices(bot: BotConfig, libs: Libraries, api: Api, repo: Repository, prs: seq<PullRequest>)
    : seq<nat>
    requires Modelled(bot)
    decreases |prs|
  {
    if prs == [] then []
    else PostedIndices(bot, libs, api, repo, prs[..|prs| - 1])
         + (if CheckRunFor(bot, libs, api, repo, prs[|prs| - 1]).Some? then [|prs| - 1] else [])
  }

  /** `idx` names, for the k-th check run of `posts`, the pull request of `prs` it was posted
      for; the positions strictly increase, so no pull request has two check runs. */
  predicate PostedFrom(bot: BotConfig, libs: Libraries, api: Api, repo: Repository, prs: seq<PullRequest>,
                       posts: seq<CheckRunPost>, idx: seq<nat>)
    requires Modelled(bot)
  {
    && |idx| == |posts|
    && (forall k :: 0 <= k < |idx| ==>
          idx[k] < |prs| && CheckRunFor(bot, libs, api, repo, prs[idx[k]]) == Some(posts[k]))
    && (forall i, j :: 0 <= i < j < |idx| ==> idx[i] < idx[j])
  }

  /** One unfolding of `PostedIndices` at the end of the list. */
  lemma PostedIndicesSnoc(bot: BotConfig, libs: Libraries, api: Api, repo: Repository, prs: seq<PullRequest>,
                          pr: PullRequest)
    requires Modelled(bot)
    ensures PostedIndices(bot, libs, api, repo, prs + [pr])
            == PostedIndices(bot, libs, api, repo, prs)
               + (if CheckRunFor(bot, libs, api, repo, pr).Some? then [|prs|] else [])
  {
    assert (prs + [pr])[..|prs|] == prs;
  }

  /** Appending a pull request keeps `PostedFrom`, with its position added when it is posted. */
  lemma PostedFromSnoc(bot: BotConfig, libs: Libraries, api: Api, repo: Repository, prs: seq<PullRequest>,
                       pr: PullRequest, posts: seq<CheckRunPost>, idx: seq<nat>)
    requires Modelled(bot)
    requires PostedFrom(bot, libs, api, repo, prs, posts, idx)
    ensures PostedFrom(bot, libs, api, repo, prs + [pr], posts + Posted(CheckRunFor(bot, libs, api, repo, pr)),
                       idx + (if CheckRunFor(bot, libs, api, repo, pr).Some? then [|prs|] else []))
  {
    var all := prs + [pr];
    assert forall k :: 0 <= k < |prs| ==> all[k] == prs[k];
    assert all[|prs|] == pr;
  }

  /** The check runs of an event are, in order, exactly those of the pull requests that can be
      scanned, one for each. */
  lemma {:induction false} PostsForOnePerPullRequest(bot: BotConfig, libs: Libraries, api: Api, repo: Repository,
                                                     prs: seq<PullRequest>)
    requires Modelled(bot)
    ensures PostedFrom(bot, libs, api, repo, prs, PostsFor(bot, libs, api, repo, prs),
                       PostedIndices(bot, libs, api, repo, prs))
    decreases |prs|
  {
    if prs != [] {
      var init, last := prs[..|prs| - 1], prs[|prs| - 1];
      assert prs == init + [last];
      PostsForOnePerPullRequest(bot, libs, api, repo, init);
      PostsForSnoc(bot, libs, api, repo, init, last);
      PostedIndicesSnoc(bot, libs, api, repo, init, last);
      PostedFromSnoc(bot, libs, api, repo, init, last, PostsFor(bot, libs, api, repo, init),
                     PostedIndices(bot, libs, api, repo, init));
    }
  }

  /** The inductive step of `PostedIndicesExact`: appending one pull request. */
  lemma PostedIndicesExactStep(bot: BotConfig, libs: Libraries, api: Api, repo: Repository,
                               prs: seq<PullRequest>, pr: PullRequest, idx: seq<nat>)
    requires Modelled(bot)
    requires forall k :: 0 <= k < |prs| ==> (k in idx <==> CheckRunFor(bot, libs, api, repo, prs[k]).Some?)
    requires forall k :: k in idx ==> k < |prs|
    ensures var idx' := idx + (if CheckRunFor(bot, libs, api, repo, pr).Some? then [|prs|] else []);
            && (forall k :: 0 <= k < |prs + [pr]| ==>
                  (k in idx' <==> CheckRunFor(bot, libs, api, repo, (prs + [pr])[k]).Some?))
            && (forall k :: k in idx' ==> k < |prs + [pr]|)
  {
    var all := prs + [pr];
    assert forall k :: 0 <= k < |prs| ==> all[k] == prs[k];
  }

  /** A pull request's position is among the posted ones exactly when its check run can be
      built. */
  lemma {:induction false} PostedIndicesExact(bot: BotConfig, libs: Libraries, api: Api, repo: Repository,
                                              prs: seq<PullRequest>)
    requires Modelled(bot)
    ensures forall k :: 0 <= k < |prs| ==>
              (k in PostedIndices(bot, libs, api, repo, prs) <==> CheckRunFor(bot, libs, api, repo, prs[k]).Some?)
    ensures forall k :: k in PostedIndices(bot, libs, api, repo, prs) ==> k < |prs|
    decreases |prs|
  {
    if prs != [] {
      var init, last := prs[..|prs| - 1], prs[|prs| - 1];
      assert prs == init + [last];
      PostedIndicesExact(bot, libs, api, repo, init);
      PostedIndicesSnoc(bot, libs, api, repo, init, last);
      PostedIndicesExactStep(bot, libs, api, repo, init, last, PostedIndices(bot, libs, api, repo, init));
    }
  }

  // ---------------------------------------------------------------- fetching and parsing the diff

  /** A failed diff request or a non-200 status yields no annotations and an error, and no
      check run is posted. */
  lemma DiffFetchFailureStops(bot: BotConfig, libs: Libraries, api: Api, repo: Repository, pr: PullRequest)
    requires Modelled(bot)
    requires api.getRawDiff(DiffRequest(repo, pr)).err.Some? || api.getRawDiff(DiffRequest(repo, pr)).status != 200
    ensures AnnotationsFor(bot, libs, api, repo, pr)
            == ([], Some(DiffFetchFailed(pr.head.sha, api.getRawDiff(DiffRequest(repo, pr)).err)))
    ensures CheckRunFor(bot, libs, api, repo, pr).None?
  {
  }

  /** A diff that does not parse yields no annotations and an error, and no check run. */
  lemma DiffParseFailureStops(bot: BotConfig, libs: Libraries, api: Api, repo: Repository, pr: PullRequest)
    requires Modelled(bot)
    requires api.getRawDiff(DiffRequest(repo, pr)).err.None? && api.getRawDiff(DiffRequest(repo, pr)).status == 200
    requires libs.parseDiff(api.getRawDiff(DiffRequest(repo, pr)).body).Failure?
    ensures AnnotationsFor(bot, libs, api, repo, pr).0 == []
    ensures AnnotationsFor(bot, libs, api, repo, pr).1.Some? && AnnotationsFor(bot, libs, api, repo, pr).1.value.DiffParseFailed?
    ensures CheckRunFor(bot, libs, api, repo, pr).None?
  {
  }

  /** The check run posted reports exactly the annotations of the scan, and its conclusion is
      "neutral" exactly when there are some. */
  lemma CheckRunReportsScan(bot: BotConfig, libs: Libraries, api: Api, repo: Repository, pr: PullRequest)
    requires Modelled(bot)
    requires AnnotationsFor(bot, libs, api, repo, pr).1.None?
    ensures var post := CheckRunFor(bot, libs, api, repo, pr);
            var annotations := AnnotationsFor(bot, libs, api, repo, pr).0;
            && post.Some?
            && post.value.owner == repo.ownerLogin && post.value.repo == repo.name
            && post.value.options.output.annotations == annotations
            && post.value.options.output.annotationsCount == |annotations|
            && post.value.options.status == "completed"
            && (post.value.options.conclusion == "neutral" <==> |annotations| > 0)
            && (post.value.options.conclusion == "success" <==> |annotations| == 0)
  {
  }

  // ---------------------------------------------------------------- annotations of the lines

  /** The reference for the scan of a new range: the lines in which some term occurs. */
  function FlaggedLines(terms: seq<string>, ls: seq<DiffLine>): (r: seq<DiffLine>)
    decreases |ls|
  {
    if ls == [] then []
    else FlaggedLines(terms, ls[..|ls| - 1])
         + (if ContainsTerm(terms, ls[|ls| - 1].content) then [ls[|ls| - 1]] else [])
  }

  /** A line is flagged exactly when it is one of the lines and some term occurs in it. */
  lemma {:induction false} FlaggedLinesMembers(terms: seq<string>, ls: seq<DiffLine>)
    ensures forall l :: l in FlaggedLines(terms, ls) <==> l in ls && ContainsTerm(terms, l.content)
    ensures |FlaggedLines(terms, ls)| <= |ls|
    decreases |ls|
  {
    if ls != [] {
      var init := ls[..|ls| - 1];
      FlaggedLinesMembers(terms, init);
      assert ls == init + [ls[|ls| - 1]];
    }
  }

  /** One annotation per line, each listing the distinct terms of its line. */
  function AnnotateEach(bot: BotConfig, f: DiffFile, ls: seq<DiffLine>): (r: seq<Annotation>)
    requires Modelled(bot)
    decreases |ls|
  {
    if ls == [] then []
    else AnnotateEach(bot, f, ls[..|ls| - 1])
         + [CreateAnnotation(bot, f, ls[|ls| - 1], Matches(bot, ls[|ls| - 1].content))]
  }

  lemma AnnotateEachSnoc(bot: BotConfig, f: DiffFile, ls: seq<DiffLine>, l: DiffLine)
    requires Modelled(bot)
    ensures AnnotateEach(bot, f, ls + [l]) == AnnotateEach(bot, f, ls) + [CreateAnnotation(bot, f, l, Matches(bot, l.content))]
  {
    assert (ls + [l])[..|ls|] == ls;
  }

  lemma {:induction false} AnnotateEachAt(bot: BotConfig, f: DiffFile, ls: seq<DiffLine>)
    requires Modelled(bot)
    ensures |AnnotateEach(bot, f, ls)| == |ls|
    ensures forall k :: 0 <= k < |ls| ==>
              AnnotateEach(bot, f, ls)[k] == CreateAnnotation(bot, f, ls[k], Matches(bot, ls[k].content))
    decreases |ls|
  {
    if ls != [] {
      var init, last := ls[..|ls| - 1], ls[|ls| - 1];
      assert ls == init + [last];
      AnnotateEachAt(bot, f, init);
      AnnotateEachSnoc(bot, f, init, last);
      forall k | 0 <= k < |ls|
        ensures AnnotateEach(bot, f, ls)[k] == CreateAnnotation(bot, f, ls[k], Matches(bot, ls[k].content))
      {
        if k < |init| {
          assert ls[k] == init[k];
        }
      }
    }
  }

  /** The scan of a new range annotates exactly the lines that contain a term, once each, in
      line order. */
  lemma {:induction false} LinesAnnotationsAreFlaggedLines(bot: BotConfig, f: DiffFile, ls: seq<DiffLine>)
    requires Modelled(bot)
    ensures LinesAnnotations(bot, f, ls) == AnnotateEach(bot, f, FlaggedLines(bot.termList, ls))
    decreases |ls|
  {
    if ls != [] {
      var init, last := ls[..|ls| - 1], ls[|ls| - 1];
      LinesAnnotationsAreFlaggedLines(bot, f, init);
      var flagged := FlaggedLines(bot.termList, init);
      if ContainsTerm(bot.termList, last.content) {
        assert FlaggedLines(bot.termList, ls) == flagged + [last];
        assert (flagged + [last])[..|flagged|] == flagged;
      } else {
        assert FlaggedLines(bot.termList, ls) == flagged;
      }
    }
  }

  /** Neither a line's mode nor a file's mode is read: unchanged context lines of the new
      range are scanned like added ones, and a deleted file is scanned like any other. */
  lemma LineModeNotRead(bot: BotConfig, f: DiffFile, l: DiffLine, mode: LineMode)
    requires Modelled(bot)
    ensures LineAnnotation(bot, f, l.(mode := mode)) == LineAnnotation(bot, f, l)
  {
  }

  lemma {:induction false} FileModeNotRead(bot: BotConfig, f: DiffFile, hs: seq<DiffHunk>, mode: FileMode)
    requires Modelled(bot)
    ensures HunksAnnotations(bot, f.(mode := mode), hs) == HunksAnnotations(bot, f, hs)
    decreases |hs|
  {
    if hs != [] {
      FileModeNotRead(bot, f, hs[..|hs| - 1], mode);
      LinesFileModeNotRead(bot, f, hs[|hs| - 1].newRange.lines, mode);
    }
  }

  lemma {:induction false} LinesFileModeNotRead(bot: BotConfig, f: DiffFile, ls: seq<DiffLine>, mode: FileMode)
    requires Modelled(bot)
    ensures LinesAnnotations(bot, f.(mode := mode), ls) == LinesAnnotations(bot, f, ls)
    decreases |ls|
  {
    if ls != [] {
      LinesFileModeNotRead(bot, f, ls[..|ls| - 1], mode);
    }
  }

  /** Only the new range of a hunk is scanned: the lines of its original range (the removed
      ones among them) never produce an annotation. */
  lemma {:induction false} OrigRangeNotRead(bot: BotConfig, f: DiffFile, hs: seq<DiffHunk>, hs': seq<DiffHunk>)
    requires Modelled(bot)
    requires |hs| == |hs'| && forall k :: 0 <= k < |hs| ==> hs[k].newRange == hs'[k].newRange
    ensures HunksAnnotations(bot, f, hs) == HunksAnnotations(bot, f, hs')
    decreases |hs|
  {
    if hs != [] {
      OrigRangeNotRead(bot, f, hs[..|hs| - 1], hs'[..|hs'| - 1]);
    }
  }

  // ---------------------------------------------------------------- annotations of the files

  /** One unfolding of `FilesAnnotations` at the end of the list. */
  lemma FilesAnnotationsSnoc(bot: BotConfig, libs: Libraries, api: Api, repo: Repository, headSHA: string,
                             files: seq<DiffFile>, f: DiffFile)
    requires Modelled(bot)
    ensures FilesAnnotations(bot, libs, api, repo, headSHA, files + [f])
            == FilesAnnotations(bot, libs, api, repo, headSHA, files) + FileAnnotations(bot, libs, api, repo, headSHA, f)
  {
    assert (files + [f])[..|files|] == files;
  }

  /** Concatenation is associative; kept apart so that the step below sees only this instance. */
  lemma ConcatAssoc<T>(x: seq<T>, y: seq<T>, z: seq<T>)
    ensures (x + y) + z == x + (y + z)
  {
  }

  /** The inductive step of `FilesAnnotationsAppend`: appending one more file to `b`. */
  lemma FilesAnnotationsAppendStep(bot: BotConfig, libs: Libraries, api: Api, repo: Repository, headSHA: string,
                                   a: seq<DiffFile>, init: seq<DiffFile>, last: DiffFile)
    requires Modelled(bot)
    requires FilesAnnotations(bot, libs, api, repo, headSHA, a + init)
             == FilesAnnotations(bot, libs, api, repo, headSHA, a) + FilesAnnotations(bot, libs, api, repo, headSHA, init)
    ensures FilesAnnotations(bot, libs, api, repo, headSHA, a + (init + [last]))
            == FilesAnnotations(bot, libs, api, repo, headSHA, a) + FilesAnnotations(bot, libs, api, repo, headSHA, init + [last])
  {
    var fa, fi := FilesAnnotations(bot, libs, api, repo, headSHA, a), FilesAnnotations(bot, libs, api, repo, headSHA, init);
    var fl := FileAnnotations(bot, libs, api, repo, headSHA, last);
    assert a + (init + [last]) == (a + init) + [last];
    FilesAnnotationsSnoc(bot, libs, api, repo, headSHA, a + init, last);
    FilesAnnotationsSnoc(bot, libs, api, repo, headSHA, init, last);
    ConcatAssoc(fa, fi, fl);
  }

  lemma {:induction false} FilesAnnotationsAppend(bot: BotConfig, libs: Libraries, api: Api, repo: Repository,
                                                  headSHA: string, a: seq<DiffFile>, b: seq<DiffFile>)
    requires Modelled(bot)
    ensures FilesAnnotations(bot, libs, api, repo, headSHA, a + b)
            == FilesAnnotations(bot, libs, api, repo, headSHA, a) + FilesAnnotations(bot, libs, api, repo, headSHA, b)
    decreases |b|
  {
    if b == [] {
      assert a + b == a;
    } else {
      var init, last := b[..|b| - 1], b[|b| - 1];
      assert b == init + [last];
      FilesAnnotationsAppend(bot, libs, api, repo, headSHA, a, init);
      FilesAnnotationsAppendStep(bot, libs, api, repo, headSHA, a, init, last);
    }
  }

  /** A file the repository ignores contributes no annotation, whatever it contains. */
  lemma IgnoredFileContributesNothing(bot: BotConfig, libs: Libraries, api: Api, repo: Repository, headSHA: string,
                                      before: seq<DiffFile>, f: DiffFile, after: seq<DiffFile>)
    requires Modelled(bot)
    requires IgnoredByRepo(libs, api, repo, headSHA, f.newName)
    ensures FilesAnnotations(bot, libs, api, repo, headSHA, before + [f] + after)
            == FilesAnnotations(bot, libs, api, repo, headSHA, before) + FilesAnnotations(bot, libs, api, repo, headSHA, after)
  {
    calc {
      FilesAnnotations(bot, libs, api, repo, headSHA, before + [f] + after);
      { FilesAnnotationsAppend(bot, libs, api, repo, headSHA, before + [f], after); }
      FilesAnnotations(bot, libs, api, repo, headSHA, before + [f]) + FilesAnnotations(bot, libs, api, repo, headSHA, after);
      { FilesAnnotationsSnoc(bot, libs, api, repo, headSHA, before, f); }
      FilesAnnotations(bot, libs, api, repo, headSHA, before) + [] + FilesAnnotations(bot, libs, api, repo, headSHA, after);
      FilesAnnotations(bot, libs, api, repo, headSHA, before) + FilesAnnotations(bot, libs, api, repo, headSHA, after);
    }
  }

  /** The properties every annotation has. */
  predicate WellFormed(bot: BotConfig, a: Annotation) {
    && a.startLine == a.endLine
    && a.annotationLevel == "warning"
    && a.title == bot.annotationTitle
    && !OccursIn("%!", a.message)
  }

  lemma {:induction false} LinesAnnotationsWellFormed(bot: BotConfig, f: DiffFile, ls: seq<DiffLine>)
    requires Modelled(bot)
    ensures forall a :: a in LinesAnnotations(bot, f, ls) ==>
              WellFormed(bot, a) && a.path == f.newName && exists k :: 0 <= k < |ls| && a.startLine == ls[k].number
    decreases |ls|
  {
    if ls != [] {
      var init := ls[..|ls| - 1];
      LinesAnnotationsWellFormed(bot, f, init);
      assert forall k :: 0 <= k < |init| ==> init[k] == ls[k];
    }
  }

  lemma {:induction false} HunksAnnotationsWellFormed(bot: BotConfig, f: DiffFile, hs: seq<DiffHunk>)
    requires Modelled(bot)
    ensures forall a :: a in HunksAnnotations(bot, f, hs) ==> WellFormed(bot, a) && a.path == f.newName
    decreases |hs|
  {
    if hs != [] {
      HunksAnnotationsWellFormed(bot, f, hs[..|hs| - 1]);
      LinesAnnotationsWellFormed(bot, f, hs[|hs| - 1].newRange.lines);
    }
  }

  /** Every annotation is a one-line warning with the configured title, a message free of
      formatting errors, and the path of a file of the diff that the repository does not
      ignore. */
  lemma {:induction false} FilesAnnotationsWellFormed(bot: BotConfig, libs: Libraries, api: Api, repo: Repository,
                                                      headSHA: string, files: seq<DiffFile>)
    requires Modelled(bot)
    ensures forall a :: a in FilesAnnotations(bot, libs, api, repo, headSHA, files) ==>
              WellFormed(bot, a)
              && exists k :: 0 <= k < |files| && a.path == files[k].newName
                             && !IgnoredByRepo(libs, api, repo, headSHA, files[k].newName)
    decreases |files|
  {
    if files != [] {
      var init, last := files[..|files| - 1], files[|files| - 1];
      FilesAnnotationsWellFormed(bot, libs, api, repo, headSHA, init);
      HunksAnnotationsWellFormed(bot, last, last.hunks);
      assert forall k :: 0 <= k < |init| ==> init[k] == files[k];
      forall a | a in FilesAnnotations(bot, libs, api, repo, headSHA, files)
        ensures exists k :: 0 <= k < |files| && a.path == files[k].newName
                            && !IgnoredByRepo(libs, api, repo, headSHA, files[k].newName)
      {
        if a !in FilesAnnotations(bot, libs, api, repo, headSHA, init) {
          assert a.path == files[|files| - 1].newName;
        }
      }
    }
  }

  // ---------------------------------------------------------------- ignore handling

  /** Ignore handling fails open: when the repository's configuration cannot be fetched,
      decoded, or has no `ignore` list, or its patterns do not compile, no file is ignored. */
  lemma IgnoreFailsOpen(libs: Libraries, api: Api, repo: Repository, headSHA: string, filename: string)
    ensures !Fetched(api.getContents(RepoConfigRequest(repo, headSHA))) ==>
              !IgnoredByRepo(libs, api, repo, headSHA, filename)
    ensures var reply := api.getContents(RepoConfigRequest(repo, headSHA));
            Fetched(reply) && libs.yaml.repoConfig(reply.content.value).ignore.None? ==>
              !IgnoredByRepo(libs, api, repo, headSHA, filename)
    ensures var reply := api.getContents(RepoConfigRequest(repo, headSHA));
            Fetched(reply) && libs.yaml.repoConfig(reply.content.value).ignore.Some?
            && libs.compileIgnore(libs.yaml.repoConfig(reply.content.value).ignore.value).Failure? ==>
              !IgnoredByRepo(libs, api, repo, headSHA, filename)
  {
  }

  // ---------------------------------------------------------------- annotation messages

  /** A body with one `%s` and no other `%` gets the comma-separated terms in place of the
      slot. */
  lemma MessageOneSlot(bot: BotConfig, before: string, after: string, m: seq<string>)
    requires '%' !in before && '%' !in after && forall t :: t in m ==> '%' !in t
    requires bot.annotationBody == before + "%s" + after
    ensures SimpleFormat(bot.annotationBody)
    ensures Message(bot, m) == before + Join(m, TermSeparator) + after
  {
    FormatOneSlot(before, after, Join(m, TermSeparator));
    JoinAvoids(m, TermSeparator, '%');
    var text := before + Join(m, TermSeparator) + after;
    assert '%' !in text;
    FirstCharAbsent(FormatErrorMarker, text);
  }

  /** A body without a slot is shown as it is, without the formatting error that reports the
      unused argument. */
  lemma MessageWithoutSlot(bot: BotConfig, m: seq<string>)
    requires '%' !in bot.annotationBody
    ensures SimpleFormat(bot.annotationBody)
    ensures Message(bot, m) == bot.annotationBody
  {
    var body, arg := bot.annotationBody, Join(m, TermSeparator);
    var tail := "(EXTRA string=" + arg + ")";
    FormatWithoutVerb(body, arg);
    assert Extra(arg) == FormatErrorMarker + tail;
    var s := body + FormatErrorMarker + tail;
    assert Sprintf(body, arg) == s;
    forall i | 0 <= i < |body| ensures !OccursAt(s, FormatErrorMarker, i) {
      assert s[i..i + 2][0] == s[i] == body[i] && body[i] in body;
    }
    CutBeforeFirst(body, FormatErrorMarker, tail);
  }

  /** When the separator first occurs right after `x`, `CutBefore` keeps exactly `x`. */
  lemma CutBeforeFirst(x: string, sep: string, y: string)
    requires |sep| > 0
    requires forall i :: 0 <= i < |x| ==> !OccursAt(x + sep + y, sep, i)
    ensures CutBefore(x + sep + y, sep) == x
  {
    var s := x + sep + y;
    var r := CutBefore(s, sep);
    assert s[|x|..|x| + |sep|] == sep;
    assert OccursAt(s, sep, |x|);
    assert |r| == |x|;
    assert s[..|x|] == x;
  }

  // ---------------------------------------------------------------- end-to-end scenarios

  const ScenarioLine: string := "slave_ip = \"1.2.3.4\""

  function ScenarioFile(l: DiffLine): DiffFile {
    DiffFile(Modified, "config.py", "config.py", [DiffHunk(DiffRange(1, 0, []), DiffRange(1, 1, [l]))])
  }

  /** The line of scenario A starts with slave, not with master, and neither term occurs in
      the rest of it. */
  lemma ScenarioLineShape()
    ensures HasPrefix(ScenarioLine, "slave") && !HasPrefix(ScenarioLine, "master")
    ensures !OccursIn("master", ScenarioLine[5..]) && !OccursIn("slave", ScenarioLine[5..])
  {
    var rest := ScenarioLine[5..];
    assert ScenarioLine[..5] == "slave";
    assert ScenarioLine[..6][0] == 's';
    assert rest == "_ip = \"1.2.3.4\"";
    assert 'm' !in rest && 's' !in rest;
    FirstCharAbsent("master", rest);
    FirstCharAbsent("slave", rest);
  }

  /** The terms found in the line of scenario A. */
  lemma ScenarioLineMatches(bot: BotConfig)
    requires Modelled(bot) && bot.termList == ["master", "slave"]
    ensures Matches(bot, ScenarioLine) == ["slave"]
  {
    ScenarioLineShape();
    FindAllSingle(bot.termList, ScenarioLine, 1);
    assert ["slave"][..0] == [];
    assert Dedup(["slave"]) == ["slave"];
  }

  /** Scenario A: a line `slave_ip = "1.2.3.4"` of `config.py` with the terms master and slave,
      and no ignore rules, gives one annotation at that line listing slave. */
  lemma ScenarioFlaggedLine(bot: BotConfig, libs: Libraries, api: Api, repo: Repository, headSHA: string,
                            l: DiffLine)
    requires Modelled(bot) && bot.termList == ["master", "slave"]
    requires l.content == ScenarioLine
    requires GetRepoConfig(api, libs.yaml, repo, headSHA).ignore.None?
    ensures Matches(bot, l.content) == ["slave"]
    ensures FilesAnnotations(bot, libs, api, repo, headSHA, [ScenarioFile(l)])
            == [CreateAnnotation(bot, ScenarioFile(l), l, ["slave"])]
  {
    ScenarioLineMatches(bot);
    var f := ScenarioFile(l);
    var a := CreateAnnotation(bot, f, l, ["slave"]);
    assert [l][..0] == [];
    assert LinesAnnotations(bot, f, [l]) == [a];
    assert f.hunks[..0] == [];
    assert HunksAnnotations(bot, f, f.hunks) == [a];
    assert !IgnoredByRepo(libs, api, repo, headSHA, f.newName);
    assert FileAnnotations(bot, libs, api, repo, headSHA, f) == [a];
    assert [f][..0] == [];
  }

  /** Scenario B: the same file, when the repository's patterns match `config.py`, gives no
      annotation and a successful check run. */
  lemma ScenarioIgnoredFile(bot: BotConfig, libs: Libraries, api: Api, repo: Repository, pr: PullRequest,
                            l: DiffLine, matcher: IgnoreMatcher)
    requires Modelled(bot)
    requires Fetched(api.getContents(RepoConfigRequest(repo, pr.head.sha)))
    requires libs.yaml.repoConfig(api.getContents(RepoConfigRequest(repo, pr.head.sha)).content.value)
             == RepoConfig(Some(["*.py"]))
    requires libs.compileIgnore(["*.py"]) == Success(matcher) && matcher.matchesPath("config.py")
    ensures FilesAnnotations(bot, libs, api, repo, pr.head.sha, [ScenarioFile(l)]) == []
    ensures CheckRunOptionsFor(bot, pr, []).conclusion == "success"
  {
    assert [ScenarioFile(l)][..0] == [];
  }

  /** Scenario C: a hunk that only removes lines has an empty new range and gives no
      annotation. */
  lemma ScenarioOnlyRemovedLines(bot: BotConfig, f: DiffFile, removed: seq<DiffLine>)
    requires Modelled(bot)
    ensures HunksAnnotations(bot, f, [DiffHunk(DiffRange(1, |removed|, removed), DiffRange(0, 0, []))]) == []
  {
    assert [DiffHunk(DiffRange(1, |removed|, removed), DiffRange(0, 0, []))][..0] == [];
  }

  /** The terms of scenario D, joined and checked for `%`. */
  lemma ScenarioTerms()
    ensures Join(["master", "slave"], TermSeparator) == "master, slave"
    ensures forall t :: t in ["master", "slave"] ==> '%' !in t
  {
    assert ["master", "slave"][1..] == ["slave"];
  }

  /** The body of scenario D, split around its slot. */
  lemma ScenarioBody()
    ensures "Found: %s" == "Found: " + "%s" + ""
    ensures '%' !in "Found: "
    ensures "Found: " + "master, slave" + "" == "Found: master, slave"
  {
  }

  /** Scenario D: the body "Found: %s" with the matches master and slave gives
      "Found: master, slave". */
  lemma ScenarioMessageWithSlot(bot: BotConfig)
    requires bot.annotationBody == "Found: %s"
    ensures SimpleFormat(bot.annotationBody)
    ensures Message(bot, ["master", "slave"]) == "Found: master, slave"
  {
    ScenarioTerms();
    ScenarioBody();
    MessageOneSlot(bot, "Found: ", "", ["master", "slave"]);
  }

  /** Scenario D, continued: a body without its slot is shown as it is. */
  lemma ScenarioMessageWithoutSlot(bot: BotConfig)
    requires bot.annotationBody == "Found flagged terms"
    ensures SimpleFormat(bot.annotationBody)
    ensures Message(bot, ["master", "slave"]) == "Found flagged terms"
  {
    assert '%' !in bot.annotationBody;
    MessageWithoutSlot(bot, ["master", "slave"]);
  }
}
