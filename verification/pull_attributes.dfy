/** The attributes a rule condition or a template can read on a pull
    request: plain fields of the pull request, and values consolidated
    from its reviews, check runs and statuses. */
module PullAttributes {
  import opened Wrappers
  import opened OrderedDict
  import opened Reviews
  import opened Checks

  /** The fields of a pull request the attributes read. Optional fields are
      `None` when GitHub reports null. */
  datatype PullRequest = PullRequest(
    number: int,
    title: string,
    body: Option<string>,
    author: string,
    assignees: seq<string>,
    labels: seq<string>,
    requestedReviewers: seq<string>,
    requestedTeams: seq<string>,
    draft: bool,
    locked: bool,
    state: string,
    merged: bool,
    mergedBy: Option<string>,
    milestone: Option<string>,
    mergeableState: Option<string>,
    baseRef: string,
    headRef: string)

  /** A pull request with what was fetched about it: changed files,
      reviews, the permission of each reviewer, check runs (newest first)
      and commit statuses. */
  datatype PullContext = PullContext(
    pull: PullRequest,
    files: seq<string>,
    reviews: seq<Review>,
    permission: PermissionOracle,
    checkRuns: seq<CheckRun>,
    statuses: seq<CommitStatus>)

  datatype Value = VStr(s: string) | VInt(n: int) | VBool(b: bool) | VNull | VList(items: seq<string>)

  datatype AttributeError = PullRequestAttributeError(name: string)

  /** `PullRequest.ATTRIBUTES`. */
  const Attributes: set<string> := {
    "author", "merged-by", "merged", "closed", "milestone", "number",
    "conflict", "base", "head", "locked", "title", "body"}

  /** `PullRequest.LIST_ATTRIBUTES`. */
  const ListAttributes: set<string> := {
    "assignee", "label", "review-requested",
    "approved-reviews-by", "dismissed-reviews-by", "changes-requested-reviews-by", "commented-reviews-by",
    "check-success", "check-failure", "check-neutral",
    "status-success", "status-failure", "status-neutral",
    "files"}

  /** Every name the resolver answers; `draft` is answered though not
      listed among the attributes. */
  const KnownNames: set<string> := Attributes + ListAttributes + {"draft"}

  /** Requested teams are reported as `@slug`. */
  function TeamMentions(slugs: seq<string>): seq<string> {
    seq(|slugs|, i requires 0 <= i < |slugs| => "@" + slugs[i])
  }

  /** The logins of the consolidated reviews of one kind in `state`. */
  function ReviewersInState(ctx: PullContext, comment: bool, state: ReviewState): seq<string> {
    KeysWhere(ConsolidatedByLogin(ctx.reviews, ctx.permission, comment), (r: Review) => r.state == state)
  }

  function ChecksIn(ctx: PullContext, state: string): seq<string> {
    NamesInState(ctx.checkRuns, ctx.statuses, state)
  }

  /** `_get_consolidated_data`. */
  function GetConsolidatedData(ctx: PullContext, name: string): (r: Result<Value, AttributeError>)
    ensures r.Failure? ==> r.error == PullRequestAttributeError(name)
    ensures r.Success? ==> name in KnownNames
  {
    var p := ctx.pull;
    if name == "assignee" then Success(VList(p.assignees))
    else if name == "label" then Success(VList(p.labels))
    else if name == "review-requested" then Success(VList(p.requestedReviewers + TeamMentions(p.requestedTeams)))
    else if name == "draft" then Success(VBool(p.draft))
    else if name == "author" then Success(VStr(p.author))
    else if name == "merged-by" then Success(VStr(if p.mergedBy.Some? then p.mergedBy.value else ""))
    else if name == "merged" then Success(VBool(p.merged))
    else if name == "closed" then Success(VBool(p.state == "closed"))
    else if name == "milestone" then Success(VStr(if p.milestone.Some? then p.milestone.value else ""))
    else if name == "number" then Success(VInt(p.number))
    else if name == "conflict" then Success(VBool(p.mergeableState == Some("dirty")))
    else if name == "base" then Success(VStr(p.baseRef))
    else if name == "head" then Success(VStr(p.headRef))
    else if name == "locked" then Success(VBool(p.locked))
    else if name == "title" then Success(VStr(p.title))
    else if name == "body" then Success(if p.body.Some? then VStr(p.body.value) else VNull)
    else if name == "files" then Success(VList(ctx.files))
    else if name == "approved-reviews-by" then Success(VList(ReviewersInState(ctx, false, Approved)))
    else if name == "dismissed-reviews-by" then Success(VList(ReviewersInState(ctx, false, Dismissed)))
    else if name == "changes-requested-reviews-by" then Success(VList(ReviewersInState(ctx, false, ChangesRequested)))
    else if name == "commented-reviews-by" then Success(VList(ReviewersInState(ctx, true, Commented)))
    else if name == "status-success" || name == "check-success" then Success(VList(ChecksIn(ctx, "success")))
    else if name == "status-failure" || name == "check-failure" then Success(VList(ChecksIn(ctx, "failure")))
    else if name == "status-neutral" || name == "check-neutral" then Success(VList(ChecksIn(ctx, "neutral")))
    else Failure(PullRequestAttributeError(name))
  }

  /** Attribute names are written with underscores in templates. */
  function Dashed(name: string): string {
    seq(|name|, i requires 0 <= i < |name| => if name[i] == '_' then '-' else name[i])
  }

  /** `PullRequest.__getattr__`. */
  function GetAttr(ctx: PullContext, name: string): Result<Value, AttributeError> {
    GetConsolidatedData(ctx, Dashed(name))
  }

  // Properties

  /** Exactly the known names resolve. */
  lemma KnownNamesResolve(ctx: PullContext, name: string)
    ensures GetConsolidatedData(ctx, name).Success? <==> name in KnownNames
  {
    if name in Attributes {
      AttributesResolve(ctx, name);
    } else if name in ListAttributes {
      ListAttributesAreLists(ctx, name);
    }
  }

  lemma AttributesResolve(ctx: PullContext, name: string)
    requires name in Attributes
    ensures GetConsolidatedData(ctx, name).Success?
  {
    if name in {"author", "merged-by", "merged", "closed"} {
      ResolveFields(ctx, name);
    } else if name in {"milestone", "number", "conflict", "base"} {
      ResolveMoreFields(ctx, name);
    } else {
      ResolveTextFields(ctx, name);
    }
  }

  lemma ResolveFields(ctx: PullContext, name: string)
    requires name in {"author", "merged-by", "merged", "closed"}
    ensures GetConsolidatedData(ctx, name).Success?
  {
    if name == "author" {
      assert GetConsolidatedData(ctx, "author").Success?;
    } else if name == "merged-by" {
      assert GetConsolidatedData(ctx, "merged-by").Success?;
    } else if name == "merged" {
      assert GetConsolidatedData(ctx, "merged").Success?;
    } else {
      assert GetConsolidatedData(ctx, "closed").Success?;
    }
  }

  lemma ResolveMoreFields(ctx: PullContext, name: string)
    requires name in {"milestone", "number", "conflict", "base"}
    ensures GetConsolidatedData(ctx, name).Success?
  {
    if name == "milestone" {
      assert GetConsolidatedData(ctx, "milestone").Success?;
    } else if name == "number" {
      assert GetConsolidatedData(ctx, "number").Success?;
    } else if name == "conflict" {
      assert GetConsolidatedData(ctx, "conflict").Success?;
    } else {
      assert GetConsolidatedData(ctx, "base").Success?;
    }
  }

  lemma ResolveTextFields(ctx: PullContext, name: string)
    requires name in {"head", "locked", "title", "body"}
    ensures GetConsolidatedData(ctx, name).Success?
  {
    if name == "head" {
      assert GetConsolidatedData(ctx, "head").Success?;
    } else if name == "locked" {
      assert GetConsolidatedData(ctx, "locked").Success?;
    } else if name == "title" {
      assert GetConsolidatedData(ctx, "title").Success?;
    } else {
      assert GetConsolidatedData(ctx, "body").Success?;
    }
  }

  /** The list attributes resolve to lists. */
  lemma ListAttributesAreLists(ctx: PullContext, name: string)
    requires name in ListAttributes
    ensures GetConsolidatedData(ctx, name).Success? && GetConsolidatedData(ctx, name).value.VList?
  {
    if name in {"assignee", "label", "review-requested", "files"} {
      ResolveFieldLists(ctx, name);
    } else if name in {"approved-reviews-by", "dismissed-reviews-by", "changes-requested-reviews-by", "commented-reviews-by"} {
      ResolveReviewLists(ctx, name);
    } else {
      ResolveCheckLists(ctx, name);
    }
  }

  lemma ResolveFieldLists(ctx: PullContext, name: string)
    requires name in {"assignee", "label", "review-requested", "files"}
    ensures GetConsolidatedData(ctx, name).Success? && GetConsolidatedData(ctx, name).value.VList?
  {
  }

  lemma ResolveReviewLists(ctx: PullContext, name: string)
    requires name in {"approved-reviews-by", "dismissed-reviews-by", "changes-requested-reviews-by", "commented-reviews-by"}
    ensures GetConsolidatedData(ctx, name).Success? && GetConsolidatedData(ctx, name).value.VList?
  {
  }

  lemma ResolveCheckLists(ctx: PullContext, name: string)
    requires name in {"check-success", "check-failure", "check-neutral", "status-success", "status-failure", "status-neutral"}
    ensures GetConsolidatedData(ctx, name).Success? && GetConsolidatedData(ctx, name).value.VList?
  {
  }

  /** Dashing replaces exactly the underscores, so a name without
      underscores is looked up as written and dashing twice changes
      nothing. */
  lemma DashedSpec(name: string)
    ensures |Dashed(name)| == |name| && '_' !in Dashed(name)
    ensures forall i :: 0 <= i < |name| && name[i] != '_' ==> Dashed(name)[i] == name[i]
    ensures '_' !in name ==> Dashed(name) == name
    ensures Dashed(Dashed(name)) == Dashed(name)
  {
  }

  /** A template may spell an attribute with dashes or underscores: both
      spellings read the same value, and an unknown name is reported
      under its dashed spelling. */
  lemma GetAttrSpellings(ctx: PullContext, name: string)
    ensures GetAttr(ctx, name) == GetAttr(ctx, Dashed(name))
    ensures '_' !in name ==> GetAttr(ctx, name) == GetConsolidatedData(ctx, name)
    ensures GetAttr(ctx, name).Success? <==> Dashed(name) in KnownNames
    ensures GetAttr(ctx, name).Failure? ==> GetAttr(ctx, name).error == PullRequestAttributeError(Dashed(name))
  {
    DashedSpec(name);
    KnownNamesResolve(ctx, Dashed(name));
  }

  /** `check-success` and `status-success` read the same list, which holds
      exactly the names whose status, or failing one whose newest check
      run, succeeded. */
  lemma CheckSuccessExact(ctx: PullContext, name: string)
    ensures GetConsolidatedData(ctx, "check-success").Success?
    ensures GetConsolidatedData(ctx, "status-success") == GetConsolidatedData(ctx, "check-success")
    ensures name in GetConsolidatedData(ctx, "check-success").value.items <==>
              ExpectedState(ctx.checkRuns, ctx.statuses, name) == Some(Some("success"))
    ensures NoDuplicates(GetConsolidatedData(ctx, "check-success").value.items)
  {
    NamesInStateExact(ctx.checkRuns, ctx.statuses, "success", name);
    ChecksPrecedence(ctx.checkRuns, ctx.statuses, name);
  }

  /** `check-failure` and `status-failure` read the same list, which holds
      exactly the names whose status, or failing one whose newest check
      run, failed. */
  lemma CheckFailureExact(ctx: PullContext, name: string)
    ensures GetConsolidatedData(ctx, "check-failure").Success?
    ensures GetConsolidatedData(ctx, "status-failure") == GetConsolidatedData(ctx, "check-failure")
    ensures name in GetConsolidatedData(ctx, "check-failure").value.items <==>
              ExpectedState(ctx.checkRuns, ctx.statuses, name) == Some(Some("failure"))
    ensures NoDuplicates(GetConsolidatedData(ctx, "check-failure").value.items)
  {
    NamesInStateExact(ctx.checkRuns, ctx.statuses, "failure", name);
    ChecksPrecedence(ctx.checkRuns, ctx.statuses, name);
  }

  /** `check-neutral` and `status-neutral` read the same list, which holds
      exactly the names whose status, or failing one whose newest check
      run, is neutral. */
  lemma CheckNeutralExact(ctx: PullContext, name: string)
    ensures GetConsolidatedData(ctx, "check-neutral").Success?
    ensures GetConsolidatedData(ctx, "status-neutral") == GetConsolidatedData(ctx, "check-neutral")
    ensures name in GetConsolidatedData(ctx, "check-neutral").value.items <==>
              ExpectedState(ctx.checkRuns, ctx.statuses, name) == Some(Some("neutral"))
    ensures NoDuplicates(GetConsolidatedData(ctx, "check-neutral").value.items)
  {
    NamesInStateExact(ctx.checkRuns, ctx.statuses, "neutral", name);
    ChecksPrecedence(ctx.checkRuns, ctx.statuses, name);
  }

  /** The latest counted verdict of `login`, if any. */
  function LatestVerdict(ctx: PullContext, login: string): Option<Review> {
    LatestOf(ctx.reviews, ValidUserIds(ctx.reviews, ctx.permission), false, login)
  }

  /** Each verdict attribute lists exactly the logins whose latest counted
      verdict is of its kind. */
  lemma VerdictAttributesExact(ctx: PullContext, login: string)
    ensures GetConsolidatedData(ctx, "approved-reviews-by").Success?
    ensures GetConsolidatedData(ctx, "dismissed-reviews-by").Success?
    ensures GetConsolidatedData(ctx, "changes-requested-reviews-by").Success?
    ensures login in GetConsolidatedData(ctx, "approved-reviews-by").value.items <==>
              LatestVerdict(ctx, login).Some? && LatestVerdict(ctx, login).value.state == Approved
    ensures login in GetConsolidatedData(ctx, "dismissed-reviews-by").value.items <==>
              LatestVerdict(ctx, login).Some? && LatestVerdict(ctx, login).value.state == Dismissed
    ensures login in GetConsolidatedData(ctx, "changes-requested-reviews-by").value.items <==>
              LatestVerdict(ctx, login).Some? && LatestVerdict(ctx, login).value.state == ChangesRequested
    ensures NoDuplicates(GetConsolidatedData(ctx, "approved-reviews-by").value.items)
    ensures NoDuplicates(GetConsolidatedData(ctx, "dismissed-reviews-by").value.items)
    ensures NoDuplicates(GetConsolidatedData(ctx, "changes-requested-reviews-by").value.items)
  {
    ReviewersInStateExact(ctx, false, Approved, login);
    ReviewersInStateExact(ctx, false, Dismissed, login);
    ReviewersInStateExact(ctx, false, ChangesRequested, login);
  }

  /** The boolean attributes: `merged` is the merged flag, `closed` holds
      exactly when the state is "closed", `conflict` exactly when the
      mergeable state is "dirty", `draft` and `locked` are the flags of
      those names. */
  lemma BooleanAttributes(ctx: PullContext)
    ensures GetConsolidatedData(ctx, "merged") == Success(VBool(ctx.pull.merged))
    ensures GetConsolidatedData(ctx, "closed").Success? &&
            (GetConsolidatedData(ctx, "closed").value == VBool(true) <==> ctx.pull.state == "closed")
    ensures GetConsolidatedData(ctx, "conflict").Success? &&
            (GetConsolidatedData(ctx, "conflict").value == VBool(true) <==> ctx.pull.mergeableState == Some("dirty"))
    ensures GetConsolidatedData(ctx, "draft") == Success(VBool(ctx.pull.draft))
    ensures GetConsolidatedData(ctx, "locked") == Success(VBool(ctx.pull.locked))
  {
  }

  /** A reviewer is listed under a review state exactly when their latest
      counted review of that kind is in that state: an approval followed
      by a request for changes no longer counts as an approval. */
  lemma ReviewersInStateExact(ctx: PullContext, comment: bool, state: ReviewState, login: string)
    ensures login in ReviewersInState(ctx, comment, state) <==>
      var latest := LatestOf(ctx.reviews, ValidUserIds(ctx.reviews, ctx.permission), comment, login);
      latest.Some? && latest.value.state == state
    ensures NoDuplicates(ReviewersInState(ctx, comment, state))
    ensures IsSubsequence(ReviewersInState(ctx, comment, state),
                          Keys(ConsolidatedByLogin(ctx.reviews, ctx.permission, comment)))
  {
    var d := ConsolidatedByLogin(ctx.reviews, ctx.permission, comment);
    ConsolidatedShape(ctx.reviews, ctx.permission, comment);
    KeysWhereGet(d, (r: Review) => r.state == state, login);
    KeysWhereNoDuplicates(d, (r: Review) => r.state == state);
    LatestReviewWins(ctx.reviews, ctx.permission, comment, login);
  }

  /** `approved-reviews-by` lists the trusted reviewers whose latest
      verdict is an approval. */
  lemma ApprovedReviewersExact(ctx: PullContext, login: string)
    ensures GetConsolidatedData(ctx, "approved-reviews-by").Success?
    ensures login in GetConsolidatedData(ctx, "approved-reviews-by").value.items <==>
      var latest := LatestOf(ctx.reviews, ValidUserIds(ctx.reviews, ctx.permission), false, login);
      latest.Some? && latest.value.state == Approved
  {
    ReviewersInStateExact(ctx, false, Approved, login);
  }

  /** `commented-reviews-by` lists every trusted reviewer who commented,
      whatever their verdict. */
  lemma CommentersExact(ctx: PullContext, login: string)
    ensures GetConsolidatedData(ctx, "commented-reviews-by").Success?
    ensures login in GetConsolidatedData(ctx, "commented-reviews-by").value.items <==>
      LatestOf(ctx.reviews, ValidUserIds(ctx.reviews, ctx.permission), true, login).Some?
    ensures NoDuplicates(GetConsolidatedData(ctx, "commented-reviews-by").value.items)
  {
    ReviewersInStateExact(ctx, true, Commented, login);
    LatestCommentIsComment(ctx.reviews, ValidUserIds(ctx.reviews, ctx.permission), login);
  }

  lemma {:induction false} LatestCommentIsComment(reviews: seq<Review>, valid: set<int>, login: string)
    ensures var latest := LatestOf(reviews, valid, true, login);
      latest.Some? ==> latest.value.state == Commented
    decreases |reviews|
  {
    if |reviews| > 0 {
      LatestCommentIsComment(reviews[..|reviews| - 1], valid, login);
    }
  }

  /** `review-requested` lists the requested users, then the requested
      teams as mentions. */
  lemma ReviewRequestedExact(ctx: PullContext, x: string)
    ensures GetConsolidatedData(ctx, "review-requested").Success?
    ensures x in GetConsolidatedData(ctx, "review-requested").value.items <==>
      x in ctx.pull.requestedReviewers ||
      (|x| > 0 && x[0] == '@' && x[1..] in ctx.pull.requestedTeams)
  {
    ReviewRequestedList(ctx);
    TeamMentionsMembers(ctx.pull.requestedTeams, x);
  }

  lemma ReviewRequestedList(ctx: PullContext)
    ensures GetConsolidatedData(ctx, "review-requested") ==
      Success(VList(ctx.pull.requestedReviewers + TeamMentions(ctx.pull.requestedTeams)))
  {
  }

  /** The mentions are exactly `@` followed by one of the slugs. */
  lemma TeamMentionsMembers(teams: seq<string>, x: string)
    ensures x in TeamMentions(teams) <==> |x| > 0 && x[0] == '@' && x[1..] in teams
  {
    if |x| > 0 && x[0] == '@' && x[1..] in teams {
      var i :| 0 <= i < |teams| && teams[i] == x[1..];
      assert TeamMentions(teams)[i] == x;
    }
    if x in TeamMentions(teams) {
      var i :| 0 <= i < |teams| && TeamMentions(teams)[i] == x;
      assert x[1..] == teams[i];
    }
  }
}
