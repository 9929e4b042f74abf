/** Review consolidation: only reviews by bots or by users with write
    access count, and only the latest review of each user, comments and
    verdicts being tracked apart. */
module Reviews {
  import opened Wrappers
  import opened OrderedDict

  /** A GitHub account; `kind` is its type, such as "User" or "Bot". */
  datatype User = User(id: int, login: string, kind: string)

  datatype ReviewState = Approved | ChangesRequested | Commented | Dismissed | Pending

  /** A review; the author is absent for deleted accounts. */
  datatype Review = Review(user: Option<User>, state: ReviewState)

  /** The permission level of an account on the repository, as the
      collaborator-permission endpoint (or its cache) reports it. */
  type PermissionOracle = User -> string

  /** `has_write_permission`. */
  predicate HasWritePermission(permission: string) {
    permission in ["admin", "maintain", "write"]
  }

  /** The author is a bot or may write to the repository. */
  predicate Trusted(u: User, permission: PermissionOracle) {
    u.kind == "Bot" || HasWritePermission(permission(u))
  }

  /** `_get_valid_user_ids`. */
  function ValidUserIds(reviews: seq<Review>, permission: PermissionOracle): set<int> {
    set i | 0 <= i < |reviews| && reviews[i].user.Some? && Trusted(reviews[i].user.value, permission)
      :: reviews[i].user.value.id
  }

  type ByLogin = Dict<string, Review>

  /** The loop of `consolidated_reviews` over `reviews`, starting from the
      dictionaries `comments` and `verdicts`. */
  function Consolidate(reviews: seq<Review>, valid: set<int>, comments: ByLogin, verdicts: ByLogin): (ByLogin, ByLogin)
    decreases |reviews|
  {
    if |reviews| == 0 then (comments, verdicts)
    else
      var r := reviews[0];
      if r.user.None? || r.user.value.id !in valid then
        Consolidate(reviews[1..], valid, comments, verdicts)
      else if r.state == Commented then
        Consolidate(reviews[1..], valid, Put(comments, r.user.value.login, r), verdicts)
      else
        Consolidate(reviews[1..], valid, comments, Put(verdicts, r.user.value.login, r))
  }

  /** `consolidated_reviews`: the latest comment and the latest verdict of
      every trusted author. */
  function ConsolidatedReviews(reviews: seq<Review>, permission: PermissionOracle): (r: (seq<Review>, seq<Review>)) {
    var (comments, verdicts) := Consolidate(reviews, ValidUserIds(reviews, permission), [], []);
    (Values(comments), Values(verdicts))
  }

  // Reference definitions

  /** A review counts when its author's id is a valid one. */
  predicate Counts(r: Review, valid: set<int>) {
    r.user.Some? && r.user.value.id in valid
  }

  /** The counted reviews of one kind, keyed by login, in order. */
  function Keyed(reviews: seq<Review>, valid: set<int>, comment: bool): (ps: seq<(string, Review)>)
    ensures forall i :: 0 <= i < |ps| ==>
      Counts(ps[i].1, valid) && ps[i].1.user.value.login == ps[i].0 && (ps[i].1.state == Commented) == comment
    ensures forall r :: r in reviews && Counts(r, valid) && (r.state == Commented) == comment ==>
      (r.user.value.login, r) in ps
    decreases |reviews|
  {
    if |reviews| == 0 then []
    else
      var r := reviews[0];
      var rest := Keyed(reviews[1..], valid, comment);
      if Counts(r, valid) && (r.state == Commented) == comment then [(r.user.value.login, r)] + rest
      else rest
  }

  /** The loop builds both dictionaries as two independent comprehensions
      over the counted reviews. */
  lemma {:induction false} ConsolidateSplits(reviews: seq<Review>, valid: set<int>, comments: ByLogin, verdicts: ByLogin)
    ensures Consolidate(reviews, valid, comments, verdicts) ==
      (PutAll(comments, Keyed(reviews, valid, true)), PutAll(verdicts, Keyed(reviews, valid, false)))
    decreases |reviews|
  {
    if |reviews| > 0 {
      var r := reviews[0];
      if r.user.None? || r.user.value.id !in valid {
        ConsolidateSplits(reviews[1..], valid, comments, verdicts);
      } else if r.state == Commented {
        var c := Put(comments, r.user.value.login, r);
        ConsolidateSplits(reviews[1..], valid, c, verdicts);
        PutAllCons(comments, (r.user.value.login, r), Keyed(reviews[1..], valid, true));
      } else {
        var v := Put(verdicts, r.user.value.login, r);
        ConsolidateSplits(reviews[1..], valid, comments, v);
        PutAllCons(verdicts, (r.user.value.login, r), Keyed(reviews[1..], valid, false));
      }
    }
  }

  /** Assignments of a list after one more assignment at its head. */
  lemma {:induction false} PutAllCons<K(!new), V>(d: Dict<K, V>, p: (K, V), ps: seq<(K, V)>)
    ensures PutAll(d, [p] + ps) == PutAll(Put(d, p.0, p.1), ps)
    decreases |ps|
  {
    if |ps| == 0 {
      assert ([p] + ps)[..0] == [];
    } else {
      var n := |ps| - 1;
      assert ([p] + ps)[..n + 1] == [p] + ps[..n];
      PutAllCons(d, p, ps[..n]);
    }
  }

  /** The consolidated list of one kind, as a dictionary by login. */
  function ConsolidatedByLogin(reviews: seq<Review>, permission: PermissionOracle, comment: bool): ByLogin {
    FromPairs(Keyed(reviews, ValidUserIds(reviews, permission), comment))
  }

  lemma ConsolidatedReviewsSplit(reviews: seq<Review>, permission: PermissionOracle)
    ensures ConsolidatedReviews(reviews, permission) ==
      (Values(ConsolidatedByLogin(reviews, permission, true)), Values(ConsolidatedByLogin(reviews, permission, false)))
  {
    ConsolidateSplits(reviews, ValidUserIds(reviews, permission), [], []);
  }

  /** A review counts iff some trusted author among the reviews has its
      author's id; in particular every review by a trusted author counts. */
  lemma ValidUserIdsExact(reviews: seq<Review>, permission: PermissionOracle, r: Review)
    ensures Counts(r, ValidUserIds(reviews, permission)) <==>
      r.user.Some? &&
      (exists i :: 0 <= i < |reviews| && reviews[i].user.Some? &&
                   Trusted(reviews[i].user.value, permission) && reviews[i].user.value.id == r.user.value.id)
    ensures r in reviews && r.user.Some? && Trusted(r.user.value, permission) ==>
      Counts(r, ValidUserIds(reviews, permission))
  {
    if r in reviews && r.user.Some? && Trusted(r.user.value, permission) {
      var i :| 0 <= i < |reviews| && reviews[i] == r;
    }
  }

  /** The last counted review of `login` of one kind. */
  function LatestOf(reviews: seq<Review>, valid: set<int>, comment: bool, login: string): Option<Review>
    decreases |reviews|
  {
    if |reviews| == 0 then None
    else
      var r := reviews[|reviews| - 1];
      if Counts(r, valid) && (r.state == Commented) == comment && r.user.value.login == login then Some(r)
      else LatestOf(reviews[..|reviews| - 1], valid, comment, login)
  }

  lemma {:induction false} KeyedLast(reviews: seq<Review>, valid: set<int>, comment: bool, login: string)
    ensures LastValue(Keyed(reviews, valid, comment), login) == LatestOf(reviews, valid, comment, login)
    decreases |reviews|
  {
    if |reviews| > 0 {
      var n := |reviews| - 1;
      var r := reviews[n];
      var ks := Keyed(reviews[..n], valid, comment);
      KeyedSnoc(reviews[..n], r, valid, comment);
      assert reviews == reviews[..n] + [r];
      KeyedLast(reviews[..n], valid, comment, login);
      if Counts(r, valid) && (r.state == Commented) == comment {
        assert (ks + [(r.user.value.login, r)])[..|ks|] == ks;
      } else {
        assert ks + [] == ks;
      }
    }
  }

  lemma {:induction false} KeyedSnoc(reviews: seq<Review>, r: Review, valid: set<int>, comment: bool)
    ensures Keyed(reviews + [r], valid, comment) ==
      Keyed(reviews, valid, comment) +
      (if Counts(r, valid) && (r.state == Commented) == comment then [(r.user.value.login, r)] else [])
    decreases |reviews|
  {
    if |reviews| == 0 {
      assert (reviews + [r])[1..] == [];
    } else {
      assert (reviews + [r])[1..] == reviews[1..] + [r];
      KeyedSnoc(reviews[1..], r, valid, comment);
    }
  }

  /** Each author keeps exactly their latest counted review of each kind. */
  lemma LatestReviewWins(reviews: seq<Review>, permission: PermissionOracle, comment: bool, login: string)
    ensures Get(ConsolidatedByLogin(reviews, permission, comment), login) ==
      LatestOf(reviews, ValidUserIds(reviews, permission), comment, login)
  {
    var valid := ValidUserIds(reviews, permission);
    FromPairsGet(Keyed(reviews, valid, comment), login);
    KeyedLast(reviews, valid, comment, login);
  }

  /** Every consolidated review is counted, of the right kind, and filed
      under its own author's login, and no login appears twice; every
      counted review's author is represented. */
  lemma ConsolidatedShape(reviews: seq<Review>, permission: PermissionOracle, comment: bool)
    ensures var d := ConsolidatedByLogin(reviews, permission, comment);
      DistinctKeys(d) &&
      (forall i :: 0 <= i < |d| ==>
        Counts(d[i].1, ValidUserIds(reviews, permission)) &&
        d[i].1.user.value.login == d[i].0 && (d[i].1.state == Commented) == comment) &&
      (forall r ::
        (r in reviews && r.user.Some? && Trusted(r.user.value, permission) && (r.state == Commented) == comment) ==>
        r.user.value.login in Keys(d))
  {
    var valid := ValidUserIds(reviews, permission);
    var ps := Keyed(reviews, valid, comment);
    var d := FromPairs(ps);
    PutAllDistinct([], ps);
    PutAllEntries([], ps);
    forall i | 0 <= i < |d|
      ensures Counts(d[i].1, valid) && d[i].1.user.value.login == d[i].0 && (d[i].1.state == Commented) == comment
    {
      assert d[i] in d;
      var j :| 0 <= j < |ps| && ps[j] == d[i];
    }
    forall r | r in reviews && r.user.Some? && Trusted(r.user.value, permission) && (r.state == Commented) == comment
      ensures r.user.value.login in Keys(d)
    {
      ValidUserIdsExact(reviews, permission, r);
      assert (r.user.value.login, r) in ps;
      PutAllKeysMembers([], ps, r.user.value.login);
      var i :| 0 <= i < |ps| && ps[i] == (r.user.value.login, r);
      assert Keys(ps)[i] == r.user.value.login;
    }
  }

  /** Every entry of a dictionary built by assignments comes from one of
      the assigned pairs, or was there before. */
  lemma {:induction false} PutAllEntries<K(!new), V>(d: Dict<K, V>, ps: seq<(K, V)>)
    ensures forall e :: e in PutAll(d, ps) ==> e in d || e in ps
    decreases |ps|
  {
    if |ps| > 0 {
      var n := |ps| - 1;
      PutAllEntries(d, ps[..n]);
      PutEntries(PutAll(d, ps[..n]), ps[n].0, ps[n].1);
    }
  }

  lemma PutEntries<K(!new), V>(d: Dict<K, V>, k: K, v: V)
    ensures forall e :: e in Put(d, k, v) ==> e in d || e == (k, v)
  {
  }
}
