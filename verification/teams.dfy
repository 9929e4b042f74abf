/** Expansion of login lists in rule conditions: `@team` and
    `@organization/team` mentions are replaced by the team's members, when
    the team belongs to the repository's owner and its members can be
    fetched; every other name is kept verbatim. */
module Teams {
  import opened Wrappers

  /** The answer of the team-members endpoint for a slug: the members, a
      client-side HTTP error (unknown team, no permission), or any other
      failure, which is not handled here and propagates. */
  datatype TeamLookup = Members(logins: seq<string>) | ClientError(status: int) | ServerError(detail: string)

  /** The raw condition value: absent, one name, or a list of names. */
  datatype LoginValues = Absent | One(name: string) | Many(names: seq<string>)

  predicate HasSlash(s: string) {
    '/' in s
  }

  /** `str.partition("/")` for a string that contains a slash: the text
      before its first slash and the text after it. */
  function Partition(s: string): (r: (string, string))
    requires HasSlash(s)
    ensures s == r.0 + "/" + r.1
    ensures !HasSlash(r.0)
    decreases |s|
  {
    if s[0] == '/' then ("", s[1..])
    else
      var (before, after) := Partition(s[1..]);
      assert s == [s[0]] + s[1..];
      ([s[0]] + before, after)
  }

  /** The team slug `name` designates, if it is a mention of a team of
      `owner`. */
  function MentionedTeam(name: string, owner: string): Option<string> {
    if name == "" || name[0] != '@' then None
    else if HasSlash(name) then
      var (organization, slug) := Partition(name);
      if slug == "" || HasSlash(slug) then None
      else if organization[1..] != owner then None
      else Some(slug)
    else Some(name[1..])
  }

  /** A mention is `@slug`, or `@owner/slug` with a non-empty slug, and a
      slug never contains a slash. */
  lemma MentionedTeamSpec(name: string, owner: string, slug: string)
    ensures MentionedTeam(name, owner) == Some(slug) <==>
      !HasSlash(slug) &&
      (name == "@" + slug || (slug != "" && !HasSlash(owner) && name == "@" + owner + "/" + slug))
  {
    if slug != "" && !HasSlash(slug) && !HasSlash(owner) && name == "@" + owner + "/" + slug {
      assert name[1 + |owner|] == '/';
      PartitionUnique(name, "@" + owner, slug);
    }
    if MentionedTeam(name, owner) == Some(slug) && HasSlash(name) {
      var (organization, s) := Partition(name);
      assert organization == "@" + organization[1..];
      assert name == "@" + owner + "/" + slug;
    }
  }

  /** A string with a slash splits at its first slash in only one way. */
  lemma {:induction false} PartitionUnique(s: string, before: string, after: string)
    requires s == before + "/" + after && !HasSlash(before)
    ensures HasSlash(s) && Partition(s) == (before, after)
    decreases |s|
  {
    assert s[|before|] == '/';
    if before == "" {
      assert s[1..] == after;
    } else {
      assert s[0] == before[0];
      assert before[0] != '/' by { assert before[0] in before; }
      assert s[1..] == before[1..] + "/" + after;
      assert !HasSlash(before[1..]) by {
        forall i | 0 <= i < |before[1..]| ensures before[1..][i] != '/' {
          assert before[1..][i] == before[i + 1];
          assert before[i + 1] in before;
        }
      }
      PartitionUnique(s[1..], before[1..], after);
      assert [s[0]] + before[1..] == before;
    }
  }

  /** `_resolve_login`: the empty name resolves to nothing; a team mention
      resolves to the team's members, or to the name itself when the
      lookup fails on the client side; any other name is kept. */
  function ResolveLogin(name: string, owner: string, lookup: string -> TeamLookup): Result<seq<string>, string> {
    if name == "" then Success([])
    else
      match MentionedTeam(name, owner)
      case None => Success([name])
      case Some(slug) =>
        match lookup(slug)
        case Members(logins) => Success(logins)
        case ClientError(_) => Success([name])
        case ServerError(detail) => Failure(detail)
  }

  /** Resolves every name in order and concatenates the results; the first
      failing lookup fails the whole list. */
  function ResolveAll(names: seq<string>, owner: string, lookup: string -> TeamLookup): Result<seq<string>, string>
    decreases |names|
  {
    if |names| == 0 then Success([])
    else
      match ResolveLogin(names[0], owner, lookup)
      case Failure(e) => Failure(e)
      case Success(first) =>
        match ResolveAll(names[1..], owner, lookup)
        case Failure(e) => Failure(e)
        case Success(rest) => Success(first + rest)
  }

  /** `resolve_teams`: an absent or empty value resolves to nothing; a
      single name is a list of one. */
  function ResolveTeams(values: LoginValues, owner: string, lookup: string -> TeamLookup): Result<seq<string>, string> {
    match values
    case Absent => Success([])
    case One(name) => if name == "" then Success([]) else ResolveAll([name], owner, lookup)
    case Many(names) => ResolveAll(names, owner, lookup)
  }

  // Properties

  /** A mention of another organisation's team is kept verbatim, never
      looked up. */
  lemma ResolveForeignTeam(org: string, slug: string, owner: string, lookup: string -> TeamLookup)
    requires org != owner && !HasSlash(org)
    ensures ResolveLogin("@" + org + "/" + slug, owner, lookup) == Success(["@" + org + "/" + slug])
  {
    var name := "@" + org + "/" + slug;
    PartitionUnique(name, "@" + org, slug);
    assert ("@" + org)[1..] == org;
  }

  /** A mention of the owner's team resolves to its members, or to the
      mention itself if the endpoint rejects the request. */
  lemma ResolveOwnTeam(slug: string, owner: string, lookup: string -> TeamLookup)
    requires slug != "" && !HasSlash(slug) && !HasSlash(owner)
    ensures lookup(slug).Members? ==> ResolveLogin("@" + owner + "/" + slug, owner, lookup) == Success(lookup(slug).logins)
    ensures lookup(slug).ClientError? ==>
      ResolveLogin("@" + owner + "/" + slug, owner, lookup) == Success(["@" + owner + "/" + slug])
  {
    MentionedTeamSpec("@" + owner + "/" + slug, owner, slug);
  }

  /** The names that need no lookup: the empty name resolves to nothing,
      a name not starting with `@` is kept; a lookup failure other than a
      client-side error fails the resolution. */
  lemma ResolveLoginSimple(name: string, owner: string, lookup: string -> TeamLookup)
    ensures name == "" ==> ResolveLogin(name, owner, lookup) == Success([])
    ensures name != "" && name[0] != '@' ==> ResolveLogin(name, owner, lookup) == Success([name])
    ensures name != "" && MentionedTeam(name, owner).Some? && lookup(MentionedTeam(name, owner).value).ServerError? ==>
      ResolveLogin(name, owner, lookup) == Failure(lookup(MentionedTeam(name, owner).value).detail)
  {
  }

  /** An absent value, an empty name and an empty list resolve to
      nothing. */
  lemma ResolveTeamsEmpty(owner: string, lookup: string -> TeamLookup)
    ensures ResolveTeams(Absent, owner, lookup) == Success([])
    ensures ResolveTeams(One(""), owner, lookup) == Success([])
    ensures ResolveTeams(Many([]), owner, lookup) == Success([])
  {
  }

  /** Resolving a list resolves its parts independently. */
  lemma {:induction false} ResolveAllAppend(xs: seq<string>, ys: seq<string>, owner: string, lookup: string -> TeamLookup)
    ensures ResolveAll(xs + ys, owner, lookup) ==
      match ResolveAll(xs, owner, lookup)
      case Failure(e) => Failure(e)
      case Success(a) =>
        match ResolveAll(ys, owner, lookup)
        case Failure(e) => Failure(e)
        case Success(b) => Success(a + b)
    decreases |xs|
  {
    if |xs| == 0 {
      assert xs + ys == ys;
      if ResolveAll(ys, owner, lookup).Success? {
        assert [] + ResolveAll(ys, owner, lookup).value == ResolveAll(ys, owner, lookup).value;
      }
    } else {
      assert (xs + ys)[1..] == xs[1..] + ys;
      ResolveAllAppend(xs[1..], ys, owner, lookup);
      match ResolveLogin(xs[0], owner, lookup)
      case Failure(_) =>
      case Success(first) =>
        match ResolveAll(xs[1..], owner, lookup)
        case Failure(_) =>
        case Success(rest) =>
          match ResolveAll(ys, owner, lookup)
          case Failure(_) =>
          case Success(b) =>
            assert first + (rest + b) == (first + rest) + b;
    }
  }

  /** A list with no team mention and no empty name resolves to itself. */
  lemma {:induction false} ResolveAllPlain(names: seq<string>, owner: string, lookup: string -> TeamLookup)
    requires forall i :: 0 <= i < |names| ==> names[i] != "" && names[i][0] != '@'
    ensures ResolveAll(names, owner, lookup) == Success(names)
    decreases |names|
  {
    if |names| > 0 {
      ResolveAllPlain(names[1..], owner, lookup);
      assert [names[0]] + names[1..] == names;
    }
  }

  /** A single name resolves as a list holding it. */
  lemma ResolveOneAsList(name: string, owner: string, lookup: string -> TeamLookup)
    ensures ResolveTeams(One(name), owner, lookup) == ResolveTeams(Many([name]), owner, lookup)
  {
    assert [name][1..] == [];
    if name == "" {
      var empty: seq<string> := [];
      assert ResolveLogin(name, owner, lookup) == Success(empty);
      assert ResolveAll([name][1..], owner, lookup) == Success(empty);
      assert empty + empty == empty;
    }
  }
}
