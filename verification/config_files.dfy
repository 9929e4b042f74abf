/** Where a repository's configuration is looked for: three candidate
    paths, tried in order, with the path that held the configuration last
    time (remembered by the caller) tried first. */
module ConfigFiles {
  import opened Wrappers

  /** `Repository.MERGIFY_CONFIG_FILENAMES`. */
  const MergifyConfigFilenames: seq<string> := [".mergify.yml", ".mergify/config.yml", ".github/mergify.yml"]

  /** `list.remove` of a name that is not a candidate. */
  datatype OrderError = NotACandidate(name: string)

  /** `list.remove`: drops the first occurrence. */
  function RemoveFirst(xs: seq<string>, x: string): (r: seq<string>)
    requires x in xs
    ensures |r| == |xs| - 1
    decreases |xs|
  {
    if xs[0] == x then xs[1..] else [xs[0]] + RemoveFirst(xs[1..], x)
  }

  /** Position of the first occurrence. */
  function IndexOf(xs: seq<string>, x: string): (i: nat)
    requires x in xs
    ensures i < |xs| && xs[i] == x && x !in xs[..i]
    decreases |xs|
  {
    if xs[0] == x then 0 else 1 + IndexOf(xs[1..], x)
  }

  /** The candidate list with a preferred name moved to its front; no
      preference (absent or empty) leaves the list alone. */
  function Prefer(names: seq<string>, preferred: Option<string>): Result<seq<string>, OrderError> {
    if preferred.None? || preferred.value == "" then Success(names)
    else if preferred.value in names then Success([preferred.value] + RemoveFirst(names, preferred.value))
    else Failure(NotACandidate(preferred.value))
  }

  /** The order in which `iter_mergify_config_files` tries the paths. */
  function CandidateOrder(preferred: Option<string>): Result<seq<string>, OrderError> {
    Prefer(MergifyConfigFilenames, preferred)
  }

  /** The paths that hold a file, in the order they are tried. */
  function FoundFiles(order: seq<string>, present: string -> bool): (r: seq<string>)
    ensures forall f :: f in r <==> f in order && present(f)
    decreases |order|
  {
    if |order| == 0 then []
    else if present(order[0]) then [order[0]] + FoundFiles(order[1..], present)
    else FoundFiles(order[1..], present)
  }

  /** The configuration file used: the first path tried that holds one. */
  function ConfigFile(preferred: Option<string>, present: string -> bool): Result<Option<string>, OrderError> {
    match CandidateOrder(preferred)
    case Failure(e) => Failure(e)
    case Success(order) =>
      var found := FoundFiles(order, present);
      Success(if |found| == 0 then None else Some(found[0]))
  }

  // Properties

  /** `list.remove` is undone by inserting the name back at its old
      position. */
  lemma {:induction false} RemoveFirstReinsert(xs: seq<string>, x: string)
    requires x in xs
    ensures var r := RemoveFirst(xs, x); var i := IndexOf(xs, x);
      i <= |r| && r[..i] + [x] + r[i..] == xs
    decreases |xs|
  {
    if xs[0] == x {
      assert [x] + xs[1..] == xs;
    } else {
      RemoveFirstReinsert(xs[1..], x);
      var r' := RemoveFirst(xs[1..], x);
      var i' := IndexOf(xs[1..], x);
      var r := [xs[0]] + r';
      assert r[..i' + 1] == [xs[0]] + r'[..i'];
      assert r[i' + 1..] == r'[i'..];
      assert [xs[0]] + xs[1..] == xs;
    }
  }

  lemma {:induction false} RemoveFirstMultiset(xs: seq<string>, x: string)
    requires x in xs
    ensures multiset(RemoveFirst(xs, x)) + multiset{x} == multiset(xs)
    decreases |xs|
  {
    if xs[0] == x {
      assert xs == [x] + xs[1..];
    } else {
      RemoveFirstMultiset(xs[1..], x);
      assert xs == [xs[0]] + xs[1..];
    }
  }

  /** Preferring a candidate puts it first and is undone by putting it
      back where it was, so the other candidates keep their order; the
      result is a permutation of the candidates. A name that is not a
      candidate is an error, and no preference changes nothing. */
  lemma PreferSpec(names: seq<string>, p: string)
    requires p != ""
    ensures Prefer(names, Some(p)).Success? <==> p in names
    ensures p in names ==>
      var r := Prefer(names, Some(p)).value;
      var i := IndexOf(names, p);
      |r| == |names| && r[0] == p &&
      i < |r| && r[1..][..i] + [p] + r[1..][i..] == names &&
      multiset(r) == multiset(names)
    ensures Prefer(names, None) == Success(names) && Prefer(names, Some("")) == Success(names)
  {
    if p in names {
      var r := Prefer(names, Some(p)).value;
      RemoveFirstReinsert(names, p);
      RemoveFirstMultiset(names, p);
      assert r[1..] == RemoveFirst(names, p);
      assert multiset(r) == multiset{p} + multiset(RemoveFirst(names, p));
    }
  }

  /** A permutation has the same members. */
  lemma PermutationMembers(a: seq<string>, b: seq<string>)
    requires multiset(a) == multiset(b)
    ensures forall f :: f in a <==> f in b
  {
    forall f ensures f in a <==> f in b {
      assert f in a <==> f in multiset(a);
      assert f in b <==> f in multiset(b);
    }
  }

  /** The three candidates are distinct, so each can be preferred. */
  lemma CandidatesDistinct()
    ensures forall i, j :: 0 <= i < j < |MergifyConfigFilenames| ==> MergifyConfigFilenames[i] != MergifyConfigFilenames[j]
  {
    assert |MergifyConfigFilenames[0]| == 12;
    assert |MergifyConfigFilenames[1]| == 19;
    assert |MergifyConfigFilenames[2]| == 19;
    assert MergifyConfigFilenames[1][1] != MergifyConfigFilenames[2][1];
  }

  lemma {:induction false} FoundFirst(order: seq<string>, present: string -> bool)
    ensures var found := FoundFiles(order, present);
      |found| > 0 ==> exists k :: 0 <= k < |order| && order[k] == found[0] && forall j :: 0 <= j < k ==> !present(order[j])
    decreases |order|
  {
    if |order| > 0 && !present(order[0]) {
      FoundFirst(order[1..], present);
      var found := FoundFiles(order, present);
      if |found| > 0 {
        var k :| 0 <= k < |order[1..]| && order[1..][k] == found[0] &&
                 forall j :: 0 <= j < k ==> !present(order[1..][j]);
        assert order[k + 1] == found[0];
        forall j | 0 <= j < k + 1 ensures !present(order[j]) {
          if j > 0 {
            assert order[j] == order[1..][j - 1];
          }
        }
      }
    }
  }

  /** Whatever the preference, the paths tried are exactly the candidates. */
  lemma PreferMembers(names: seq<string>, preferred: Option<string>)
    ensures Prefer(names, preferred).Success? ==>
      forall f :: f in Prefer(names, preferred).value <==> f in names
  {
    if preferred.Some? && preferred.value != "" && preferred.value in names {
      PreferSpec(names, preferred.value);
      PermutationMembers(Prefer(names, preferred).value, names);
    }
  }

  /** The file used is one of the candidates and exists; none is used
      only when no candidate holds a file. */
  lemma ConfigFileSpec(preferred: Option<string>, present: string -> bool)
    ensures var r := ConfigFile(preferred, present);
      r.Success? && r.value.Some? ==> present(r.value.value) && r.value.value in MergifyConfigFilenames
    ensures var r := ConfigFile(preferred, present);
      r.Success? && r.value.None? ==> forall f :: f in MergifyConfigFilenames ==> !present(f)
  {
    PreferMembers(MergifyConfigFilenames, preferred);
    if CandidateOrder(preferred).Success? {
      var found := FoundFiles(CandidateOrder(preferred).value, present);
      if |found| > 0 {
        assert found[0] in found;
      }
    }
  }

  /** A preferred path that holds a file is used, whatever else exists. */
  lemma PreferredFileUsed(p: string, present: string -> bool)
    requires p in MergifyConfigFilenames && present(p)
    ensures ConfigFile(Some(p), present) == Success(Some(p))
  {
  }

  /** A preferred path that holds no file changes nothing: the paths are
      tried as if there were no preference. */
  lemma PreferredFileMissing(p: string, present: string -> bool)
    requires p in MergifyConfigFilenames && !present(p)
    ensures ConfigFile(Some(p), present) == ConfigFile(None, present)
  {
    var order := CandidateOrder(Some(p)).value;
    assert order[1..] == RemoveFirst(MergifyConfigFilenames, p);
    FoundFilesWithoutMissing(MergifyConfigFilenames, p, present);
  }

  /** Dropping a path that holds no file leaves the files found alone. */
  lemma {:induction false} FoundFilesWithoutMissing(xs: seq<string>, x: string, present: string -> bool)
    requires x in xs && !present(x)
    ensures FoundFiles(RemoveFirst(xs, x), present) == FoundFiles(xs, present)
    decreases |xs|
  {
    if xs[0] != x {
      FoundFilesWithoutMissing(xs[1..], x, present);
      assert ([xs[0]] + RemoveFirst(xs[1..], x))[1..] == RemoveFirst(xs[1..], x);
    }
  }

  /** Without a preference, the first path in the fixed order that holds a
      file is used. */
  lemma DefaultOrderUsed(present: string -> bool)
    ensures ConfigFile(None, present).Success?
    ensures var f := ConfigFile(None, present).value;
      f.Some? ==>
        exists k :: 0 <= k < 3 && MergifyConfigFilenames[k] == f.value &&
                    forall j :: 0 <= j < k ==> !present(MergifyConfigFilenames[j])
  {
    FoundFirst(MergifyConfigFilenames, present);
  }
}
