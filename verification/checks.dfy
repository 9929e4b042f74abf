/** The CI state of a pull request's head: check runs (whose conclusion is
    absent while pending) and commit statuses, consolidated into one
    dictionary from check name to state. */
module Checks {
  import opened Wrappers
  import opened OrderedDict

  /** A check run; `conclusion` is `None` while the run is pending. The
      runs of a head come newest first. */
  datatype CheckRun = CheckRun(name: string, conclusion: Option<string>)

  /** A commit status; GitHub keeps one per context. */
  datatype CommitStatus = CommitStatus(context: string, state: string)

  /** Check or status name to its state. */
  type CheckStates = Dict<string, Option<string>>

  function RunPairs(runs: seq<CheckRun>): seq<(string, Option<string>)> {
    seq(|runs|, i requires 0 <= i < |runs| => (runs[i].name, runs[i].conclusion))
  }

  function StatusPairs(statuses: seq<CommitStatus>): seq<(string, Option<string>)> {
    seq(|statuses|, i requires 0 <= i < |statuses| => (statuses[i].context, Some(statuses[i].state)))
  }

  /** `checks`: the runs, oldest first so that the newest run of a name
      wins, then the statuses over them. */
  function ConsolidatedChecks(runs: seq<CheckRun>, statuses: seq<CommitStatus>): (r: CheckStates)
    ensures DistinctKeys(r)
  {
    PutAllDistinct([], Reverse(RunPairs(runs)));
    PutAllDistinct(FromPairs(Reverse(RunPairs(runs))), StatusPairs(statuses));
    PutAll(FromPairs(Reverse(RunPairs(runs))), StatusPairs(statuses))
  }

  // Reference definitions

  /** The newest run of that name. */
  function NewestRun(runs: seq<CheckRun>, name: string): Option<CheckRun>
    decreases |runs|
  {
    if |runs| == 0 then None
    else if runs[0].name == name then Some(runs[0])
    else NewestRun(runs[1..], name)
  }

  /** The last status reported for that context. */
  function LastStatus(statuses: seq<CommitStatus>, context: string): Option<CommitStatus>
    decreases |statuses|
  {
    if |statuses| == 0 then None
    else if statuses[|statuses| - 1].context == context then Some(statuses[|statuses| - 1])
    else LastStatus(statuses[..|statuses| - 1], context)
  }

  /** The state consolidation reports for `name`: a status overrides
      every check run; otherwise the newest run's conclusion; absent when
      nothing reported under that name. */
  function ExpectedState(runs: seq<CheckRun>, statuses: seq<CommitStatus>, name: string): Option<Option<string>> {
    match LastStatus(statuses, name)
    case Some(s) => Some(Some(s.state))
    case None =>
      match NewestRun(runs, name)
      case Some(c) => Some(c.conclusion)
      case None => None
  }

  lemma {:induction false} NewestRunIsFirstPair(runs: seq<CheckRun>, name: string)
    ensures FirstValue(RunPairs(runs), name) ==
              match NewestRun(runs, name) case Some(c) => Some(c.conclusion) case None => None
    decreases |runs|
  {
    if |runs| > 0 {
      assert RunPairs(runs)[1..] == RunPairs(runs[1..]);
      NewestRunIsFirstPair(runs[1..], name);
    }
  }

  lemma {:induction false} LastStatusIsLastPair(statuses: seq<CommitStatus>, context: string)
    ensures LastValue(StatusPairs(statuses), context) ==
              match LastStatus(statuses, context) case Some(s) => Some(Some(s.state)) case None => None
    decreases |statuses|
  {
    if |statuses| > 0 {
      var n := |statuses| - 1;
      assert StatusPairs(statuses)[..n] == StatusPairs(statuses[..n]);
      LastStatusIsLastPair(statuses[..n], context);
    }
  }

  /** Precedence of the consolidated state: a status beats every check run
      of the same name, and among runs the newest wins. */
  lemma ChecksPrecedence(runs: seq<CheckRun>, statuses: seq<CommitStatus>, name: string)
    ensures Get(ConsolidatedChecks(runs, statuses), name) == ExpectedState(runs, statuses, name)
  {
    var base := FromPairs(Reverse(RunPairs(runs)));
    PutAllGet(base, StatusPairs(statuses), name);
    LastStatusIsLastPair(statuses, name);
    FromPairsGet(Reverse(RunPairs(runs)), name);
    LastValueReverse(RunPairs(runs), name);
    NewestRunIsFirstPair(runs, name);
  }

  /** The names whose consolidated state is `state`, in dictionary order
      (the `check-…`/`status-…` attributes). */
  function NamesInState(runs: seq<CheckRun>, statuses: seq<CommitStatus>, state: string): seq<string> {
    KeysWhere(ConsolidatedChecks(runs, statuses), (s: Option<string>) => s == Some(state))
  }

  /** A name is listed exactly when its status, or failing one its newest
      check run, is in that state; a pending run is in no state. Each name
      is listed once, in the order of the consolidated dictionary. */
  lemma NamesInStateExact(runs: seq<CheckRun>, statuses: seq<CommitStatus>, state: string, name: string)
    ensures name in NamesInState(runs, statuses, state) <==>
              (LastStatus(statuses, name).Some? && LastStatus(statuses, name).value.state == state) ||
              (LastStatus(statuses, name).None? && NewestRun(runs, name).Some? &&
               NewestRun(runs, name).value.conclusion == Some(state))
    ensures NoDuplicates(NamesInState(runs, statuses, state))
    ensures IsSubsequence(NamesInState(runs, statuses, state), Keys(ConsolidatedChecks(runs, statuses)))
  {
    KeysWhereGet(ConsolidatedChecks(runs, statuses), (s: Option<string>) => s == Some(state), name);
    KeysWhereNoDuplicates(ConsolidatedChecks(runs, statuses), (s: Option<string>) => s == Some(state));
    ChecksPrecedence(runs, statuses, name);
  }

  /** The runs reported under `name`, in list order, duplicates kept. */
  function OfName(runs: seq<CheckRun>, name: string): seq<CheckRun>
    decreases |runs|
  {
    if |runs| == 0 then []
    else (if runs[0].name == name then [runs[0]] else []) + OfName(runs[1..], name)
  }

  /** `update_pull_check_runs`: a newly reported run replaces every cached
      run of the same name; the runs of every other name stay as they
      were, in the same order. */
  function UpdateCheckRuns(runs: seq<CheckRun>, check: CheckRun): (r: seq<CheckRun>)
    ensures forall n :: OfName(r, n) == if n == check.name then [check] else OfName(runs, n)
  {
    var kept := WithoutName(runs, check.name);
    OfNameAppend(kept, [check]);
    assert forall n :: OfName([check], n) == if n == check.name then [check] else [] by {
      forall n ensures OfName([check], n) == if n == check.name then [check] else [] {
        assert [check][1..] == [];
      }
    }
    kept + [check]
  }

  /** The list comprehension of `update_pull_check_runs`: drops the runs
      named `name` and keeps every other run in order. */
  function WithoutName(runs: seq<CheckRun>, name: string): (r: seq<CheckRun>)
    ensures forall c :: c in r <==> c in runs && c.name != name
    ensures forall n :: OfName(r, n) == if n == name then [] else OfName(runs, n)
    decreases |runs|
  {
    if |runs| == 0 then []
    else
      var rest := WithoutName(runs[1..], name);
      if runs[0].name == name then rest
      else
        assert ([runs[0]] + rest)[1..] == rest;
        [runs[0]] + rest
  }

  lemma {:induction false} OfNameAppend(a: seq<CheckRun>, b: seq<CheckRun>)
    ensures forall n :: OfName(a + b, n) == OfName(a, n) + OfName(b, n)
    decreases |a|
  {
    if |a| == 0 {
      assert a + b == b;
    } else {
      assert (a + b)[1..] == a[1..] + b;
      OfNameAppend(a[1..], b);
    }
  }

  /** The newest run of a name is the first run reported under it. */
  lemma {:induction false} NewestRunOfName(runs: seq<CheckRun>, name: string)
    ensures NewestRun(runs, name) == if OfName(runs, name) == [] then None else Some(OfName(runs, name)[0])
    decreases |runs|
  {
    if |runs| > 0 {
      NewestRunOfName(runs[1..], name);
    }
  }

  /** Reporting a run changes the consolidated state of no other name. */
  lemma UpdateKeepsOtherNames(runs: seq<CheckRun>, statuses: seq<CommitStatus>, check: CheckRun, name: string)
    requires name != check.name
    ensures Get(ConsolidatedChecks(UpdateCheckRuns(runs, check), statuses), name) ==
              Get(ConsolidatedChecks(runs, statuses), name)
  {
    ChecksPrecedence(UpdateCheckRuns(runs, check), statuses, name);
    ChecksPrecedence(runs, statuses, name);
    NewestRunOfName(UpdateCheckRuns(runs, check), name);
    NewestRunOfName(runs, name);
  }

  /** Exactly one run carries the reported name afterwards, the reported
      one, at the end; the other runs are kept, each name's runs in their
      order, and a second report of the same run changes nothing. */
  lemma UpdateCheckRunsReplaces(runs: seq<CheckRun>, check: CheckRun)
    ensures var r := UpdateCheckRuns(runs, check);
      r[|r| - 1] == check &&
      (forall i :: 0 <= i < |r| - 1 ==> r[i].name != check.name) &&
      (forall c :: c in runs && c.name != check.name ==> c in r) &&
      (forall c :: c in r ==> c in runs || c == check) &&
      (forall n :: n != check.name ==> OfName(r, n) == OfName(runs, n)) &&
      UpdateCheckRuns(r, check) == r
  {
    var r := UpdateCheckRuns(runs, check);
    var kept := WithoutName(runs, check.name);
    forall i | 0 <= i < |r| - 1 ensures r[i].name != check.name {
      assert r[i] in kept;
    }
    WithoutNameAbsent(kept, check.name);
    WithoutNameAppend(kept, [check], check.name);
  }

  lemma {:induction false} WithoutNameAppend(a: seq<CheckRun>, b: seq<CheckRun>, name: string)
    ensures WithoutName(a + b, name) == WithoutName(a, name) + WithoutName(b, name)
    decreases |a|
  {
    if |a| > 0 {
      assert (a + b)[1..] == a[1..] + b;
      WithoutNameAppend(a[1..], b, name);
    } else {
      assert a + b == b;
    }
  }

  lemma {:induction false} WithoutNameAbsent(runs: seq<CheckRun>, name: string)
    requires forall c :: c in runs ==> c.name != name
    ensures WithoutName(runs, name) == runs
    decreases |runs|
  {
    if |runs| > 0 {
      WithoutNameAbsent(runs[1..], name);
    }
  }

  /** After an update, the reported run decides the state of its name
      unless a status of that name overrides it. */
  lemma UpdatedRunDecides(runs: seq<CheckRun>, statuses: seq<CommitStatus>, check: CheckRun)
    ensures LastStatus(statuses, check.name).None? ==>
      Get(ConsolidatedChecks(UpdateCheckRuns(runs, check), statuses), check.name) == Some(check.conclusion)
  {
    ChecksPrecedence(UpdateCheckRuns(runs, check), statuses, check.name);
    NewestRunAfterUpdate(runs, check);
  }

  lemma {:induction false} NewestRunAfterUpdate(runs: seq<CheckRun>, check: CheckRun)
    ensures NewestRun(UpdateCheckRuns(runs, check), check.name) == Some(check)
    decreases |runs|
  {
    if |runs| > 0 {
      NewestRunAfterUpdate(runs[1..], check);
      if runs[0].name != check.name {
        assert UpdateCheckRuns(runs, check)[1..] == UpdateCheckRuns(runs[1..], check);
      }
    }
  }
}
