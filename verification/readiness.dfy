/** Whether the pull request data at hand can be trusted: it must carry
    the fields that listings omit, and GitHub must have finished computing
    its mergeability. */
module Readiness {
  import opened Wrappers

  /** A JSON value of a pull request field, as far as readiness looks. */
  datatype Raw = RNull | RStr(s: string) | RBool(b: bool) | ROther

  /** The raw pull request: a JSON object that may lack fields. */
  type RawPull = map<string, Raw>

  /** Reading a field the object lacks. */
  datatype KeyError = KeyError(field: string)

  /** The fields a complete pull request carries. */
  const FieldsToControl: seq<string> := ["state", "mergeable_state", "merged_by", "merged", "merged_at"]

  /** Mergeability states meaning GitHub has not finished. */
  const UnusableStates: seq<Raw> := [RStr("unknown"), RNull]

  /** Every controlled field is present. */
  predicate Complete(pull: RawPull) {
    forall i :: 0 <= i < |FieldsToControl| ==> FieldsToControl[i] in pull
  }

  /** `_is_data_complete`: stops at the first missing field. */
  method IsDataComplete(pull: RawPull) returns (complete: bool)
    ensures complete <==> forall f :: f in FieldsToControl ==> f in pull
  {
    var i := 0;
    while i < |FieldsToControl|
      invariant 0 <= i <= |FieldsToControl|
      invariant forall j :: 0 <= j < i ==> FieldsToControl[j] in pull
    {
      if FieldsToControl[i] !in pull {
        return false;
      }
      i := i + 1;
    }
    return true;
  }

  /** `_is_background_github_processing_completed`: a closed pull request
      is done; otherwise its mergeable state must be usable. Reading a
      missing field fails as the dictionary lookup does. */
  function ProcessingCompleted(pull: RawPull): (r: Result<bool, KeyError>)
    ensures r.Failure? ==> r.error.field in FieldsToControl
  {
    if "state" !in pull then Failure(KeyError("state"))
    else if pull["state"] == RStr("closed") then Success(true)
    else if "mergeable_state" !in pull then Failure(KeyError("mergeable_state"))
    else Success(pull["mergeable_state"] !in UnusableStates)
  }

  /** Complete data never fails the readiness check, and processing is
      done exactly when the pull request is closed or its mergeable state
      is neither null nor "unknown". */
  lemma ProcessingCompletedExact(pull: RawPull)
    requires Complete(pull)
    ensures ProcessingCompleted(pull).Success?
    ensures ProcessingCompleted(pull).value <==>
      pull["state"] == RStr("closed") ||
      (pull["mergeable_state"] != RNull && pull["mergeable_state"] != RStr("unknown"))
  {
    assert FieldsToControl[0] in pull && FieldsToControl[1] in pull;
  }

  /** A closed pull request is done even when its mergeable state is
      missing; an open one with a missing state cannot be judged. */
  lemma ClosedNeedsNoMergeableState(pull: RawPull)
    requires "state" in pull
    ensures pull["state"] == RStr("closed") ==> ProcessingCompleted(pull) == Success(true)
    ensures pull["state"] != RStr("closed") && "mergeable_state" !in pull ==>
      ProcessingCompleted(pull) == Failure(KeyError("mergeable_state"))
  {
  }

  datatype EnsureError = MergeableStateUnknown | Missing(field: string)

  /** One attempt of `_ensure_complete`: data that is incomplete or not yet
      processed is replaced by a fresh copy (`fetched`), which must then be
      processed. */
  function EnsureCompleteOnce(pull: RawPull, fetched: RawPull): (r: Result<RawPull, EnsureError>)
  {
    var current := if Complete(pull) && ProcessingCompleted(pull) == Success(true) then pull else fetched;
    match ProcessingCompleted(current)
    case Failure(e) => Failure(Missing(e.field))
    case Success(done) => if done then Success(current) else Failure(MergeableStateUnknown)
  }

  /** An attempt succeeds only with processed data; data that is already
      complete and processed is kept without refetching; a fetched copy
      still being processed is reported as unknown mergeability. */
  lemma EnsureCompleteOnceSpec(pull: RawPull, fetched: RawPull)
    ensures EnsureCompleteOnce(pull, fetched).Success? ==>
      ProcessingCompleted(EnsureCompleteOnce(pull, fetched).value) == Success(true)
    ensures Complete(pull) && ProcessingCompleted(pull) == Success(true) ==>
      EnsureCompleteOnce(pull, fetched) == Success(pull)
    ensures !(Complete(pull) && ProcessingCompleted(pull) == Success(true)) && Complete(fetched) ==>
      EnsureCompleteOnce(pull, fetched) ==
        if ProcessingCompleted(fetched).value then Success(fetched) else Failure(MergeableStateUnknown)
  {
    if Complete(fetched) {
      ProcessingCompletedExact(fetched);
    }
  }
}
