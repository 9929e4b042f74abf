/** Properties of the merge train that relate several operations: the
    train invariant is kept by every operation, re-adding and re-removing
    are idempotent, refreshing twice is refreshing once, and cars of a
    train that never landed a head test exactly the prefixes of the queue. */
module TrainProperties {
  import opened Wrappers
  import opened QueueConfig
  import opened MergeTrain

  lemma PullsOfInsertAt(ms: seq<WaitingPull>, k: nat, w: WaitingPull)
    requires k <= |ms|
    ensures PullsOf(InsertAt(ms, k, w)) == PullsOf(ms)[..k] + [w.pull] + PullsOf(ms)[k..]
  {
  }

  lemma PullsOfRemoveAt(ms: seq<WaitingPull>, k: nat)
    requires k < |ms|
    ensures PullsOf(RemoveAt(ms, k)) == PullsOf(ms)[..k] + PullsOf(ms)[k + 1..]
  {
  }

  lemma DistinctInsert(s: seq<PullNumber>, k: nat, p: PullNumber)
    requires k <= |s| && Distinct(s) && p !in s
    ensures Distinct(s[..k] + [p] + s[k..])
  {
    var u := s[..k] + [p] + s[k..];
    forall i, j | 0 <= i < j < |u| ensures u[i] != u[j] {
      if i < k && j > k {
        assert u[i] == s[i] && u[j] == s[j - 1];
      } else if i == k {
        assert u[j] == s[j - 1];
      } else if j == k {
        assert u[i] == s[i];
      } else if i > k {
        assert u[i] == s[i - 1] && u[j] == s[j - 1];
      }
    }
  }

  lemma DistinctRemove(s: seq<PullNumber>, k: nat)
    requires k < |s| && Distinct(s)
    ensures Distinct(s[..k] + s[k + 1..])
    ensures s[k] !in s[..k] + s[k + 1..]
  {
    var u := s[..k] + s[k + 1..];
    forall i, j | 0 <= i < j < |u| ensures u[i] != u[j] {
      if j < k {
      } else if i < k {
        assert u[j] == s[j + 1];
      } else {
        assert u[i] == s[i + 1] && u[j] == s[j + 1];
      }
    }
    forall i | 0 <= i < |u| ensures u[i] != s[k] {
      if i >= k {
        assert u[i] == s[i + 1];
      }
    }
  }

  lemma ChainedPrefix(cars: seq<TrainCar>, m: nat)
    requires m <= |cars| && Chained(cars)
    ensures Chained(cars[..m])
  {
  }

  /** `add_pull` keeps the train invariant. */
  lemma AddPullPreservesValid(t: Train, p: PullNumber, config: PullQueueConfig)
    requires Valid(t)
    ensures Valid(AddPull(t, p, config))
  {
    var r := AddPull(t, p, config);
    var ms := Members(t);
    if p in Pulls(t) {
      var k := IndexOf(ms, p).value;
      assert PullsOf(Members(r)) == PullsOf(ms);
      assert forall i :: 0 < i < |r.cars| ==> r.cars[i].parents == t.cars[i].parents;
      assert forall i :: 0 <= i < |r.cars| ==> r.cars[i].Content() == t.cars[i].Content();
    } else {
      var k := InsertPosition(ms, config.effectivePriority);
      PullsOfInsertAt(ms, k, WaitingPull(p, config));
      DistinctInsert(Pulls(t), k, p);
      ChainedPrefix(t.cars, Min(k, |t.cars|));
    }
  }

  /** `remove_pull` keeps the train invariant, for a merged head as well. */
  lemma RemovePullPreservesValid(t: Train, p: PullNumber, merged: bool)
    requires Valid(t)
    ensures Valid(RemovePull(t, p, merged))
  {
    var r := RemovePull(t, p, merged);
    if p in Pulls(t) {
      var k := IndexOf(Members(t), p).value;
      PullsOfRemoveAt(Members(t), k);
      DistinctRemove(Pulls(t), k);
      if merged && |t.cars| > 0 && t.cars[0].pull == p {
        assert forall i :: 0 <= i < |r.cars| ==> r.cars[i] == t.cars[i + 1];
      } else {
        ChainedPrefix(t.cars, Min(k, |t.cars|));
      }
    }
  }

  lemma ChainedAppend(cars: seq<TrainCar>, added: seq<TrainCar>)
    requires Chained(cars) && Chained(added)
    requires |added| > 0 ==> added[0].parents == LastContent(cars)
    ensures Chained(cars + added)
  {
    var u := cars + added;
    forall i | 0 < i < |u| ensures u[i].parents == u[i - 1].Content() {
      if i < |cars| {
        assert u[i] == cars[i] && u[i - 1] == cars[i - 1];
      } else if i == |cars| {
        assert u[i] == added[0] && u[i - 1] == cars[|cars| - 1];
      } else {
        assert u[i] == added[i - |cars|] && u[i - 1] == added[i - 1 - |cars|];
      }
    }
  }

  /** `refresh` keeps the train invariant. */
  lemma RefreshPreservesValid(t: Train, create: (seq<PullNumber>, PullNumber) -> int)
    requires Valid(t)
    ensures Valid(Refresh(t, create))
  {
    var r := Refresh(t, create);
    var w := Width(t);
    if |t.cars| > w {
      ChainedPrefix(t.cars, w);
    } else {
      var n := Min(w - |t.cars|, |t.waiting|);
      var added := BuildCars(LastContent(t.cars), t.waiting[..n], create);
      assert r.cars == t.cars + added;
      ChainedAppend(t.cars, added);
    }
  }

  /** After `refresh` the train holds as many cars as the head pull's queue
      allows, and a pull waits only when every slot is taken. */
  lemma RefreshWidthBound(t: Train, create: (seq<PullNumber>, PullNumber) -> int)
    ensures |Refresh(t, create).cars| <= Width(t)
    ensures |Refresh(t, create).waiting| > 0 ==> |Refresh(t, create).cars| == Width(t)
    ensures Width(Refresh(t, create)) == Width(t)
  {
    var r := Refresh(t, create);
    assert |Members(r)| == |r.cars| + |r.waiting|;
  }

  /** Refreshing an already refreshed train changes nothing. */
  lemma RefreshIdempotent(t: Train, create: (seq<PullNumber>, PullNumber) -> int)
    ensures Refresh(Refresh(t, create), create) == Refresh(t, create)
  {
    var r := Refresh(t, create);
    var rr := Refresh(r, create);
    assert Width(r) == Width(t);
    assert |Members(r)| == |r.cars| + |r.waiting|;
    assert |rr.cars| == |r.cars|;
    assert rr.cars == rr.cars[..|r.cars|] == r.cars;
    assert Members(rr) == Members(r);
    assert CarsAsWaiting(rr.cars) == CarsAsWaiting(r.cars);
    assert rr.waiting == Members(rr)[|rr.cars|..] == Members(r)[|r.cars|..] == r.waiting;
  }

  lemma IndexOfFirst(ws: seq<WaitingPull>, p: PullNumber, k: nat)
    requires k < |ws| && ws[k].pull == p
    requires forall i :: 0 <= i < k ==> ws[i].pull != p
    ensures IndexOf(ws, p) == Some(k)
  {
    assert PullsOf(ws)[k] == p;
  }

  /** After `add_pull` the pull is queued, and its first queue entry
      carries the configuration just given. */
  lemma AddPullEntry(t: Train, p: PullNumber, c: PullQueueConfig)
    ensures p in Pulls(AddPull(t, p, c))
    ensures Members(AddPull(t, p, c))[IndexOf(Members(AddPull(t, p, c)), p).value] == WaitingPull(p, c)
  {
    var r := AddPull(t, p, c);
    if p !in Pulls(t) {
      var k := InsertPosition(Members(t), c.effectivePriority);
      PullsOfInsertAt(Members(t), k, WaitingPull(p, c));
      assert Pulls(r)[k] == p;
      forall i | 0 <= i < k ensures Members(r)[i].pull != p {
        assert Members(r)[i] == Members(t)[i];
        assert Pulls(t)[i] == Members(t)[i].pull;
      }
      IndexOfFirst(Members(r), p, k);
    } else {
      var k := IndexOf(Members(t), p).value;
      assert Members(r)[k] == WaitingPull(p, c);
      assert Pulls(r)[k] == p;
      IndexOfFirst(Members(r), p, k);
    }
  }

  /** Re-adding a queued pull keeps its position and every car; adding the
      same pull twice is adding it once. */
  lemma AddPullIdempotent(t: Train, p: PullNumber, c: PullQueueConfig, c': PullQueueConfig)
    ensures Pulls(AddPull(AddPull(t, p, c), p, c')) == Pulls(AddPull(t, p, c))
    ensures CarsContent(AddPull(AddPull(t, p, c), p, c')) == CarsContent(AddPull(t, p, c))
    ensures AddPull(AddPull(t, p, c), p, c) == AddPull(t, p, c)
  {
    var r := AddPull(t, p, c);
    AddPullEntry(t, p, c);
    var rr := AddPull(r, p, c);
    assert Members(rr) == Members(r);
    SameMembersSameCars(r, rr);
  }

  /** `add_pull` on a queued pull never moves cars, so two trains with the
      same queue and the same car parents are the same train. */
  lemma SameMembersSameCars(a: Train, b: Train)
    requires Members(a) == Members(b) && |a.cars| == |b.cars|
    requires forall i :: 0 <= i < |a.cars| ==>
               a.cars[i].parents == b.cars[i].parents && a.cars[i].queuePull == b.cars[i].queuePull
    ensures a == b
  {
    assert CarsAsWaiting(a.cars) == Members(a)[..|a.cars|] == CarsAsWaiting(b.cars);
    forall i | 0 <= i < |a.cars| ensures a.cars[i] == b.cars[i] {
      assert CarsAsWaiting(a.cars)[i] == CarsAsWaiting(b.cars)[i];
    }
    assert a.waiting == Members(a)[|a.cars|..];
  }

  /** Removing a pull that is no longer queued changes nothing, whatever its
      merge status. */
  lemma RemovePullIdempotent(t: Train, p: PullNumber, merged: bool, merged': bool)
    requires Valid(t)
    ensures p !in Pulls(RemovePull(t, p, merged))
    ensures RemovePull(RemovePull(t, p, merged), p, merged') == RemovePull(t, p, merged)
  {
    if p in Pulls(t) {
      var k := IndexOf(Members(t), p).value;
      PullsOfRemoveAt(Members(t), k);
      DistinctRemove(Pulls(t), k);
    }
  }

  /** A landed head leaves its pull as the first parent of the next car. */
  lemma MergedHeadStaysParent(t: Train)
    requires Valid(t) && |t.cars| >= 2
    ensures RemovePull(t, t.cars[0].pull, true).cars[0].parents == t.cars[0].Content()
    ensures t.cars[0].pull !in Pulls(RemovePull(t, t.cars[0].pull, true))
  {
    RemovePullIdempotent(t, t.cars[0].pull, true, true);
  }

  /** In a train whose first car has no parents, car `i` tests exactly the
      first `i + 1` queued pulls. */
  lemma {:induction false} RootedCarsArePrefixes(t: Train)
    requires Valid(t) && Rooted(t.cars)
    ensures forall i :: 0 <= i < |t.cars| ==> t.cars[i].Content() == Pulls(t)[..i + 1]
  {
    forall i | 0 <= i < |t.cars| ensures t.cars[i].Content() == Pulls(t)[..i + 1] {
      CarIsPrefix(t, i);
    }
  }

  lemma {:induction false} CarIsPrefix(t: Train, i: nat)
    requires Valid(t) && Rooted(t.cars) && i < |t.cars|
    ensures t.cars[i].Content() == Pulls(t)[..i + 1]
  {
    assert Pulls(t)[i] == t.cars[i].pull;
    if i == 0 {
    } else {
      CarIsPrefix(t, i - 1);
      assert Pulls(t)[..i + 1] == Pulls(t)[..i] + [Pulls(t)[i]];
    }
  }

  /** `add_pull`, an unmerged `remove_pull` and `refresh` never make a
      train rest on a landed pull. */
  lemma RootedPreserved(t: Train, p: PullNumber, config: PullQueueConfig,
                        create: (seq<PullNumber>, PullNumber) -> int)
    requires Rooted(t.cars)
    ensures Rooted(AddPull(t, p, config).cars)
    ensures Rooted(RemovePull(t, p, false).cars)
    ensures Rooted(Refresh(t, create).cars)
  {
    RootedAdd(t, p, config);
    RootedRemove(t, p);
    RootedRefresh(t, create);
  }

  lemma RootedAdd(t: Train, p: PullNumber, config: PullQueueConfig)
    requires Rooted(t.cars)
    ensures Rooted(AddPull(t, p, config).cars)
  {
    var r := AddPull(t, p, config);
    if |r.cars| > 0 {
      if p in Pulls(t) {
        var k := IndexOf(Members(t), p).value;
        assert r.cars == SetConfigAt(t, k, config).cars;
      }
      assert r.cars[0].parents == t.cars[0].parents;
    }
  }

  lemma RootedRemove(t: Train, p: PullNumber)
    requires Rooted(t.cars)
    ensures Rooted(RemovePull(t, p, false).cars)
  {
    var r := RemovePull(t, p, false);
    if |r.cars| > 0 && p in Pulls(t) {
      assert r.cars[0] == t.cars[0];
    }
  }

  lemma RootedRefresh(t: Train, create: (seq<PullNumber>, PullNumber) -> int)
    requires Rooted(t.cars)
    ensures Rooted(Refresh(t, create).cars)
  {
    var r := Refresh(t, create);
    if |t.cars| == 0 && |r.cars| > 0 {
      var n := Min(Width(t), |t.waiting|);
      assert r.cars == BuildCars([], t.waiting[..n], create);
    } else if |t.cars| > 0 && |r.cars| > 0 {
      assert r.cars[0] == t.cars[0];
    }
  }
}
