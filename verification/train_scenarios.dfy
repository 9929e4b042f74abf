/** The merge-train unit scenarios, replayed on the model. Two queue rules
    are configured: "two" (train width 2) ranked above "five" (train
    width 5). A car's throwaway pull request is numbered after its own pull
    plus ten, as the scenarios' stand-in materializer does.

    Each step lemma below performs one operation on one explicit train;
    the scenario lemmas chain the steps and state what the scenarios
    assert. */
module TrainScenarios {
  import opened Wrappers
  import opened QueueConfig
  import opened MergeTrain
  import opened TrainStore

  const Offset: nat := 10000

  const RuleTwo: QueueRule := QueueRule("two", 2, 2)
  const RuleFive: QueueRule := QueueRule("five", 1, 5)

  /** `get_config(queue_name, priority)`. */
  function GetConfig(rule: QueueRule, priority: int): PullQueueConfig {
    MakeConfig(rule, priority, Offset)
  }

  /** The stand-in materializer: the throwaway pull of a car is its own
      pull number plus ten. */
  function FakeCreate(parents: seq<PullNumber>, pull: PullNumber): int {
    pull + 10
  }

  function Sync(t: Train): Train {
    Refresh(t, FakeCreate)
  }

  function Car(parents: seq<PullNumber>, p: PullNumber, c: PullQueueConfig): TrainCar {
    TrainCar(parents, p, c, p + 10)
  }

  function W(p: PullNumber, c: PullQueueConfig): WaitingPull {
    WaitingPull(p, c)
  }

  const Key: StoreKey := StoreKey(123, "branch")

  /** Saving a train and loading it back in a fresh session. */
  function Reload(t: Train): Result<Train, LoadError> {
    Load(Save(map[], Key, t), Key)
  }

  // Generic steps

  /** A new pull ranked no higher than any queued one is appended to the
      waiting list; the cars are left alone. */
  lemma AddLowest(t: Train, p: PullNumber, c: PullQueueConfig)
    requires p !in Pulls(t)
    requires forall i :: 0 <= i < |Members(t)| ==> Members(t)[i].config.effectivePriority >= c.effectivePriority
    ensures AddPull(t, p, c) == Train(t.cars, t.waiting + [W(p, c)])
  {
    var r := AddPull(t, p, c);
    assert InsertPosition(Members(t), c.effectivePriority) == |Members(t)|;
    assert CarsAsWaiting(r.cars) + r.waiting == CarsAsWaiting(t.cars) + (t.waiting + [W(p, c)]);
  }

  /** The same, with the rank condition stated on the cars and the waiting
      list separately. */
  lemma AppendLowest(t: Train, p: PullNumber, c: PullQueueConfig)
    requires forall i :: 0 <= i < |t.cars| ==>
               t.cars[i].pull != p && t.cars[i].config.effectivePriority >= c.effectivePriority
    requires forall i :: 0 <= i < |t.waiting| ==>
               t.waiting[i].pull != p && t.waiting[i].config.effectivePriority >= c.effectivePriority
    ensures AddPull(t, p, c) == Train(t.cars, t.waiting + [W(p, c)])
  {
    var ms := Members(t);
    forall i | 0 <= i < |ms|
      ensures ms[i].pull != p && ms[i].config.effectivePriority >= c.effectivePriority
    {
      if i < |t.cars| {
        assert ms[i] == t.cars[i].AsWaiting();
      } else {
        assert ms[i] == t.waiting[i - |t.cars|];
      }
    }
    AddLowest(t, p, c);
  }

  /** A train with nothing waiting and no excess car is left as it is. */
  lemma SyncNothingWaiting(t: Train)
    requires t.waiting == [] && |t.cars| <= Width(t)
    ensures Sync(t) == t
  {
    var r := Sync(t);
    assert r.cars[..|t.cars|] == t.cars;
    assert CarsAsWaiting(r.cars) + r.waiting == CarsAsWaiting(t.cars);
  }

  /** A train whose cars fill its width is left as it is. */
  lemma SyncFull(t: Train)
    requires |t.cars| == Width(t)
    ensures Sync(t) == t
  {
    var r := Sync(t);
    assert CarsAsWaiting(r.cars) + r.waiting == CarsAsWaiting(t.cars) + t.waiting;
  }

  /** One free slot and one waiting pull: the pull gets a car extending the
      last one. */
  lemma SyncOne(t: Train, w: WaitingPull)
    requires t.waiting == [w] && |t.cars| < Width(t)
    ensures Sync(t) == Train(t.cars + [Car(LastContent(t.cars), w.pull, w.config)], [])
  {
    assert BuildCars(LastContent(t.cars), [w], FakeCreate) == [Car(LastContent(t.cars), w.pull, w.config)];
  }

  // Steps of the width-5 scenarios, for any configuration `c` of queue "five"

  /** The three-car train [1], [1, 2], [1, 2, 3] with configurations `a`,
      `b`, `c`. */
  function Train123(a: PullQueueConfig, b: PullQueueConfig, c: PullQueueConfig): Train {
    Train([Car([], 1, a), Car([1], 2, b), Car([1, 2], 3, c)], [])
  }

  lemma AddToEmpty(t: Train, p: PullNumber, c: PullQueueConfig)
    requires t == EmptyTrain
    ensures AddPull(t, p, c) == Train([], [W(p, c)])
  {
    assert Members(t) == [];
  }

  lemma SyncFirst(t: Train, p: PullNumber, c: PullQueueConfig)
    requires c.speculativeChecks >= 1
    requires t == Train([], [W(p, c)])
    ensures Sync(t) == Train([Car([], p, c)], [])
  {
    assert Members(t) == [W(p, c)];
    SyncOne(t, W(p, c));
  }

  lemma AddBehindOne(t: Train, c: PullQueueConfig)
    requires t == Train([Car([], 1, c)], [])
    ensures AddPull(t, 2, c) == Train(t.cars, [W(2, c)])
  {
    assert Members(t) == [W(1, c)];
    assert Pulls(t) == [1];
    AddLowest(t, 2, c);
  }

  lemma SyncBehindOne(t: Train, c: PullQueueConfig)
    requires c.speculativeChecks == 5
    requires t == Train([Car([], 1, c)], [W(2, c)])
    ensures Sync(t) == Train([Car([], 1, c), Car([1], 2, c)], [])
  {
    assert LastContent(t.cars) == [1];
    SyncOne(t, W(2, c));
  }

  lemma AddBehindTwo(t: Train, c: PullQueueConfig)
    requires t == Train([Car([], 1, c), Car([1], 2, c)], [])
    ensures AddPull(t, 3, c) == Train(t.cars, [W(3, c)])
  {
    assert Members(t) == [W(1, c), W(2, c)];
    assert Pulls(t) == [1, 2];
    AddLowest(t, 3, c);
  }

  lemma SyncBehindTwo(t: Train, c: PullQueueConfig)
    requires c.speculativeChecks == 5
    requires t == Train([Car([], 1, c), Car([1], 2, c)], [W(3, c)])
    ensures Sync(t) == Train123(c, c, c)
  {
    assert LastContent(t.cars) == [1, 2];
    SyncOne(t, W(3, c));
  }

  lemma AddSecondWaiting(t: Train, c: PullQueueConfig)
    requires t == Train([], [W(1, c)])
    ensures AddPull(t, 2, c) == Train([], [W(1, c), W(2, c)])
  {
    AppendLowest(t, 2, c);
    assert t.waiting + [W(2, c)] == [W(1, c), W(2, c)];
  }

  lemma AddThirdWaiting(t: Train, c: PullQueueConfig)
    requires t == Train([], [W(1, c), W(2, c)])
    ensures AddPull(t, 3, c) == Train([], [W(1, c), W(2, c), W(3, c)])
  {
    assert Members(t) == t.waiting;
    assert Pulls(t) == [1, 2];
    AddLowest(t, 3, c);
  }

  /** Three pulls waiting in an empty width-5 train get three cars. */
  lemma SyncThree(t: Train, a: PullQueueConfig, b: PullQueueConfig, c: PullQueueConfig)
    requires a.speculativeChecks == 5
    requires t == Train([], [W(1, a), W(2, b), W(3, c)])
    ensures Sync(t) == Train123(a, b, c)
  {
    assert Members(t) == t.waiting;
    assert t.waiting[..3] == t.waiting && t.waiting[3..] == [];
    BuildThree(t.waiting, a, b, c);
    assert [] + Train123(a, b, c).cars == Train123(a, b, c).cars;
  }

  lemma BuildThree(ws: seq<WaitingPull>, a: PullQueueConfig, b: PullQueueConfig, c: PullQueueConfig)
    requires ws == [W(1, a), W(2, b), W(3, c)]
    ensures BuildCars([], ws, FakeCreate) == Train123(a, b, c).cars
  {
    var ws1, ws2 := ws[1..], ws[2..];
    assert ws1 == [W(2, b), W(3, c)] && ws2 == [W(3, c)] && ws2[1..] == [];
    BuildStep([], ws, [1]);
    BuildStep([1], ws1, [1, 2]);
    BuildStep([1, 2], ws2, [1, 2, 3]);
    assert [Car([], 1, a)] + ([Car([1], 2, b)] + ([Car([1, 2], 3, c)] + [])) == Train123(a, b, c).cars;
  }

  /** One step of car building, with the stand-in materializer. */
  lemma BuildStep(base: seq<PullNumber>, ws: seq<WaitingPull>, next: seq<PullNumber>)
    requires |ws| > 0 && next == base + [ws[0].pull]
    ensures BuildCars(base, ws, FakeCreate) ==
      [Car(base, ws[0].pull, ws[0].config)] + BuildCars(next, ws[1..], FakeCreate)
  {
  }

  /** Removing the middle pull, merged or not, discards cars [1, 2] and
      [1, 2, 3]; pull 3 waits again. */
  lemma RemoveMiddle(t: Train, a: PullQueueConfig, b: PullQueueConfig, c: PullQueueConfig, merged: bool)
    requires t == Train123(a, b, c)
    ensures RemovePull(t, 2, merged) == Train([Car([], 1, a)], [W(3, c)])
  {
    assert Members(t) == [W(1, a), W(2, b), W(3, c)];
    assert Pulls(t) == [1, 2, 3];
    assert IndexOf(Members(t), 2) == Some(1);
    var r := RemovePull(t, 2, merged);
    assert Members(r) == [W(1, a), W(3, c)];
    assert r.waiting == Members(r)[1..];
  }

  lemma SyncAfterMiddle(t: Train, a: PullQueueConfig, c: PullQueueConfig)
    requires a.speculativeChecks == 5
    requires t == Train([Car([], 1, a)], [W(3, c)])
    ensures Sync(t) == Train([Car([], 1, a), Car([1], 3, c)], [])
  {
    assert LastContent(t.cars) == [1];
    SyncOne(t, W(3, c));
  }

  lemma RemoveHeadNotMerged(t: Train, c: PullQueueConfig)
    requires t == Train123(c, c, c)
    ensures RemovePull(t, 1, false) == Train([], [W(2, c), W(3, c)])
  {
    assert Members(t) == [W(1, c), W(2, c), W(3, c)];
    assert IndexOf(Members(t), 1) == Some(0);
    var r := RemovePull(t, 1, false);
    assert Members(r) == [W(2, c), W(3, c)];
  }

  lemma SyncTwo(t: Train, c: PullQueueConfig)
    requires c.speculativeChecks == 5
    requires t == Train([], [W(2, c), W(3, c)])
    ensures Sync(t) == Train([Car([], 2, c), Car([2], 3, c)], [])
  {
    assert Members(t) == t.waiting;
    assert t.waiting[..2] == t.waiting && t.waiting[1..] == [W(3, c)];
    assert Car([], 2, c).Content() == [2];
    assert BuildCars([2], [W(3, c)], FakeCreate) == [Car([2], 3, c)];
    assert BuildCars([], t.waiting, FakeCreate) == [Car([], 2, c)] + [Car([2], 3, c)];
  }

  lemma RemoveHeadMerged(t: Train, c: PullQueueConfig)
    requires t == Train123(c, c, c)
    ensures RemovePull(t, 1, true) == Train([Car([1], 2, c), Car([1, 2], 3, c)], [])
  {
    assert Members(t) == [W(1, c), W(2, c), W(3, c)];
    assert IndexOf(Members(t), 1) == Some(0);
  }

  // What the scenarios read off the trains

  lemma Content1(t: Train, p: PullNumber, c: PullQueueConfig)
    requires t == Train([Car([], p, c)], [])
    ensures CarsContent(t) == [[p]] && WaitingContent(t) == []
  {
    assert t.cars[0].Content() == [p];
  }

  lemma Content12(t: Train, a: PullQueueConfig, b: PullQueueConfig)
    requires t == Train([Car([], 1, a), Car([1], 2, b)], [])
    ensures CarsContent(t) == [[1], [1, 2]] && WaitingContent(t) == []
  {
    assert t.cars[0].Content() == [1] && t.cars[1].Content() == [1, 2];
  }

  lemma Content123(t: Train, a: PullQueueConfig, b: PullQueueConfig, c: PullQueueConfig)
    requires t == Train123(a, b, c)
    ensures CarsContent(t) == [[1], [1, 2], [1, 2, 3]] && WaitingContent(t) == []
  {
    assert t.cars[0].Content() == [1] && t.cars[1].Content() == [1, 2];
    assert t.cars[2].Content() == [1, 2, 3];
  }

  lemma Content13(t: Train, a: PullQueueConfig, c: PullQueueConfig)
    requires t == Train([Car([], 1, a), Car([1], 3, c)], [])
    ensures CarsContent(t) == [[1], [1, 3]] && WaitingContent(t) == []
  {
    assert t.cars[0].Content() == [1] && t.cars[1].Content() == [1, 3];
  }

  lemma Content23(t: Train, c: PullQueueConfig)
    requires t == Train([Car([], 2, c), Car([2], 3, c)], [])
    ensures CarsContent(t) == [[2], [2, 3]] && WaitingContent(t) == []
  {
    assert t.cars[0].Content() == [2] && t.cars[1].Content() == [2, 3];
  }

  /** Two cars left after the head landed fit the width of five. */
  lemma SyncAfterLanding(t: Train, c: PullQueueConfig)
    requires c.speculativeChecks == 5
    requires t == Train([Car([1], 2, c), Car([1, 2], 3, c)], [])
    ensures Sync(t) == t
  {
    assert Members(t)[0] == W(2, c);
    SyncNothingWaiting(t);
  }

  lemma ContentAfterLanding(t: Train, c: PullQueueConfig)
    requires t == Train([Car([1], 2, c), Car([1, 2], 3, c)], [])
    ensures CarsContent(t) == [[1, 2], [1, 2, 3]] && WaitingContent(t) == []
  {
    assert t.cars[0].Content() == [1, 2] && t.cars[1].Content() == [1, 2, 3];
  }

  // test_train_add_pull

  function AddPull1(c: PullQueueConfig): Train { Sync(AddPull(EmptyTrain, 1, c)) }
  function AddPull2(c: PullQueueConfig): Train { Sync(AddPull(AddPull1(c), 2, c)) }
  function AddPull3(c: PullQueueConfig): Train { Sync(AddPull(AddPull2(c), 3, c)) }
  function RemovedTwo(c: PullQueueConfig): Train { Sync(RemovePull(AddPull3(c), 2, false)) }

  lemma AddPull1Is(c: PullQueueConfig)
    requires c.speculativeChecks == 5
    ensures AddPull1(c) == Train([Car([], 1, c)], [])
  {
    AddToEmpty(EmptyTrain, 1, c);
    SyncFirst(AddPull(EmptyTrain, 1, c), 1, c);
  }

  lemma AddPull2Is(c: PullQueueConfig)
    requires c.speculativeChecks == 5
    ensures AddPull2(c) == Train([Car([], 1, c), Car([1], 2, c)], [])
  {
    AddPull1Is(c);
    AddBehindOne(AddPull1(c), c);
    SyncBehindOne(AddPull(AddPull1(c), 2, c), c);
  }

  lemma AddPull3Is(c: PullQueueConfig)
    requires c.speculativeChecks == 5
    ensures AddPull3(c) == Train123(c, c, c)
  {
    AddPull2Is(c);
    AddBehindTwo(AddPull2(c), c);
    SyncBehindTwo(AddPull(AddPull2(c), 3, c), c);
  }

  lemma RemovedTwoIs(c: PullQueueConfig)
    requires c.speculativeChecks == 5
    ensures RemovedTwo(c) == Train([Car([], 1, c), Car([1], 3, c)], [])
  {
    AddPull3Is(c);
    RemoveMiddle(AddPull3(c), c, c, c, false);
    SyncAfterMiddle(RemovePull(AddPull3(c), 2, false), c, c);
  }

  /** test_train_add_pull, for any configuration of a width-5 queue:
      refreshing after each add grows the train one car at a time, each car
      extending the previous one by its own pull; a reloaded train has the
      same cars; removing the middle pull rebuilds the cars behind it. */
  lemma ScenarioAddPull(c: PullQueueConfig)
    requires c.speculativeChecks == 5
    ensures CarsContent(AddPull1(c)) == [[1]]
    ensures CarsContent(AddPull2(c)) == [[1], [1, 2]]
    ensures CarsContent(AddPull3(c)) == [[1], [1, 2], [1, 2, 3]]
    ensures Reload(AddPull3(c)) == Success(AddPull3(c))
    ensures CarsContent(RemovedTwo(c)) == [[1], [1, 3]]
    ensures Reload(RemovedTwo(c)) == Success(RemovedTwo(c))
  {
    AddPull1Is(c);
    Content1(AddPull1(c), 1, c);
    AddPull2Is(c);
    Content12(AddPull2(c), c, c);
    AddPull3Is(c);
    Content123(AddPull3(c), c, c, c);
    RemovedTwoIs(c);
    Content13(RemovedTwo(c), c, c);
    LoadSave(map[], Key, Key, AddPull3(c));
    LoadSave(map[], Key, Key, RemovedTwo(c));
  }

  // test_train_remove_middle_merged

  function AddThree(c: PullQueueConfig): Train {
    Sync(AddPull(AddPull(AddPull(EmptyTrain, 1, c), 2, c), 3, c))
  }

  lemma AddThreeIs(c: PullQueueConfig)
    requires c.speculativeChecks == 5
    ensures AddThree(c) == Train123(c, c, c)
  {
    AddToEmpty(EmptyTrain, 1, c);
    AddSecondWaiting(AddPull(EmptyTrain, 1, c), c);
    AddThirdWaiting(AddPull(AddPull(EmptyTrain, 1, c), 2, c), c);
    SyncThree(AddPull(AddPull(AddPull(EmptyTrain, 1, c), 2, c), 3, c), c, c, c);
  }

  /** test_train_remove_middle_merged: a merged pull that is not the head
      still discards its car and every later one. */
  lemma ScenarioRemoveMiddleMerged(c: PullQueueConfig)
    requires c.speculativeChecks == 5
    ensures CarsContent(AddThree(c)) == [[1], [1, 2], [1, 2, 3]]
    ensures CarsContent(Sync(RemovePull(AddThree(c), 2, true))) == [[1], [1, 3]]
  {
    AddThreeIs(c);
    Content123(AddThree(c), c, c, c);
    RemoveMiddle(AddThree(c), c, c, c, true);
    SyncAfterMiddle(RemovePull(AddThree(c), 2, true), c, c);
    Content13(Sync(RemovePull(AddThree(c), 2, true)), c, c);
  }

  // test_train_remove_middle_not_merged

  function PriorityAdds(hi: PullQueueConfig, lo: PullQueueConfig): Train {
    AddPull(AddPull(AddPull(EmptyTrain, 1, hi), 3, lo), 2, hi)
  }

  lemma AddLowerPriority(t: Train, hi: PullQueueConfig, lo: PullQueueConfig)
    requires hi.effectivePriority > lo.effectivePriority
    requires t == Train([], [W(1, hi)])
    ensures AddPull(t, 3, lo) == Train([], [W(1, hi), W(3, lo)])
  {
    assert Members(t) == t.waiting;
    AddLowest(t, 3, lo);
  }

  /** Pull 2 outranks the waiting pull 3 and ties with pull 1: it goes
      after 1 and before 3. */
  lemma AddBetween(t: Train, hi: PullQueueConfig, lo: PullQueueConfig)
    requires hi.effectivePriority > lo.effectivePriority
    requires t == Train([], [W(1, hi), W(3, lo)])
    ensures AddPull(t, 2, hi) == Train([], [W(1, hi), W(2, hi), W(3, lo)])
  {
    assert Members(t) == t.waiting;
    assert Pulls(t) == [1, 3];
    assert InsertPosition(Members(t), hi.effectivePriority) == 1;
    var r := AddPull(t, 2, hi);
    assert Members(r) == [W(1, hi), W(2, hi), W(3, lo)];
  }

  lemma PriorityAddsIs(hi: PullQueueConfig, lo: PullQueueConfig)
    requires hi.effectivePriority > lo.effectivePriority
    ensures PriorityAdds(hi, lo) == Train([], [W(1, hi), W(2, hi), W(3, lo)])
  {
    AddToEmpty(EmptyTrain, 1, hi);
    AddLowerPriority(AddPull(EmptyTrain, 1, hi), hi, lo);
    AddBetween(AddPull(AddPull(EmptyTrain, 1, hi), 3, lo), hi, lo);
  }

  /** test_train_remove_middle_not_merged, for a width-5 queue where pulls
      1 and 2 outrank pull 3 (priority 1000 against 100): adding 1, 3, 2
      queues them as 1, 2, 3; removing 2 gives [1], [1, 3]. */
  lemma ScenarioRemoveMiddleNotMerged(hi: PullQueueConfig, lo: PullQueueConfig)
    requires hi.speculativeChecks == 5 && hi.effectivePriority > lo.effectivePriority
    ensures CarsContent(Sync(PriorityAdds(hi, lo))) == [[1], [1, 2], [1, 2, 3]]
    ensures CarsContent(Sync(RemovePull(Sync(PriorityAdds(hi, lo)), 2, false))) == [[1], [1, 3]]
  {
    PriorityAddsIs(hi, lo);
    SyncThree(PriorityAdds(hi, lo), hi, hi, lo);
    Content123(Sync(PriorityAdds(hi, lo)), hi, hi, lo);
    RemoveMiddle(Sync(PriorityAdds(hi, lo)), hi, hi, lo, false);
    SyncAfterMiddle(RemovePull(Sync(PriorityAdds(hi, lo)), 2, false), hi, lo);
    Content13(Sync(RemovePull(Sync(PriorityAdds(hi, lo)), 2, false)), hi, lo);
  }

  // test_train_remove_head_not_merged and test_train_remove_head_merged

  /** test_train_remove_head_not_merged: an unmerged head invalidates every
      car; the train is rebuilt from pull 2. */
  lemma ScenarioRemoveHeadNotMerged(c: PullQueueConfig)
    requires c.speculativeChecks == 5
    ensures CarsContent(Sync(RemovePull(AddThree(c), 1, false))) == [[2], [2, 3]]
  {
    AddThreeIs(c);
    RemoveHeadNotMerged(AddThree(c), c);
    SyncTwo(RemovePull(AddThree(c), 1, false), c);
    Content23(Sync(RemovePull(AddThree(c), 1, false)), c);
  }

  /** test_train_remove_head_merged: a merged head only drops its own car;
      the other cars keep the landed pull as a parent. */
  lemma ScenarioRemoveHeadMerged(c: PullQueueConfig)
    requires c.speculativeChecks == 5
    ensures CarsContent(Sync(RemovePull(AddThree(c), 1, true))) == [[1, 2], [1, 2, 3]]
  {
    AddThreeIs(c);
    RemoveHeadMerged(AddThree(c), c);
    var t := RemovePull(AddThree(c), 1, true);
    SyncAfterLanding(t, c);
    ContentAfterLanding(t, c);
  }

  // test_train_add_remove_pull_idempotant

  /** Re-adding the head pull with another configuration keeps every car. */
  lemma ReAddHead(t: Train, c: PullQueueConfig, c': PullQueueConfig)
    requires t == Train123(c, c, c)
    ensures AddPull(t, 1, c') == Train123(c', c, c)
  {
    assert Members(t) == [W(1, c), W(2, c), W(3, c)];
    assert IndexOf(Members(t), 1) == Some(0);
    assert Car([], 1, c).(config := c') == Car([], 1, c');
  }

  lemma SyncTrain123(t: Train, a: PullQueueConfig, b: PullQueueConfig, c: PullQueueConfig)
    requires a.speculativeChecks == 5
    requires t == Train123(a, b, c)
    ensures Sync(t) == t
  {
    assert Members(t)[0] == W(1, a);
    SyncNothingWaiting(t);
  }

  /** Removing pull 2 once it has already left the train changes nothing. */
  lemma RemoveGone(t: Train, a: PullQueueConfig, c: PullQueueConfig, merged: bool)
    requires a.speculativeChecks == 5
    requires t == Train([Car([], 1, a), Car([1], 3, c)], [])
    ensures Sync(RemovePull(t, 2, merged)) == t
  {
    assert Pulls(t) == [1, 3];
    assert Members(t)[0] == W(1, a);
    SyncNothingWaiting(t);
  }

  function Requeued(c: PullQueueConfig, c': PullQueueConfig): Train {
    Sync(AddPull(AddThree(c), 1, c'))
  }

  function RemovedOnce(c: PullQueueConfig, c': PullQueueConfig): Train {
    Sync(RemovePull(Requeued(c, c'), 2, false))
  }

  function RemovedTwice(c: PullQueueConfig, c': PullQueueConfig): Train {
    Sync(RemovePull(RemovedOnce(c, c'), 2, false))
  }

  lemma RequeuedIs(c: PullQueueConfig, c': PullQueueConfig)
    requires c.speculativeChecks == 5 && c'.speculativeChecks == 5
    ensures Requeued(c, c') == Train123(c', c, c)
  {
    AddThreeIs(c);
    ReAddHead(AddThree(c), c, c');
    SyncTrain123(AddPull(AddThree(c), 1, c'), c', c, c);
  }

  lemma RemovedOnceIs(c: PullQueueConfig, c': PullQueueConfig)
    requires c.speculativeChecks == 5 && c'.speculativeChecks == 5
    ensures RemovedOnce(c, c') == Train([Car([], 1, c'), Car([1], 3, c)], [])
  {
    RequeuedIs(c, c');
    RemoveMiddle(Requeued(c, c'), c', c, c, false);
    SyncAfterMiddle(RemovePull(Requeued(c, c'), 2, false), c', c);
  }

  /** test_train_add_remove_pull_idempotant, for two configurations `c` and
      `c'` of the width-5 queue (priority 0 and 10): adding a queued pull
      again with `c'` leaves the cars as they were; removing pull 2 twice
      is the same as removing it once; both trains survive a reload. */
  lemma ScenarioAddRemoveIdempotent(c: PullQueueConfig, c': PullQueueConfig)
    requires c.speculativeChecks == 5 && c'.speculativeChecks == 5
    ensures CarsContent(AddThree(c)) == [[1], [1, 2], [1, 2, 3]]
    ensures CarsContent(Requeued(c, c')) == [[1], [1, 2], [1, 2, 3]]
    ensures Reload(Requeued(c, c')) == Success(Requeued(c, c'))
    ensures CarsContent(RemovedOnce(c, c')) == [[1], [1, 3]]
    ensures RemovedTwice(c, c') == RemovedOnce(c, c')
    ensures Reload(RemovedTwice(c, c')) == Success(RemovedTwice(c, c'))
  {
    AddThreeIs(c);
    Content123(AddThree(c), c, c, c);
    RequeuedIs(c, c');
    Content123(Requeued(c, c'), c', c, c);
    RemovedOnceIs(c, c');
    Content13(RemovedOnce(c, c'), c', c);
    RemoveGone(RemovedOnce(c, c'), c', c, false);
    LoadSave(map[], Key, Key, Requeued(c, c'));
    LoadSave(map[], Key, Key, RemovedTwice(c, c'));
  }

  // test_train_mutiple_queue, for any configuration `a` of queue "two" and
  // `b` of queue "five", `a` ranked above `b`

  function Head12(a: PullQueueConfig): seq<TrainCar> {
    [Car([], 1, a), Car([1], 2, a)]
  }

  /** An unmerged head pull discards every car; the other car pulls wait
      again, in front of the waiting list. */
  lemma RemoveUnmergedHead(t: Train, p: PullNumber)
    requires |t.cars| > 0 && t.cars[0].pull == p
    ensures RemovePull(t, p, false) == Train([], CarsAsWaiting(t.cars[1..]) + t.waiting)
  {
    var ms := Members(t);
    assert CarsAsWaiting(t.cars) == [t.cars[0].AsWaiting()] + CarsAsWaiting(t.cars[1..]);
    assert ms[1..] == CarsAsWaiting(t.cars[1..]) + t.waiting;
    assert ms[0].pull == p;
    assert PullsOf(ms)[0] == p;
    assert IndexOf(ms, p) == Some(0);
    var r := RemovePull(t, p, false);
    assert r.cars == [];
    assert RemoveAt(ms, 0) == ms[1..];
    assert r.waiting == Members(r);
  }

  /** Removing the first waiting pull of a train without cars. */
  lemma RemoveFirstWaiting(t: Train, p: PullNumber)
    requires t.cars == [] && |t.waiting| > 0 && t.waiting[0].pull == p
    ensures RemovePull(t, p, false) == Train([], t.waiting[1..])
  {
    assert Members(t) == t.waiting;
    assert IndexOf(t.waiting, p) == Some(0);
    var r := RemovePull(t, p, false);
    assert Members(r) == t.waiting[1..];
  }

  lemma AddThirdLowAppends(t: Train, a: PullQueueConfig, b: PullQueueConfig)
    requires a.effectivePriority >= b.effectivePriority
    requires t == Train([], [W(1, a), W(2, a)])
    ensures AddPull(t, 3, b) == Train(t.cars, t.waiting + [W(3, b)])
  {
    AppendLowest(t, 3, b);
  }

  lemma AddThirdLow(t: Train, a: PullQueueConfig, b: PullQueueConfig)
    requires a.effectivePriority >= b.effectivePriority
    requires t == Train([], [W(1, a), W(2, a)])
    ensures AddPull(t, 3, b) == Train([], [W(1, a), W(2, a), W(3, b)])
  {
    assert t.waiting + [W(3, b)] == [W(1, a), W(2, a), W(3, b)];
    AddThirdLowAppends(t, a, b);
  }

  lemma AddFourthLowAppends(t: Train, a: PullQueueConfig, b: PullQueueConfig)
    requires a.effectivePriority >= b.effectivePriority
    requires t == Train([], [W(1, a), W(2, a), W(3, b)])
    ensures AddPull(t, 4, b) == Train(t.cars, t.waiting + [W(4, b)])
  {
    AppendLowest(t, 4, b);
  }

  lemma AddFourthLow(t: Train, a: PullQueueConfig, b: PullQueueConfig)
    requires a.effectivePriority >= b.effectivePriority
    requires t == Train([], [W(1, a), W(2, a), W(3, b)])
    ensures AddPull(t, 4, b) == Train([], [W(1, a), W(2, a), W(3, b), W(4, b)])
  {
    assert t.waiting + [W(4, b)] == [W(1, a), W(2, a), W(3, b), W(4, b)];
    AddFourthLowAppends(t, a, b);
  }

  /** Width 2: only two of the four waiting pulls get a car. */
  lemma SyncFour(t: Train, a: PullQueueConfig, b: PullQueueConfig)
    requires a.speculativeChecks == 2
    requires t == Train([], [W(1, a), W(2, a), W(3, b), W(4, b)])
    ensures Sync(t) == Train(Head12(a), [W(3, b), W(4, b)])
  {
    assert Members(t) == t.waiting;
    assert t.waiting[..2] == [W(1, a), W(2, a)] && t.waiting[2..] == [W(3, b), W(4, b)];
    assert Car([], 1, a).Content() == [1];
    assert BuildCars([1], [W(2, a)], FakeCreate) == [Car([1], 2, a)];
    assert BuildCars([], [W(1, a), W(2, a)], FakeCreate) == [Car([], 1, a)] + [Car([1], 2, a)];
  }

  lemma MembersBehindHead12(t: Train, a: PullQueueConfig)
    requires t.cars == Head12(a)
    ensures Members(t) == [W(1, a), W(2, a)] + t.waiting
  {
    assert CarsAsWaiting(t.cars) == [W(1, a), W(2, a)];
  }

  /** The insertion point is the first entry ranked strictly lower. */
  lemma InsertPositionIs(ws: seq<WaitingPull>, priority: int, j: nat)
    requires j < |ws| && ws[j].config.effectivePriority < priority
    requires forall i :: 0 <= i < j ==> ws[i].config.effectivePriority >= priority
    ensures InsertPosition(ws, priority) == j
  {
  }

  /** A new pull whose insertion point lies among the waiting pulls keeps
      every car and is inserted into the waiting list. */
  lemma InsertIntoWaiting(t: Train, p: PullNumber, c: PullQueueConfig, k: nat)
    requires p !in Pulls(t)
    requires InsertPosition(Members(t), c.effectivePriority) == k && |t.cars| <= k
    ensures AddPull(t, p, c) == Train(t.cars, InsertAt(t.waiting, k - |t.cars|, W(p, c)))
  {
    var r := AddPull(t, p, c);
    var a := CarsAsWaiting(t.cars);
    assert r.cars == t.cars;
    InsertAtAfter(a, t.waiting, k - |a|, W(p, c));
    assert r.waiting == Members(r)[|a|..];
  }

  /** Pull 5 outranks the waiting pulls of queue "five": it waits first. */
  lemma AddFiveOvertakes(t: Train, a: PullQueueConfig, b: PullQueueConfig)
    requires a.effectivePriority > b.effectivePriority
    requires t == Train(Head12(a), [W(3, b), W(4, b)])
    ensures AddPull(t, 5, a) == Train(t.cars, InsertAt(t.waiting, 0, W(5, a)))
  {
    MembersBehindHead12(t, a);
    var ms := Members(t);
    assert ms == [W(1, a), W(2, a), W(3, b), W(4, b)];
    assert Pulls(t) == [1, 2, 3, 4];
    InsertPositionIs(ms, a.effectivePriority, 2);
    InsertIntoWaiting(t, 5, a, 2);
  }

  lemma AddFive(t: Train, a: PullQueueConfig, b: PullQueueConfig)
    requires a.effectivePriority > b.effectivePriority
    requires t == Train(Head12(a), [W(3, b), W(4, b)])
    ensures AddPull(t, 5, a) == Train(Head12(a), [W(5, a), W(3, b), W(4, b)])
  {
    assert InsertAt(t.waiting, 0, W(5, a)) == [W(5, a), W(3, b), W(4, b)];
    AddFiveOvertakes(t, a, b);
  }

  /** Two cars already fill the width of queue "two". */
  lemma SyncHeadFull(t: Train, a: PullQueueConfig)
    requires a.speculativeChecks == 2
    requires t.cars == Head12(a)
    ensures Sync(t) == t
  {
    MembersBehindHead12(t, a);
    SyncFull(t);
  }

  /** A pull of the lowest rank queues behind the two cars of queue "two"
      and everything already waiting. */
  lemma AddBehindHead12(t: Train, p: PullNumber, a: PullQueueConfig, b: PullQueueConfig)
    requires a.effectivePriority >= b.effectivePriority
    requires t.cars == Head12(a) && p != 1 && p != 2
    requires forall i :: 0 <= i < |t.waiting| ==>
               t.waiting[i].pull != p && t.waiting[i].config.effectivePriority >= b.effectivePriority
    ensures AddPull(t, p, b) == Train(t.cars, t.waiting + [W(p, b)])
  {
    AppendLowest(t, p, b);
  }

  lemma AddSixAppends(t: Train, a: PullQueueConfig, b: PullQueueConfig)
    requires a.effectivePriority > b.effectivePriority
    requires t == Train(Head12(a), [W(5, a), W(3, b), W(4, b)])
    ensures AddPull(t, 6, b) == Train(Head12(a), [W(5, a), W(3, b), W(4, b), W(6, b)])
  {
    AddBehindHead12(t, 6, a, b);
    assert t.waiting + [W(6, b)] == [W(5, a), W(3, b), W(4, b), W(6, b)];
  }

  lemma AddSevenAppends(t: Train, a: PullQueueConfig, b: PullQueueConfig)
    requires a.effectivePriority > b.effectivePriority
    requires t == Train(Head12(a), [W(5, a), W(3, b), W(4, b), W(6, b)])
    ensures AddPull(t, 7, b) == Train(Head12(a), [W(5, a), W(3, b), W(4, b), W(6, b), W(7, b)])
  {
    AddBehindHead12(t, 7, a, b);
    assert t.waiting + [W(7, b)] == [W(5, a), W(3, b), W(4, b), W(6, b), W(7, b)];
  }

  lemma AddEightAppends(t: Train, a: PullQueueConfig, b: PullQueueConfig)
    requires a.effectivePriority > b.effectivePriority
    requires t == Train(Head12(a), [W(5, a), W(3, b), W(4, b), W(6, b), W(7, b)])
    ensures AddPull(t, 8, b) == Train(Head12(a), [W(5, a), W(3, b), W(4, b), W(6, b), W(7, b), W(8, b)])
  {
    AddBehindHead12(t, 8, a, b);
    assert t.waiting + [W(8, b)] == [W(5, a), W(3, b), W(4, b), W(6, b), W(7, b), W(8, b)];
  }

  lemma AddNineAppends(t: Train, a: PullQueueConfig, b: PullQueueConfig)
    requires a.effectivePriority > b.effectivePriority
    requires t == Train(Head12(a), [W(5, a), W(3, b), W(4, b), W(6, b), W(7, b), W(8, b)])
    ensures AddPull(t, 9, b) == Train(Head12(a), [W(5, a), W(3, b), W(4, b), W(6, b), W(7, b), W(8, b), W(9, b)])
  {
    AddBehindHead12(t, 9, a, b);
    assert t.waiting + [W(9, b)] == [W(5, a), W(3, b), W(4, b), W(6, b), W(7, b), W(8, b), W(9, b)];
  }

  lemma AddSixToNine(t: Train, a: PullQueueConfig, b: PullQueueConfig)
    requires a.effectivePriority > b.effectivePriority
    requires t == Train(Head12(a), [W(5, a), W(3, b), W(4, b)])
    ensures AddPull(AddPull(AddPull(AddPull(t, 6, b), 7, b), 8, b), 9, b)
            == Train(Head12(a), [W(5, a), W(3, b), W(4, b), W(6, b), W(7, b), W(8, b), W(9, b)])
  {
    AddSixAppends(t, a, b);
    var t6 := AddPull(t, 6, b);
    AddSevenAppends(t6, a, b);
    var t7 := AddPull(t6, 7, b);
    AddEightAppends(t7, a, b);
    AddNineAppends(AddPull(t7, 8, b), a, b);
  }

  /** Removing pull 2 tears down its car; pull 5 becomes the next waiting. */
  lemma RemoveTwoOfMany(t: Train, a: PullQueueConfig, b: PullQueueConfig)
    requires t == Train(Head12(a), [W(5, a), W(3, b), W(4, b), W(6, b), W(7, b), W(8, b), W(9, b)])
    ensures RemovePull(t, 2, false) == Train([Car([], 1, a)], t.waiting)
  {
    MembersBehindHead12(t, a);
    assert Members(t)[..2] == [W(1, a), W(2, a)];
    assert IndexOf(Members(t), 2) == Some(1);
    var r := RemovePull(t, 2, false);
    assert Members(r) == [W(1, a)] + t.waiting;
    assert r.waiting == Members(r)[1..];
  }

  lemma SyncAfterTwo(t: Train, a: PullQueueConfig, b: PullQueueConfig)
    requires a.speculativeChecks == 2
    requires t == Train([Car([], 1, a)], [W(5, a), W(3, b), W(4, b), W(6, b), W(7, b), W(8, b), W(9, b)])
    ensures Sync(t) == Train([Car([], 1, a), Car([1], 5, a)], [W(3, b), W(4, b), W(6, b), W(7, b), W(8, b), W(9, b)])
  {
    assert Members(t)[0] == W(1, a);
    assert t.waiting[..1] == [W(5, a)];
    assert LastContent(t.cars) == [1];
    assert BuildCars([1], [W(5, a)], FakeCreate) == [Car([1], 5, a)];
  }

  lemma RemoveOneAndFive(t: Train, a: PullQueueConfig, b: PullQueueConfig)
    requires t == Train([Car([], 1, a), Car([1], 5, a)], [W(3, b), W(4, b), W(6, b), W(7, b), W(8, b), W(9, b)])
    ensures RemovePull(RemovePull(t, 1, false), 5, false) == Train([], t.waiting)
  {
    RemoveUnmergedHead(t, 1);
    assert CarsAsWaiting(t.cars[1..]) == [W(5, a)];
    var r := Train([], [W(5, a)] + t.waiting);
    RemoveFirstWaiting(r, 5);
    assert r.waiting[1..] == t.waiting;
  }

  function LowCars(b: PullQueueConfig): seq<TrainCar> {
    [Car([], 3, b), Car([3], 4, b), Car([3, 4], 6, b), Car([3, 4, 6], 7, b), Car([3, 4, 6, 7], 8, b)]
  }

  lemma BuildLowCars(ws: seq<WaitingPull>, b: PullQueueConfig)
    requires ws == [W(3, b), W(4, b), W(6, b), W(7, b), W(8, b)]
    ensures BuildCars([], ws, FakeCreate) == LowCars(b)
  {
    var ws1, ws2 := ws[1..], ws[2..];
    assert ws1 == [W(4, b), W(6, b), W(7, b), W(8, b)] && ws2 == [W(6, b), W(7, b), W(8, b)];
    BuildStep([], ws, [3]);
    BuildStep([3], ws1, [3, 4]);
    BuildLowTail(ws2, b);
    assert [Car([], 3, b)] + ([Car([3], 4, b)] + LowCars(b)[2..]) == LowCars(b);
  }

  lemma BuildLowTail(ws: seq<WaitingPull>, b: PullQueueConfig)
    requires ws == [W(6, b), W(7, b), W(8, b)]
    ensures BuildCars([3, 4], ws, FakeCreate) == LowCars(b)[2..]
  {
    var ws1, ws2 := ws[1..], ws[2..];
    assert ws1 == [W(7, b), W(8, b)] && ws2 == [W(8, b)] && ws2[1..] == [];
    BuildStep([3, 4], ws, [3, 4, 6]);
    BuildStep([3, 4, 6], ws1, [3, 4, 6, 7]);
    BuildStep([3, 4, 6, 7], ws2, [3, 4, 6, 7, 8]);
    assert [Car([3, 4], 6, b)] + ([Car([3, 4, 6], 7, b)] + ([Car([3, 4, 6, 7], 8, b)] + [])) == LowCars(b)[2..];
  }

  /** The head now belongs to queue "five": five cars, one pull waiting. */
  lemma SyncLowQueue(t: Train, b: PullQueueConfig)
    requires b.speculativeChecks == 5
    requires t.cars == [] && t.waiting == [W(3, b), W(4, b), W(6, b), W(7, b), W(8, b), W(9, b)]
    ensures Sync(t) == Train(LowCars(b), t.waiting[5..])
  {
    assert Members(t) == t.waiting;
    BuildLowCars(t.waiting[..5], b);
  }

  function FourQueued(a: PullQueueConfig, b: PullQueueConfig): Train {
    Sync(AddPull(AddPull(AddPull(AddPull(EmptyTrain, 1, a), 2, a), 3, b), 4, b))
  }

  function FiveQueued(a: PullQueueConfig, b: PullQueueConfig): Train {
    Sync(AddPull(FourQueued(a, b), 5, a))
  }

  function NineQueued(a: PullQueueConfig, b: PullQueueConfig): Train {
    Sync(AddPull(AddPull(AddPull(AddPull(FiveQueued(a, b), 6, b), 7, b), 8, b), 9, b))
  }

  function TwoRemoved(a: PullQueueConfig, b: PullQueueConfig): Train {
    Sync(RemovePull(NineQueued(a, b), 2, false))
  }

  function QueueTwoEmptied(a: PullQueueConfig, b: PullQueueConfig): Train {
    Sync(RemovePull(RemovePull(TwoRemoved(a, b), 1, false), 5, false))
  }

  lemma FourQueuedIs(a: PullQueueConfig, b: PullQueueConfig)
    requires a.speculativeChecks == 2 && a.effectivePriority > b.effectivePriority
    ensures FourQueued(a, b) == Train(Head12(a), [W(3, b), W(4, b)])
  {
    AddToEmpty(EmptyTrain, 1, a);
    AddSecondWaiting(AddPull(EmptyTrain, 1, a), a);
    var t2 := AddPull(AddPull(EmptyTrain, 1, a), 2, a);
    AddThirdLow(t2, a, b);
    AddFourthLow(AddPull(t2, 3, b), a, b);
    SyncFour(AddPull(AddPull(t2, 3, b), 4, b), a, b);
  }

  lemma FiveQueuedIs(a: PullQueueConfig, b: PullQueueConfig)
    requires a.speculativeChecks == 2 && a.effectivePriority > b.effectivePriority
    ensures FiveQueued(a, b) == Train(Head12(a), [W(5, a), W(3, b), W(4, b)])
  {
    FourQueuedIs(a, b);
    AddFive(FourQueued(a, b), a, b);
    SyncHeadFull(AddPull(FourQueued(a, b), 5, a), a);
  }

  lemma NineQueuedIs(a: PullQueueConfig, b: PullQueueConfig)
    requires a.speculativeChecks == 2 && a.effectivePriority > b.effectivePriority
    ensures NineQueued(a, b)
            == Train(Head12(a), [W(5, a), W(3, b), W(4, b), W(6, b), W(7, b), W(8, b), W(9, b)])
  {
    FiveQueuedIs(a, b);
    var t5 := FiveQueued(a, b);
    AddSixToNine(t5, a, b);
    SyncHeadFull(AddPull(AddPull(AddPull(AddPull(t5, 6, b), 7, b), 8, b), 9, b), a);
  }

  lemma TwoRemovedIs(a: PullQueueConfig, b: PullQueueConfig)
    requires a.speculativeChecks == 2 && a.effectivePriority > b.effectivePriority
    ensures TwoRemoved(a, b)
            == Train([Car([], 1, a), Car([1], 5, a)], [W(3, b), W(4, b), W(6, b), W(7, b), W(8, b), W(9, b)])
  {
    NineQueuedIs(a, b);
    RemoveTwoOfMany(NineQueued(a, b), a, b);
    SyncAfterTwo(RemovePull(NineQueued(a, b), 2, false), a, b);
  }

  lemma QueueTwoEmptiedIs(a: PullQueueConfig, b: PullQueueConfig)
    requires a.speculativeChecks == 2 && b.speculativeChecks == 5
    requires a.effectivePriority > b.effectivePriority
    ensures QueueTwoEmptied(a, b) == Train(LowCars(b), [W(9, b)])
  {
    TwoRemovedIs(a, b);
    var t := TwoRemoved(a, b);
    RemoveOneAndFive(t, a, b);
    SyncLowQueue(RemovePull(RemovePull(t, 1, false), 5, false), b);
    assert t.waiting[5..] == [W(9, b)];
  }

  lemma ContentHead12(t: Train, a: PullQueueConfig)
    requires t.cars == Head12(a)
    ensures CarsContent(t) == [[1], [1, 2]]
  {
    assert t.cars[0].Content() == [1] && t.cars[1].Content() == [1, 2];
  }

  lemma ContentFour(t: Train, a: PullQueueConfig, b: PullQueueConfig)
    requires t == Train(Head12(a), [W(3, b), W(4, b)])
    ensures CarsContent(t) == [[1], [1, 2]] && WaitingContent(t) == [3, 4]
  {
    ContentHead12(t, a);
  }

  lemma ContentFive(t: Train, a: PullQueueConfig, b: PullQueueConfig)
    requires t == Train(Head12(a), [W(5, a), W(3, b), W(4, b)])
    ensures CarsContent(t) == [[1], [1, 2]] && WaitingContent(t) == [5, 3, 4]
  {
    ContentHead12(t, a);
  }

  lemma ContentNine(t: Train, a: PullQueueConfig, b: PullQueueConfig)
    requires t == Train(Head12(a), [W(5, a), W(3, b), W(4, b), W(6, b), W(7, b), W(8, b), W(9, b)])
    ensures CarsContent(t) == [[1], [1, 2]] && WaitingContent(t) == [5, 3, 4, 6, 7, 8, 9]
  {
    ContentHead12(t, a);
  }

  lemma ContentHead15(t: Train, a: PullQueueConfig, b: PullQueueConfig)
    requires t == Train([Car([], 1, a), Car([1], 5, a)], [W(3, b), W(4, b), W(6, b), W(7, b), W(8, b), W(9, b)])
    ensures CarsContent(t) == [[1], [1, 5]] && WaitingContent(t) == [3, 4, 6, 7, 8, 9]
  {
    assert t.cars[0].Content() == [1] && t.cars[1].Content() == [1, 5];
  }

  lemma ContentLowQueue(t: Train, b: PullQueueConfig)
    requires t == Train(LowCars(b), [W(9, b)])
    ensures CarsContent(t) == [[3], [3, 4], [3, 4, 6], [3, 4, 6, 7], [3, 4, 6, 7, 8]]
    ensures WaitingContent(t) == [9]
  {
    assert t.cars[0].Content() == [3] && t.cars[1].Content() == [3, 4];
    assert t.cars[2].Content() == [3, 4, 6] && t.cars[3].Content() == [3, 4, 6, 7];
    assert t.cars[4].Content() == [3, 4, 6, 7, 8];
  }

  /** test_train_mutiple_queue, opening: while queue "two" leads, the
      train has two cars however many pulls wait, and a pull of queue "two"
      overtakes the waiting pulls of queue "five". */
  lemma ScenarioMultipleQueuesWidth(a: PullQueueConfig, b: PullQueueConfig)
    requires a.speculativeChecks == 2 && a.effectivePriority > b.effectivePriority
    ensures CarsContent(FourQueued(a, b)) == [[1], [1, 2]] && WaitingContent(FourQueued(a, b)) == [3, 4]
    ensures CarsContent(FiveQueued(a, b)) == [[1], [1, 2]] && WaitingContent(FiveQueued(a, b)) == [5, 3, 4]
  {
    FourQueuedIs(a, b);
    ContentFour(FourQueued(a, b), a, b);
    FiveQueuedIs(a, b);
    ContentFive(FiveQueued(a, b), a, b);
  }

  /** test_train_mutiple_queue, backlog: four more pulls of queue "five"
      only lengthen the waiting list; the train survives a reload. */
  lemma ScenarioMultipleQueuesBacklog(a: PullQueueConfig, b: PullQueueConfig)
    requires a.speculativeChecks == 2 && a.effectivePriority > b.effectivePriority
    ensures CarsContent(NineQueued(a, b)) == [[1], [1, 2]]
    ensures WaitingContent(NineQueued(a, b)) == [5, 3, 4, 6, 7, 8, 9]
    ensures Reload(NineQueued(a, b)) == Success(NineQueued(a, b))
  {
    NineQueuedIs(a, b);
    ContentNine(NineQueued(a, b), a, b);
    LoadSave(map[], Key, Key, NineQueued(a, b));
  }

  /** test_train_mutiple_queue, removals: removing pull 2 lets pull 5
      take its place; once queue "two" has no pull left the head belongs to
      queue "five" and the train grows to five cars; the train survives a
      reload. */
  lemma ScenarioMultipleQueuesRemovals(a: PullQueueConfig, b: PullQueueConfig)
    requires a.speculativeChecks == 2 && b.speculativeChecks == 5
    requires a.effectivePriority > b.effectivePriority
    ensures CarsContent(TwoRemoved(a, b)) == [[1], [1, 5]]
    ensures WaitingContent(TwoRemoved(a, b)) == [3, 4, 6, 7, 8, 9]
    ensures CarsContent(QueueTwoEmptied(a, b)) == [[3], [3, 4], [3, 4, 6], [3, 4, 6, 7], [3, 4, 6, 7, 8]]
    ensures WaitingContent(QueueTwoEmptied(a, b)) == [9]
    ensures Reload(QueueTwoEmptied(a, b)) == Success(QueueTwoEmptied(a, b))
  {
    TwoRemovedIs(a, b);
    ContentHead15(TwoRemoved(a, b), a, b);
    QueueTwoEmptiedIs(a, b);
    ContentLowQueue(QueueTwoEmptied(a, b), b);
    LoadSave(map[], Key, Key, QueueTwoEmptied(a, b));
  }

  /** The configurations the scenarios use meet the scenario lemmas'
      requirements. */
  lemma ScenarioConfigs()
    ensures GetConfig(RuleFive, 0).speculativeChecks == 5 && GetConfig(RuleFive, 10).speculativeChecks == 5
    ensures GetConfig(RuleFive, 1000).effectivePriority > GetConfig(RuleFive, 100).effectivePriority
    ensures GetConfig(RuleTwo, 0).speculativeChecks == 2
    ensures GetConfig(RuleTwo, 0).effectivePriority > GetConfig(RuleFive, 0).effectivePriority
  {
  }
}
