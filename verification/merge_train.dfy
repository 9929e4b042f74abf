/** The merge train of one (repository, branch): an ordered sequence of
    speculative cars, each testing its parents plus its own pull, followed
    by the pulls still waiting for a car.

    The logical queue ("members") is the cars' own pulls followed by the
    waiting pulls. `AddPull` and `RemovePull` edit that queue and discard
    the cars whose speculative state it invalidates; `Refresh` then
    reconciles the cars with the width of the head pull's queue. */
module MergeTrain {
  import opened Wrappers
  import opened QueueConfig

  type PullNumber = int

  /** A queued pull that has no car yet. */
  datatype WaitingPull = WaitingPull(pull: PullNumber, config: PullQueueConfig)

  /** A speculative batch: `parents + [pull]` is tested together in the
      throwaway pull request `queuePull`. Parents are stored, not derived:
      once the head car lands, the next cars keep the landed pull as a
      parent. */
  datatype TrainCar = TrainCar(
    parents: seq<PullNumber>,
    pull: PullNumber,
    config: PullQueueConfig,
    queuePull: int)
  {
    /** The pulls this car tests, oldest first. */
    function Content(): seq<PullNumber> {
      parents + [pull]
    }

    function AsWaiting(): WaitingPull {
      WaitingPull(pull, config)
    }
  }

  datatype Train = Train(cars: seq<TrainCar>, waiting: seq<WaitingPull>)

  const EmptyTrain: Train := Train([], [])

  function CarsAsWaiting(cars: seq<TrainCar>): seq<WaitingPull> {
    seq(|cars|, i requires 0 <= i < |cars| => cars[i].AsWaiting())
  }

  /** The logical queue: car pulls first, then waiting pulls. */
  function Members(t: Train): seq<WaitingPull> {
    CarsAsWaiting(t.cars) + t.waiting
  }

  function PullsOf(ws: seq<WaitingPull>): seq<PullNumber> {
    seq(|ws|, i requires 0 <= i < |ws| => ws[i].pull)
  }

  /** The pull numbers of the logical queue, in order. */
  function Pulls(t: Train): seq<PullNumber> {
    PullsOf(Members(t))
  }

  /** What each car tests, as the tests read it (`get_cars_content`). */
  function CarsContent(t: Train): seq<seq<PullNumber>> {
    seq(|t.cars|, i requires 0 <= i < |t.cars| => t.cars[i].Content())
  }

  /** The waiting pull numbers (`get_waiting_content`). */
  function WaitingContent(t: Train): seq<PullNumber> {
    PullsOf(t.waiting)
  }

  ghost predicate Distinct(s: seq<PullNumber>) {
    forall i, j :: 0 <= i < j < |s| ==> s[i] != s[j]
  }

  /** Every car extends the previous car's content by exactly its own pull. */
  ghost predicate Chained(cars: seq<TrainCar>) {
    forall i :: 0 < i < |cars| ==> cars[i].parents == cars[i - 1].Content()
  }

  /** No car rests on a landed pull: the first car has no parents. */
  ghost predicate Rooted(cars: seq<TrainCar>) {
    |cars| == 0 || cars[0].parents == []
  }

  /** The train invariant: each pull is queued once and the cars form a chain. */
  ghost predicate Valid(t: Train) {
    Distinct(Pulls(t)) && Chained(t.cars)
  }

  /** The train width: `speculative_checks` of the head pull's queue. */
  function Width(t: Train): nat {
    var ms := Members(t);
    if |ms| == 0 then 0 else ms[0].config.speculativeChecks
  }

  function Min(a: nat, b: nat): nat {
    if a <= b then a else b
  }

  /** Position of `p` in the queue `ws`, if queued. */
  function IndexOf(ws: seq<WaitingPull>, p: PullNumber): (r: Option<nat>)
    ensures r.None? <==> p !in PullsOf(ws)
    ensures r.Some? ==> r.value < |ws| && ws[r.value].pull == p
    ensures r.Some? ==> forall i :: 0 <= i < r.value ==> ws[i].pull != p
  {
    if |ws| == 0 then None
    else if ws[0].pull == p then
      assert PullsOf(ws)[0] == p;
      Some(0)
    else
      var rest := IndexOf(ws[1..], p);
      assert PullsOf(ws) == [ws[0].pull] + PullsOf(ws[1..]);
      match rest
      case None => None
      case Some(k) => Some(k + 1)
  }

  /** Stable priority insertion point: before the first entry of strictly
      lower effective priority, after every entry of equal or higher one. */
  function InsertPosition(ws: seq<WaitingPull>, priority: int): (k: nat)
    ensures k <= |ws|
    ensures forall i :: 0 <= i < k ==> ws[i].config.effectivePriority >= priority
    ensures k < |ws| ==> ws[k].config.effectivePriority < priority
  {
    if |ws| == 0 || ws[0].config.effectivePriority < priority then 0
    else 1 + InsertPosition(ws[1..], priority)
  }

  /** Discards the cars from position `k` on; their pulls go back to the
      front of the waiting list, in their order. */
  function SliceCarsAt(t: Train, k: nat): (r: Train)
    ensures Members(r) == Members(t)
    ensures r.cars == t.cars[..Min(k, |t.cars|)]
  {
    var m := Min(k, |t.cars|);
    var r := Train(t.cars[..m], CarsAsWaiting(t.cars[m..]) + t.waiting);
    assert CarsAsWaiting(t.cars) == CarsAsWaiting(t.cars[..m]) + CarsAsWaiting(t.cars[m..]);
    r
  }

  function InsertAt(ws: seq<WaitingPull>, k: nat, w: WaitingPull): seq<WaitingPull>
    requires k <= |ws|
  {
    ws[..k] + [w] + ws[k..]
  }

  function RemoveAt(ws: seq<WaitingPull>, k: nat): seq<WaitingPull>
    requires k < |ws|
  {
    ws[..k] + ws[k + 1..]
  }

  /** Replaces the configuration of the queue entry at position `k`,
      wherever it sits (in a car or waiting). */
  function SetConfigAt(t: Train, k: nat, config: PullQueueConfig): (r: Train)
    requires k < |Members(t)|
    ensures Members(r) == Members(t)[k := WaitingPull(Members(t)[k].pull, config)]
    ensures |r.cars| == |t.cars|
    ensures forall i :: 0 <= i < |t.cars| ==>
              r.cars[i].parents == t.cars[i].parents && r.cars[i].pull == t.cars[i].pull
              && r.cars[i].queuePull == t.cars[i].queuePull
  {
    if k < |t.cars| then
      Train(t.cars[k := t.cars[k].(config := config)], t.waiting)
    else
      var j := k - |t.cars|;
      Train(t.cars, t.waiting[j := WaitingPull(t.waiting[j].pull, config)])
  }

  /** `Train.add_pull`: a pull already queued keeps its place and only has
      its configuration replaced; a new pull is inserted at its stable
      priority position, discarding the cars from that position on. */
  function AddPull(t: Train, p: PullNumber, config: PullQueueConfig): (r: Train)
    ensures p in Pulls(t) ==> Pulls(r) == Pulls(t) && CarsContent(r) == CarsContent(t)
    ensures p in Pulls(t) ==>
              var k := IndexOf(Members(t), p).value;
              Members(r) == Members(t)[k := WaitingPull(p, config)]
    ensures p !in Pulls(t) ==>
              var k := InsertPosition(Members(t), config.effectivePriority);
              Members(r) == InsertAt(Members(t), k, WaitingPull(p, config))
              && r.cars == t.cars[..Min(k, |t.cars|)]
  {
    var ms := Members(t);
    match IndexOf(ms, p)
    case Some(k) =>
      var r := SetConfigAt(t, k, config);
      assert CarsContent(r) == CarsContent(t);
      assert PullsOf(Members(r)) == PullsOf(ms);
      r
    case None =>
      InsertInto(t, InsertPosition(ms, config.effectivePriority), WaitingPull(p, config))
  }

  /** Inserts `w` into the queue at position `k`, turning the cars from that
      position on back into waiting pulls. */
  function InsertInto(t: Train, k: nat, w: WaitingPull): (r: Train)
    requires k <= |Members(t)|
    ensures r.cars == t.cars[..Min(k, |t.cars|)]
    ensures Members(r) == InsertAt(Members(t), k, w)
  {
    var s := SliceCarsAt(t, k);
    var a := CarsAsWaiting(s.cars);
    InsertAtAfter(a, s.waiting, k - |a|, w);
    Train(s.cars, InsertAt(s.waiting, k - |a|, w))
  }

  lemma InsertAtAfter(a: seq<WaitingPull>, ws: seq<WaitingPull>, j: nat, w: WaitingPull)
    requires j <= |ws|
    ensures InsertAt(a + ws, |a| + j, w) == a + InsertAt(ws, j, w)
  {
    assert (a + ws)[..|a| + j] == a + ws[..j];
    assert (a + ws)[|a| + j..] == ws[j..];
  }

  /** `Train.remove_pull`: removing an absent pull changes nothing; a merged
      head only drops the head car and leaves the others untouched; any
      other removal discards the cars from the pull's position on and
      sends their other pulls back to the front of the waiting list. */
  function RemovePull(t: Train, p: PullNumber, merged: bool): (r: Train)
    ensures p !in Pulls(t) ==> r == t
    ensures merged && |t.cars| > 0 && t.cars[0].pull == p ==>
              r.cars == t.cars[1..] && r.waiting == t.waiting
    ensures p in Pulls(t) && !(merged && |t.cars| > 0 && t.cars[0].pull == p) ==>
              var k := IndexOf(Members(t), p).value;
              r.cars == t.cars[..Min(k, |t.cars|)]
    ensures p in Pulls(t) ==>
              var k := IndexOf(Members(t), p).value;
              Members(r) == RemoveAt(Members(t), k)
  {
    var ms := Members(t);
    match IndexOf(ms, p)
    case None => t
    case Some(k) =>
      if merged && |t.cars| > 0 && t.cars[0].pull == p then
        assert ms[0].pull == p;
        DropHeadCar(t)
      else
        CutAt(t, k)
  }

  /** Removes the queue entry at position `k`, turning the cars from that
      position on back into waiting pulls. */
  function CutAt(t: Train, k: nat): (r: Train)
    requires k < |Members(t)|
    ensures r.cars == t.cars[..Min(k, |t.cars|)]
    ensures Members(r) == RemoveAt(Members(t), k)
  {
    var s := SliceCarsAt(t, k);
    var a := CarsAsWaiting(s.cars);
    RemoveAtAfter(a, s.waiting, k - |a|);
    Train(s.cars, RemoveAt(s.waiting, k - |a|))
  }

  lemma RemoveAtAfter(a: seq<WaitingPull>, w: seq<WaitingPull>, j: nat)
    requires j < |w|
    ensures RemoveAt(a + w, |a| + j) == a + RemoveAt(w, j)
  {
    assert (a + w)[..|a| + j] == a + w[..j];
    assert (a + w)[|a| + j + 1..] == w[j + 1..];
  }

  /** The head car's pull has landed: the remaining cars stay as they are. */
  function DropHeadCar(t: Train): (r: Train)
    requires |t.cars| > 0
    ensures r.cars == t.cars[1..] && r.waiting == t.waiting
    ensures Members(r) == RemoveAt(Members(t), 0)
  {
    var r := Train(t.cars[1..], t.waiting);
    assert CarsAsWaiting(t.cars) == [t.cars[0].AsWaiting()] + CarsAsWaiting(t.cars[1..]);
    r
  }

  /** New cars for the waiting pulls `ws`, each extending the content of the
      car before it; `base` is the content of the last existing car. The
      throwaway pull request of each car comes from `create`. */
  function BuildCars(base: seq<PullNumber>, ws: seq<WaitingPull>,
                     create: (seq<PullNumber>, PullNumber) -> int): (cars: seq<TrainCar>)
    ensures CarsAsWaiting(cars) == ws
    ensures |ws| > 0 ==> cars[0].parents == base
    ensures Chained(cars)
    ensures forall i :: 0 <= i < |cars| ==> cars[i].queuePull == create(cars[i].parents, cars[i].pull)
    decreases |ws|
  {
    if |ws| == 0 then []
    else
      var car := TrainCar(base, ws[0].pull, ws[0].config, create(base, ws[0].pull));
      var rest := BuildCars(car.Content(), ws[1..], create);
      assert CarsAsWaiting([car] + rest) == [car.AsWaiting()] + CarsAsWaiting(rest);
      [car] + rest
  }

  /** The content the next new car builds on. */
  function LastContent(cars: seq<TrainCar>): seq<PullNumber> {
    if |cars| == 0 then [] else cars[|cars| - 1].Content()
  }

  /** `Train.refresh`: cars beyond the width of the head pull's queue are
      torn down and their pulls go back to the front of the waiting list;
      free slots are filled from the front of the waiting list. Existing
      cars within the width are kept as they are. */
  function Refresh(t: Train, create: (seq<PullNumber>, PullNumber) -> int): (r: Train)
    ensures Members(r) == Members(t)
    ensures |r.cars| == Min(Width(t), |Members(t)|)
    ensures |t.cars| <= Width(t) ==> r.cars[..|t.cars|] == t.cars
    ensures |t.cars| > Width(t) ==> r.cars == t.cars[..Width(t)]
    ensures forall i :: |t.cars| <= i < |r.cars| ==>
              r.cars[i].queuePull == create(r.cars[i].parents, r.cars[i].pull)
    ensures |t.cars| < |r.cars| ==> r.cars[|t.cars|].parents == LastContent(t.cars)
    ensures forall i :: |t.cars| < i < |r.cars| ==> r.cars[i].parents == r.cars[i - 1].Content()
  {
    var w := Width(t);
    if |t.cars| > w then SliceCarsAt(t, w) else FillCars(t, w - |t.cars|, create)
  }

  /** Adds up to `free` new cars for the front of the waiting list, chained
      onto the last existing car. */
  function FillCars(t: Train, free: nat, create: (seq<PullNumber>, PullNumber) -> int): (r: Train)
    ensures Members(r) == Members(t)
    ensures |r.cars| == |t.cars| + Min(free, |t.waiting|)
    ensures r.cars[..|t.cars|] == t.cars
    ensures forall i :: |t.cars| <= i < |r.cars| ==>
              r.cars[i].queuePull == create(r.cars[i].parents, r.cars[i].pull)
    ensures |t.cars| < |r.cars| ==> r.cars[|t.cars|].parents == LastContent(t.cars)
    ensures forall i :: |t.cars| < i < |r.cars| ==> r.cars[i].parents == r.cars[i - 1].Content()
  {
    var n := Min(free, |t.waiting|);
    var added := BuildCars(LastContent(t.cars), t.waiting[..n], create);
    var r := Train(t.cars + added, t.waiting[n..]);
    assert CarsAsWaiting(t.cars + added) == CarsAsWaiting(t.cars) + CarsAsWaiting(added);
    assert Members(r) == CarsAsWaiting(t.cars) + (t.waiting[..n] + t.waiting[n..]);
    assert (t.cars + added)[..|t.cars|] == t.cars;
    assert forall i :: |t.cars| <= i < |r.cars| ==> r.cars[i] == added[i - |t.cars|];
    r
  }
}
