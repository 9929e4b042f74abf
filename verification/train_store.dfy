/** Persistence of a merge train: the state is serialised as a JSON-like
    document under a key made of the repository id and the branch, and
    read back with schema validation. Loading a key that was never saved
    yields an empty train. */
module TrainStore {
  import opened Wrappers
  import opened QueueConfig
  import opened MergeTrain

  /** The document model of the key-value store. */
  datatype Json = JInt(n: int) | JStr(s: string) | JArr(items: seq<Json>) | JObj(fields: map<string, Json>)

  /** `train/{repository_id}/{branch}`. */
  datatype StoreKey = StoreKey(repositoryId: int, branch: string)

  type Store = map<StoreKey, Json>

  /** The stored state fails schema validation. */
  datatype LoadError = PersistenceCorruption(detail: string)

  // Encoding

  function EncodeAll<T>(xs: seq<T>, encode: T -> Json): Json {
    JArr(seq(|xs|, i requires 0 <= i < |xs| => encode(xs[i])))
  }

  function EncodeInt(n: int): Json {
    JInt(n)
  }

  function EncodeConfig(c: PullQueueConfig): Json {
    JObj(map[
      "name" := JStr(c.name),
      "priority" := JInt(c.priority),
      "effective_priority" := JInt(c.effectivePriority),
      "queue_config" := JObj(map["speculative_checks" := JInt(c.speculativeChecks)])])
  }

  function EncodeCar(car: TrainCar): Json {
    JObj(map[
      "parent_pull_request_numbers" := EncodeAll(car.parents, EncodeInt),
      "user_pull_request_number" := JInt(car.pull),
      "config" := EncodeConfig(car.config),
      "queue_pull_request_number" := JInt(car.queuePull)])
  }

  function EncodeWaiting(w: WaitingPull): Json {
    JObj(map[
      "user_pull_request_number" := JInt(w.pull),
      "config" := EncodeConfig(w.config)])
  }

  function EncodeTrain(t: Train): Json {
    JObj(map[
      "cars" := EncodeAll(t.cars, EncodeCar),
      "waiting_pulls" := EncodeAll(t.waiting, EncodeWaiting)])
  }

  // Decoding, with schema validation

  function Field(j: Json, name: string): Result<Json, LoadError> {
    if j.JObj? && name in j.fields then Success(j.fields[name])
    else Failure(PersistenceCorruption("missing field " + name))
  }

  function DecodeInt(j: Json): Result<int, LoadError> {
    if j.JInt? then Success(j.n) else Failure(PersistenceCorruption("integer expected"))
  }

  function DecodeString(j: Json): Result<string, LoadError> {
    if j.JStr? then Success(j.s) else Failure(PersistenceCorruption("string expected"))
  }

  function DecodeNat(j: Json): Result<nat, LoadError> {
    if j.JInt? && j.n >= 0 then Success(j.n)
    else Failure(PersistenceCorruption("non-negative integer expected"))
  }

  function IntField(j: Json, name: string): Result<int, LoadError> {
    match Field(j, name)
    case Failure(e) => Failure(e)
    case Success(v) => DecodeInt(v)
  }

  /** Decodes every item of a list, failing on the first bad one. */
  function DecodeItems<T>(items: seq<Json>, decode: Json -> Result<T, LoadError>): (r: Result<seq<T>, LoadError>)
    ensures r.Success? ==> |r.value| == |items|
    ensures r.Success? ==> forall i :: 0 <= i < |items| ==> decode(items[i]) == Success(r.value[i])
    ensures r.Failure? ==> exists i :: 0 <= i < |items| && decode(items[i]).Failure?
  {
    if |items| == 0 then Success([])
    else
      match decode(items[0])
      case Failure(e) => Failure(e)
      case Success(x) =>
        match DecodeItems(items[1..], decode)
        case Failure(e) =>
          var i :| 0 <= i < |items[1..]| && decode(items[1..][i]).Failure?;
          assert decode(items[i + 1]).Failure?;
          Failure(e)
        case Success(xs) => Success([x] + xs)
  }

  function DecodeAll<T>(j: Json, decode: Json -> Result<T, LoadError>): Result<seq<T>, LoadError> {
    if j.JArr? then DecodeItems(j.items, decode)
    else Failure(PersistenceCorruption("list expected"))
  }

  function DecodeConfig(j: Json): Result<PullQueueConfig, LoadError> {
    match Field(j, "name")
    case Failure(e) => Failure(e)
    case Success(name) =>
      match DecodeString(name)
      case Failure(e) => Failure(e)
      case Success(n) =>
        match IntField(j, "priority")
        case Failure(e) => Failure(e)
        case Success(priority) =>
          match IntField(j, "effective_priority")
          case Failure(e) => Failure(e)
          case Success(effective) =>
            match Field(j, "queue_config")
            case Failure(e) => Failure(e)
            case Success(qc) =>
              match Field(qc, "speculative_checks")
              case Failure(e) => Failure(e)
              case Success(width) =>
                match DecodeNat(width)
                case Failure(e) => Failure(e)
                case Success(w) => Success(PullQueueConfig(n, priority, effective, w))
  }

  function DecodeCar(j: Json): Result<TrainCar, LoadError> {
    match Field(j, "parent_pull_request_numbers")
    case Failure(e) => Failure(e)
    case Success(ps) =>
      match DecodeAll(ps, DecodeInt)
      case Failure(e) => Failure(e)
      case Success(parents) =>
        match IntField(j, "user_pull_request_number")
        case Failure(e) => Failure(e)
        case Success(pull) =>
          match Field(j, "config")
          case Failure(e) => Failure(e)
          case Success(cj) =>
            match DecodeConfig(cj)
            case Failure(e) => Failure(e)
            case Success(config) =>
              match IntField(j, "queue_pull_request_number")
              case Failure(e) => Failure(e)
              case Success(queuePull) => Success(TrainCar(parents, pull, config, queuePull))
  }

  function DecodeWaiting(j: Json): Result<WaitingPull, LoadError> {
    match IntField(j, "user_pull_request_number")
    case Failure(e) => Failure(e)
    case Success(pull) =>
      match Field(j, "config")
      case Failure(e) => Failure(e)
      case Success(cj) =>
        match DecodeConfig(cj)
        case Failure(e) => Failure(e)
        case Success(config) => Success(WaitingPull(pull, config))
  }

  function DecodeTrain(j: Json): Result<Train, LoadError> {
    match Field(j, "cars")
    case Failure(e) => Failure(e)
    case Success(cs) =>
      match DecodeAll(cs, DecodeCar)
      case Failure(e) => Failure(e)
      case Success(cars) =>
        match Field(j, "waiting_pulls")
        case Failure(e) => Failure(e)
        case Success(ws) =>
          match DecodeAll(ws, DecodeWaiting)
          case Failure(e) => Failure(e)
          case Success(waiting) => Success(Train(cars, waiting))
  }

  // The store

  /** `Train.save`: the train's document replaces whatever the key held. */
  function Save(store: Store, key: StoreKey, t: Train): Store {
    store[key := EncodeTrain(t)]
  }

  /** `Train.load`: a key never saved yields an empty train; a stored
      document that fails validation is reported, never repaired. */
  function Load(store: Store, key: StoreKey): Result<Train, LoadError> {
    if key !in store then Success(EmptyTrain) else DecodeTrain(store[key])
  }

  // Round trips

  lemma {:induction false} DecodeItemsEncoded<T>(xs: seq<T>, encode: T -> Json, decode: Json -> Result<T, LoadError>)
    requires forall x :: decode(encode(x)) == Success(x)
    ensures DecodeAll(EncodeAll(xs, encode), decode) == Success(xs)
    decreases |xs|
  {
    if |xs| > 0 {
      DecodeItemsEncoded(xs[1..], encode, decode);
      assert EncodeAll(xs, encode).items[1..] == EncodeAll(xs[1..], encode).items;
      assert [xs[0]] + xs[1..] == xs;
    }
  }

  lemma ConfigRoundTrip(c: PullQueueConfig)
    ensures DecodeConfig(EncodeConfig(c)) == Success(c)
  {
  }

  /** Each field of an encoded car reads back as written. */
  lemma CarFields(car: TrainCar)
    ensures Field(EncodeCar(car), "parent_pull_request_numbers") == Success(EncodeAll(car.parents, EncodeInt))
    ensures IntField(EncodeCar(car), "user_pull_request_number") == Success(car.pull)
    ensures Field(EncodeCar(car), "config") == Success(EncodeConfig(car.config))
    ensures IntField(EncodeCar(car), "queue_pull_request_number") == Success(car.queuePull)
  {
  }

  lemma CarRoundTrip(car: TrainCar)
    ensures DecodeCar(EncodeCar(car)) == Success(car)
  {
    CarFields(car);
    DecodeItemsEncoded(car.parents, EncodeInt, DecodeInt);
    ConfigRoundTrip(car.config);
  }

  lemma WaitingRoundTrip(w: WaitingPull)
    ensures DecodeWaiting(EncodeWaiting(w)) == Success(w)
  {
    ConfigRoundTrip(w.config);
  }

  /** Decoding an encoded train gives the train back, cars and waiting
      pulls alike. */
  lemma TrainRoundTrip(t: Train)
    ensures DecodeTrain(EncodeTrain(t)) == Success(t)
  {
    forall car: TrainCar ensures DecodeCar(EncodeCar(car)) == Success(car) {
      CarRoundTrip(car);
    }
    forall w: WaitingPull ensures DecodeWaiting(EncodeWaiting(w)) == Success(w) {
      WaitingRoundTrip(w);
    }
    DecodeItemsEncoded(t.cars, EncodeCar, DecodeCar);
    DecodeItemsEncoded(t.waiting, EncodeWaiting, DecodeWaiting);
    TrainFields(t);
  }

  lemma TrainFields(t: Train)
    ensures Field(EncodeTrain(t), "cars") == Success(EncodeAll(t.cars, EncodeCar))
    ensures Field(EncodeTrain(t), "waiting_pulls") == Success(EncodeAll(t.waiting, EncodeWaiting))
  {
  }

  /** A train loaded after being saved under the same key is the saved
      train; saving under one key leaves every other key's train alone;
      a key never saved loads as the empty train. */
  lemma LoadSave(store: Store, key: StoreKey, other: StoreKey, t: Train)
    ensures Load(Save(store, key, t), key) == Success(t)
    ensures other != key ==> Load(Save(store, key, t), other) == Load(store, other)
    ensures key !in store ==> Load(store, key) == Success(EmptyTrain)
  {
    TrainRoundTrip(t);
  }
}
