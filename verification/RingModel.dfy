/**
  The shared-memory frame ring of src/shm_ring.c as a step machine.

  Every step performs at most one access to a shared word (a slot's state, a
  slot's refcount, or last_ready), so any order of steps is one sequentially
  consistent interleaving of one producer with any number of consumers.
  Fields that only the proofs look at (`frame`, `frames`, `landed`, `home` and
  the counters of a consumer) never influence a step.
*/
module RingModel {
  import opened Options

  // SHM_RETAIN_TRIES
  const RETAIN_TRIES: nat := 4

  datatype Phase = Free | Writing | Ready

  // `frame` is the number of the frame this slot last published.
  datatype Slot = Slot(phase: Phase, refcount: int, payload: seq<int>, frame: nat)

  // Where shm_ring_acquire_slot stands inside one round of its scan.
  datatype Point =
    | Top        // about to test idx == published and to read the refcount
    | Filtered   // the pre-filter read refcount 0
    | Loaded     // the previous state has been read
    | Claimed    // WRITING has been stored, the refcount is still to be re-read
    | Undo       // the re-read saw a consumer, the previous state is to be restored

  datatype Producer =
    | Idle
    | Scanning(point: Point, published: Option<nat>, attempt: nat, prev: Phase)
    | Publishing(slot: nat)  // READY has been stored, last_ready has not

  // Where shm_ring_retain_latest stands.
  datatype Pc =
    | Resting  // not in a call and holding nothing
    | Trying   // about to load last_ready
    | Aimed    // last_ready loaded
    | Staked   // refcount incremented
    | Backing  // state was not READY, the increment is to be undone
    | Holding  // the call returned a slot that has not been released
    | Failed   // the call returns -1

  // called, loaded: number of last_ready stores when the call started and when
  // last_ready was last loaded.  seen: the frame this consumer retained last.
  datatype Consumer = Consumer(pc: Pc, idx: nat, tries: nat, called: nat, loaded: nat, seen: nat)
  {
    predicate Claims(i: nat) {
      (pc.Staked? || pc.Backing? || pc.Holding?) && idx == i
    }

    // The slot this consumer may be counted on, or is about to be.
    function Target(): Option<nat> {
      if pc.Aimed? || pc.Staked? || pc.Backing? || pc.Holding? then Some(idx) else None
    }
  }

  // frames: contents of every published frame, oldest first.
  // landed: number of stores to last_ready.
  // home: each consumer's target when the current scan began.
  datatype State = State(
    slots: seq<Slot>,
    lastReady: Option<nat>,
    cursor: nat,
    producer: Producer,
    owned: set<nat>,
    consumers: seq<Consumer>,
    frames: seq<seq<int>>,
    landed: nat,
    home: seq<Option<nat>>)

  datatype ProducerStep =
    | BeginAcquire           // load last_ready
    | Filter(count: int)     // loop head and pre-filter; count is what the relaxed load returns
    | LoadState
    | Claim
    | Recheck
    | Restore
    | Write(slot: nat, word: nat, value: int)
    | StoreReady(slot: nat)  // first store of shm_ring_publish_slot
    | StoreLast              // second store of shm_ring_publish_slot
    | Abandon(slot: nat)

  datatype ConsumerStep = Call | LoadLast | Stake | Check | BackOff | Release | Return

  datatype Step = ByProducer(p: ProducerStep) | ByConsumer(c: nat, k: ConsumerStep)

  function Visited(s: State, attempt: nat): (i: nat)
    requires |s.slots| > 0
    ensures i < |s.slots|
  {
    (s.cursor + attempt) % |s.slots|
  }

  // The slot the producer is working on within its scan.
  function Current(s: State): nat
    requires |s.slots| > 0 && s.producer.Scanning?
  {
    Visited(s, s.producer.attempt)
  }

  // The scan ran past its last attempt: shm_ring_acquire_slot returns -1.
  predicate Starved(s: State) {
    s.producer.Scanning? && s.producer.point.Top? && s.producer.attempt > |s.slots|
  }

  predicate ProducerCan(s: State, p: ProducerStep) {
    && |s.slots| > 0
    && match p
       case BeginAcquire => s.producer.Idle?
       case Filter(_) => s.producer.Scanning? && s.producer.point.Top?
       case LoadState => s.producer.Scanning? && s.producer.point.Filtered?
       case Claim => s.producer.Scanning? && s.producer.point.Loaded?
       case Recheck => s.producer.Scanning? && s.producer.point.Claimed?
       case Restore => s.producer.Scanning? && s.producer.point.Undo?
       case Write(i, w, _) =>
         s.producer.Idle? && i in s.owned && i < |s.slots| && w < |s.slots[i].payload|
       case StoreReady(i) => s.producer.Idle? && i in s.owned && i < |s.slots|
       case StoreLast => s.producer.Publishing?
       case Abandon(i) => s.producer.Idle? && i in s.owned && i < |s.slots|
  }

  function SetPhase(s: State, i: nat, phase: Phase): State
    requires i < |s.slots|
  {
    s.(slots := s.slots[i := s.slots[i].(phase := phase)])
  }

  function NextAttempt(s: State): State
    requires s.producer.Scanning?
  {
    s.(producer := s.producer.(point := Top, attempt := s.producer.attempt + 1))
  }

  function Targets(cs: seq<Consumer>): (t: seq<Option<nat>>)
    ensures |t| == |cs| && forall c :: 0 <= c < |cs| ==> t[c] == cs[c].Target()
  {
    seq(|cs|, c requires 0 <= c < |cs| => cs[c].Target())
  }

  function ProducerDo(s: State, p: ProducerStep): State
    requires ProducerCan(s, p)
  {
    match p
    case BeginAcquire =>
      s.(producer := Scanning(Top, s.lastReady, 1, Free), home := Targets(s.consumers))
    case Filter(count) =>
      if s.producer.attempt > |s.slots| then s.(producer := Idle)
      else if Some(Current(s)) == s.producer.published || count != 0 then NextAttempt(s)
      else s.(producer := s.producer.(point := Filtered))
    case LoadState =>
      var prev := s.slots[Current(s)].phase;
      if prev == Writing then NextAttempt(s)
      else s.(producer := s.producer.(point := Loaded, prev := prev))
    case Claim =>
      SetPhase(s, Current(s), Writing).(producer := s.producer.(point := Claimed))
    case Recheck =>
      if s.slots[Current(s)].refcount != 0 then s.(producer := s.producer.(point := Undo))
      else s.(producer := Idle, owned := s.owned + {Current(s)}, cursor := Current(s))
    case Restore =>
      NextAttempt(SetPhase(s, Current(s), s.producer.prev))
    case Write(i, w, v) =>
      var slot := s.slots[i];
      s.(slots := s.slots[i := slot.(payload := slot.payload[w := v])])
    case StoreReady(i) =>
      s.(slots := s.slots[i := s.slots[i].(phase := Ready, frame := |s.frames|)],
         frames := s.frames + [s.slots[i].payload],
         owned := s.owned - {i},
         producer := Publishing(i))
    case StoreLast =>
      s.(lastReady := Some(s.producer.slot), landed := s.landed + 1, producer := Idle)
    case Abandon(i) =>
      SetPhase(s, i, Free).(owned := s.owned - {i})
  }

  predicate ConsumerCan(s: State, c: nat, k: ConsumerStep) {
    && c < |s.consumers|
    && var me := s.consumers[c];
       match k
       case Call => me.pc.Resting?
       case LoadLast => me.pc.Trying?
       case Stake => me.pc.Aimed? && me.idx < |s.slots|
       case Check => me.pc.Staked? && me.idx < |s.slots|
       case BackOff => me.pc.Backing? && me.idx < |s.slots|
       case Release => me.pc.Holding? && me.idx < |s.slots|
       case Return => me.pc.Failed?
  }

  function SetConsumer(s: State, c: nat, x: Consumer): State
    requires c < |s.consumers|
  {
    s.(consumers := s.consumers[c := x])
  }

  function AddRef(s: State, i: nat, delta: int): State
    requires i < |s.slots|
  {
    s.(slots := s.slots[i := s.slots[i].(refcount := s.slots[i].refcount + delta)])
  }

  function ConsumerDo(s: State, c: nat, k: ConsumerStep): State
    requires ConsumerCan(s, c, k)
  {
    var me := s.consumers[c];
    match k
    case Call =>
      SetConsumer(s, c, me.(pc := Trying, tries := 0, called := s.landed))
    case LoadLast =>
      if me.tries >= RETAIN_TRIES || s.lastReady.None? || s.lastReady.value >= |s.slots|
      then SetConsumer(s, c, me.(pc := Failed))
      else SetConsumer(s, c, me.(pc := Aimed, idx := s.lastReady.value, loaded := s.landed))
    case Stake =>
      SetConsumer(AddRef(s, me.idx, 1), c, me.(pc := Staked))
    case Check =>
      if s.slots[me.idx].phase == Ready
      then SetConsumer(s, c, me.(pc := Holding, seen := s.slots[me.idx].frame))
      else SetConsumer(s, c, me.(pc := Backing))
    case BackOff =>
      SetConsumer(AddRef(s, me.idx, -1), c, me.(pc := Trying, tries := me.tries + 1))
    case Release =>
      SetConsumer(AddRef(s, me.idx, -1), c, me.(pc := Resting))
    case Return =>
      SetConsumer(s, c, me.(pc := Resting))
  }

  predicate Can(s: State, a: Step) {
    match a
    case ByProducer(p) => ProducerCan(s, p)
    case ByConsumer(c, k) => ConsumerCan(s, c, k)
  }

  function Do(s: State, a: Step): State
    requires Can(s, a)
  {
    match a
    case ByProducer(p) => ProducerDo(s, p)
    case ByConsumer(c, k) => ConsumerDo(s, c, k)
  }

  // shm_ring_create: no slot is owned, none is published, nobody is counted.
  predicate Init(s: State) {
    && |s.slots| >= 2
    && (forall i :: 0 <= i < |s.slots| ==> s.slots[i].phase == Free && s.slots[i].refcount == 0)
    && s.lastReady == None && s.cursor == 0 && s.producer == Idle && s.owned == {}
    && (forall c :: 0 <= c < |s.consumers| ==> s.consumers[c].pc == Resting && s.consumers[c].seen == 0)
    && s.frames == [] && s.landed == 0
  }
}
