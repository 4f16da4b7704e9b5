/** The cached database scan behind the health page. The scan reads the whole database, so its
    result is kept for a while and at most one request per engine runs it; the others wait and then
    use what it stored.

    A request is a coroutine: it runs without interruption from one await to the next, and other
    requests, cancellations and the clock come in between. */
module HealthCache {
  import opened Wrappers

  const TTL: real := 300.0

  /** The verdict of a scan that ran to its end. */
  datatype Verdict = Sound | Broken

  /** One engine's state: the stored verdict, when it expires, who holds the lock. */
  datatype Cache = Cache(result: Option<Verdict>, expiresAt: real, holder: Option<int>)

  const EMPTY: Cache := Cache(None, 0.0, None)

  function Fresh(c: Cache, now: real): Option<Verdict> {
    if c.result.None? || now >= c.expiresAt then None else c.result
  }

  function Store(c: Cache, v: Verdict, now: real): Cache {
    c.(result := Some(v), expiresAt := now + TTL)
  }

  /** Taking the free lock and looking again: the lock is kept only if there is still nothing to
      use. */
  function Enter(c: Cache, id: int, now: real): Cache
    requires c.holder.None?
  {
    if Fresh(c, now).None? then c.(holder := Some(id)) else c
  }

  function Leave(c: Cache): Cache {
    c.(holder := None)
  }

  /** The in-place form of the same state. */
  class QuickCheckCacheState {
    var result: Option<Verdict>
    var expiresAt: real
    var holder: Option<int>

    ghost function View(): Cache
      reads this
    {
      Cache(result, expiresAt, holder)
    }

    constructor ()
      ensures View() == EMPTY
    {
      result, expiresAt, holder := None, 0.0, None;
    }

    method CachedQuickCheck(now: real) returns (r: Option<Verdict>)
      ensures r == Fresh(View(), now)
    {
      if result.None? || now >= expiresAt {
        return None;
      }
      return result;
    }

    /** From now on and until the time to live has passed, exactly then, a lookup returns `v`. */
    method CacheQuickCheck(v: Verdict, now: real)
      modifies this`result, this`expiresAt
      ensures forall later :: Fresh(View(), later) == if later < now + TTL then Some(v) else None
      ensures View() == Store(old(View()), v, now)
    {
      result := Some(v);
      expiresAt := now + TTL;
    }

    method EnterLock(id: int, now: real) returns (r: Option<Verdict>)
      requires holder.None?
      modifies this`holder
      ensures r == Fresh(old(View()), now) && View() == Enter(old(View()), id, now)
    {
      holder := Some(id);
      r := CachedQuickCheck(now);
      if r.Some? {
        holder := None;
      }
    }

    /** The locked part of a request that ended its checks, successfully or not. */
    method LeaveLock(verdict: Option<Verdict>, now: real)
      modifies this
      ensures View() == Leave(if verdict.Some? then Store(old(View()), verdict.value, now) else old(View()))
    {
      if verdict.Some? {
        CacheQuickCheck(verdict.value, now);
      }
      holder := None;
    }
  }

  datatype Response = Unavailable | Live(v: Verdict) | Cached(v: Verdict, lookedUp: real)

  /** Where a request is: waiting for the lock; holding it before the scan or during it; reporting a
      stored verdict; without a known engine, hence past all coordination; finished; cancelled. */
  datatype Phase =
    | Waiting
    | Probing
    | Scanning
    | Serving(v: Verdict, lookedUp: real)
    | Direct
    | Done(response: Response)
    | Cancelled

  datatype Request = Request(engine: int, phase: Phase)

  /** What happened to the engines' scans, in order. */
  datatype Entry =
    | Began(engine: int, id: int, time: real)
    | Stored(engine: int, id: int, time: real, v: Verdict)
    | Dropped(engine: int, id: int, time: real)

  datatype State = State(now: real, caches: map<int, Cache>, requests: map<int, Request>, log: seq<Entry>)

  /** No request yet; a monotonic clock can start anywhere. */
  function Start(now: real): State {
    State(now, map[], map[], [])
  }

  function CacheOf(s: State, engine: int): Cache {
    if engine in s.caches then s.caches[engine] else EMPTY
  }

  datatype Event =
    | Tick(elapsed: real)
    | Arrive(id: int, engine: Option<int>)
    | Acquire(id: int)
    | ProbeFails(id: int)
    | BeginScan(id: int)
    | FinishScan(id: int, verdict: Option<Verdict>)
    | FinishServing(id: int, diagnosed: bool)
    | FinishDirect(id: int, response: Response)
    | Cancel(id: int)

  predicate InPhase(s: State, id: int, phase: Phase) {
    id in s.requests && s.requests[id].phase == phase
  }

  predicate Holding(phase: Phase) {
    phase.Probing? || phase.Scanning?
  }

  function Move(s: State, id: int, phase: Phase): State
    requires id in s.requests
  {
    s.(requests := s.requests[id := s.requests[id].(phase := phase)])
  }

  function SetCache(s: State, engine: int, c: Cache): State {
    s.(caches := s.caches[engine := c])
  }

  /** A request arrives: a current verdict serves it at once, otherwise it waits for the lock. */
  function Arrived(s: State, id: int, engine: int): State {
    var cached := Fresh(CacheOf(s, engine), s.now);
    var phase := if cached.Some? then Serving(cached.value, s.now) else Waiting;
    SetCache(s.(requests := s.requests[id := Request(engine, phase)]), engine, CacheOf(s, engine))
  }

  /** A waiting request takes the free lock and looks again. */
  function Acquired(s: State, id: int): State
    requires id in s.requests && CacheOf(s, s.requests[id].engine).holder.None?
  {
    var engine := s.requests[id].engine;
    var cached := Fresh(CacheOf(s, engine), s.now);
    var phase := if cached.Some? then Serving(cached.value, s.now) else Probing;
    SetCache(Move(s, id, phase), engine, Enter(CacheOf(s, engine), id, s.now))
  }

  function ScanBegun(s: State, id: int): State
    requires id in s.requests
  {
    Move(s, id, Scanning).(log := s.log + [Began(s.requests[id].engine, id, s.now)])
  }

  /** What the end of a request's locked part leaves in the log. */
  function EndEntry(s: State, id: int, verdict: Option<Verdict>): seq<Entry>
    requires id in s.requests
  {
    var r := s.requests[id];
    if !r.phase.Scanning? then []
    else if verdict.Some? then [Stored(r.engine, id, s.now, verdict.value)]
    else [Dropped(r.engine, id, s.now)]
  }

  /** The locked part ends: a verdict is stored if there is one, and the lock is free. */
  function Ended(s: State, id: int, phase: Phase, verdict: Option<Verdict>): State
    requires id in s.requests
  {
    var engine := s.requests[id].engine;
    var c := CacheOf(s, engine);
    SetCache(Move(s, id, phase), engine, Leave(if verdict.Some? then Store(c, verdict.value, s.now) else c))
      .(log := s.log + EndEntry(s, id, verdict))
  }

  /** One step of get_system_health or of its surroundings; an event that cannot occur leaves the
      state alone. */
  function Step(s: State, e: Event): State {
    match e
    case Tick(elapsed) =>
      if elapsed >= 0.0 then s.(now := s.now + elapsed) else s
    case Arrive(id, engine) =>
      if id in s.requests then s
      else if engine.None? then s.(requests := s.requests[id := Request(0, Direct)])
      else Arrived(s, id, engine.value)
    case Acquire(id) =>
      if InPhase(s, id, Waiting) && CacheOf(s, s.requests[id].engine).holder.None? then Acquired(s, id) else s
    case ProbeFails(id) =>
      if InPhase(s, id, Probing) then Ended(s, id, Done(Unavailable), None) else s
    case BeginScan(id) =>
      if InPhase(s, id, Probing) then ScanBegun(s, id) else s
    case FinishScan(id, verdict) =>
      if InPhase(s, id, Scanning)
      then Ended(s, id, Done(if verdict.Some? then Live(verdict.value) else Unavailable), verdict) else s
    case FinishServing(id, diagnosed) =>
      if id in s.requests && s.requests[id].phase.Serving? then
        var p := s.requests[id].phase;
        Move(s, id, Done(if diagnosed then Cached(p.v, p.lookedUp) else Unavailable))
      else s
    case FinishDirect(id, response) =>
      if InPhase(s, id, Direct) && !response.Cached? then Move(s, id, Done(response)) else s
    case Cancel(id) =>
      if id !in s.requests || s.requests[id].phase.Done? || s.requests[id].phase.Cancelled? then s
      else if Holding(s.requests[id].phase) then Ended(s, id, Cancelled, None)
      else Move(s, id, Cancelled)
  }

  function Run(s: State, events: seq<Event>): State
    decreases |events|
  {
    if events == [] then s else Run(Step(s, events[0]), events[1..])
  }

  /** Reading the log: the scan of an engine that is under way, and the entry of the last one that
      was stored. */
  function Running(log: seq<Entry>, engine: int): Option<int> {
    if log == [] then None
    else
      var e := log[|log| - 1];
      if e.engine != engine then Running(log[..|log| - 1], engine)
      else if e.Began? then Some(e.id) else None
  }

  function LastStored(log: seq<Entry>, engine: int): (r: Option<Entry>)
    ensures r.Some? ==> r.value.Stored? && r.value.engine == engine && r.value in log
  {
    if log == [] then None
    else
      var e := log[|log| - 1];
      if e.engine == engine && e.Stored? then Some(e) else LastStored(log[..|log| - 1], engine)
  }

  /** What single flight and the time to live mean for one entry, given the entries before it: a
      scan begins when none is running on its engine and the last stored one has expired; only the
      scan that runs can end. */
  ghost predicate Orderly(before: seq<Entry>, e: Entry) {
    if e.Began? then
      && Running(before, e.engine).None?
      && (LastStored(before, e.engine).Some? ==> e.time >= LastStored(before, e.engine).value.time + TTL)
    else Running(before, e.engine) == Some(e.id)
  }

  ghost predicate OrderlyLog(log: seq<Entry>) {
    forall i :: 0 <= i < |log| ==> Orderly(log[..i], log[i])
  }

  ghost predicate InOrder(log: seq<Entry>, now: real) {
    && (forall i, j :: 0 <= i <= j < |log| ==> log[i].time <= log[j].time)
    && (forall e | e in log :: e.time <= now)
  }

  /** A stored verdict that was current when it was looked up. */
  ghost predicate Backed(log: seq<Entry>, engine: int, v: Verdict, lookedUp: real) {
    exists e | e in log :: e.Stored? && e.engine == engine && e.v == v && e.time <= lookedUp < e.time + TTL
  }

  ghost predicate RequestOk(s: State, id: int)
    requires id in s.requests
  {
    var r := s.requests[id];
    match r.phase
    case Probing => CacheOf(s, r.engine).holder == Some(id) && Fresh(CacheOf(s, r.engine), s.now).None?
    case Scanning =>
      && CacheOf(s, r.engine).holder == Some(id) && Fresh(CacheOf(s, r.engine), s.now).None?
      && Running(s.log, r.engine) == Some(id)
    case Serving(v, lookedUp) => Backed(s.log, r.engine, v, lookedUp)
    case Done(Cached(v, lookedUp)) => Backed(s.log, r.engine, v, lookedUp)
    case _ => true
  }

  /** An engine's stored verdict is its last completed scan's; the lock is held by a request in its
      locked part; a running scan is the holder's. */
  ghost predicate EngineOk(s: State, engine: int) {
    var c := CacheOf(s, engine);
    var last := LastStored(s.log, engine);
    && (match last case None => c.result.None? case Some(e) => c.result == Some(e.v) && c.expiresAt == e.time + TTL)
    && (c.holder.Some? ==>
          && c.holder.value in s.requests && s.requests[c.holder.value].engine == engine
          && Holding(s.requests[c.holder.value].phase))
    && (Running(s.log, engine).Some? ==>
          c.holder == Running(s.log, engine) && s.requests[c.holder.value].phase.Scanning?)
  }

  ghost predicate Inv(s: State) {
    && OrderlyLog(s.log) && InOrder(s.log, s.now)
    && (forall id | id in s.requests :: RequestOk(s, id))
    && (forall engine :: EngineOk(s, engine))
  }

  lemma {:induction false} Appended(log: seq<Entry>, x: Entry, engine: int)
    ensures Running(log + [x], engine) ==
            if x.engine != engine then Running(log, engine) else if x.Began? then Some(x.id) else None
    ensures LastStored(log + [x], engine) ==
            if x.engine == engine && x.Stored? then Some(x) else LastStored(log, engine)
  {
  }

  lemma {:induction false} OrderlyAppended(log: seq<Entry>, x: Entry)
    requires OrderlyLog(log) && InOrder(log, x.time) && Orderly(log, x)
    ensures OrderlyLog(log + [x]) && InOrder(log + [x], x.time)
  {
    var longer := log + [x];
    forall i | 0 <= i < |longer| ensures Orderly(longer[..i], longer[i]) {
      assert longer[..i] == log[..i];
      if i == |log| {
        assert log[..i] == log;
      } else {
        assert Orderly(log[..i], log[i]);
      }
    }
    assert forall i :: 0 <= i < |log| ==> log[i] in log;
  }

  lemma {:induction false} BackedStays(log: seq<Entry>, more: seq<Entry>, engine: int, v: Verdict, lookedUp: real)
    requires Backed(log, engine, v, lookedUp)
    ensures Backed(log + more, engine, v, lookedUp)
  {
  }

  /** A fresh stored verdict is backed by the log. */
  lemma {:induction false} FreshIsBacked(s: State, engine: int)
    requires Inv(s) && Fresh(CacheOf(s, engine), s.now).Some?
    ensures Backed(s.log, engine, Fresh(CacheOf(s, engine), s.now).value, s.now)
  {
    assert EngineOk(s, engine);
    assert LastStored(s.log, engine).value in s.log;
  }

  /** A step that touches request `id`, its engine's cache and, at most, the end of the log, leaves
      the rest in order: provided that it changes the engine only while no other request is in its
      locked part. */
  ghost predicate Local(s: State, t: State, id: int, engine: int, more: seq<Entry>) {
    && t.now == s.now && t.log == s.log + more && |more| <= 1
    && (forall x | x in more :: x.engine == engine && x.time == s.now && Orderly(s.log, x))
    && t.requests.Keys == s.requests.Keys + {id}
    && (forall other | other in s.requests :: other != id ==> t.requests[other] == s.requests[other])
    && (forall other :: other != engine ==> CacheOf(t, other) == CacheOf(s, other))
    && (id in s.requests && Holding(s.requests[id].phase) ==> s.requests[id].engine == engine)
    && ((CacheOf(t, engine) == CacheOf(s, engine) && more == [])
        || CacheOf(s, engine).holder.None? || CacheOf(s, engine).holder == Some(id))
    && (id in s.requests && CacheOf(s, engine).holder != Some(id) ==> !Holding(s.requests[id].phase))
  }

  lemma {:induction false} LocalKeepsRequests(s: State, t: State, id: int, engine: int, more: seq<Entry>)
    requires Inv(s) && Local(s, t, id, engine, more)
    ensures forall other | other in t.requests :: other != id ==> RequestOk(t, other)
  {
    forall other | other in t.requests && other != id ensures RequestOk(t, other) {
      assert RequestOk(s, other);
      var r := s.requests[other];
      match r.phase
      case Serving(v, lookedUp) => BackedStays(s.log, more, r.engine, v, lookedUp);
      case Done(Cached(v, lookedUp)) => BackedStays(s.log, more, r.engine, v, lookedUp);
      case Scanning =>
        if more != [] {
          Appended(s.log, more[0], r.engine);
          assert more == [more[0]];
        } else {
          assert s.log + more == s.log;
        }
      case _ =>
    }
  }

  lemma {:induction false} LocalKeepsEngine(s: State, t: State, id: int, engine: int, more: seq<Entry>, other: int)
    requires EngineOk(s, other) && Local(s, t, id, engine, more) && other != engine
    ensures EngineOk(t, other)
  {
    if more != [] {
      Appended(s.log, more[0], other);
      assert more == [more[0]];
    } else {
      assert s.log + more == s.log;
    }
    assert CacheOf(t, other) == CacheOf(s, other);
    var holder := CacheOf(s, other).holder;
    if holder.Some? {
      assert holder.value in s.requests && holder.value != id;
      assert t.requests[holder.value] == s.requests[holder.value];
    }
  }

  lemma {:induction false} LocalKeepsLog(s: State, t: State, id: int, engine: int, more: seq<Entry>)
    requires Inv(s) && Local(s, t, id, engine, more)
    ensures OrderlyLog(t.log) && InOrder(t.log, t.now)
  {
    if more != [] {
      OrderlyAppended(s.log, more[0]);
      assert more == [more[0]];
    } else {
      assert s.log + more == s.log;
    }
  }

  /** Such a step keeps the invariant once its own request and engine are right. */
  lemma {:induction false} LocalKeeps(s: State, t: State, id: int, engine: int, more: seq<Entry>)
    requires Inv(s) && Local(s, t, id, engine, more)
    requires RequestOk(t, id) && EngineOk(t, engine)
    ensures Inv(t)
  {
    LocalKeepsRequests(s, t, id, engine, more);
    forall other | other != engine ensures EngineOk(t, other) {
      LocalKeepsEngine(s, t, id, engine, more, other);
    }
    LocalKeepsLog(s, t, id, engine, more);
  }

  /** Time passing expires verdicts; it changes nothing that was looked up. */
  lemma {:induction false} TickKeeps(s: State, elapsed: real)
    requires Inv(s)
    ensures Inv(Step(s, Tick(elapsed)))
  {
    var t := Step(s, Tick(elapsed));
    forall id | id in t.requests ensures RequestOk(t, id) {
      assert RequestOk(s, id);
    }
    forall engine: int ensures EngineOk(t, engine) {
      assert EngineOk(s, engine);
    }
  }

  lemma {:induction false} ArrivedLocal(s: State, id: int, engine: int)
    requires id !in s.requests
    ensures
      var t := Arrived(s, id, engine);
      && Local(s, t, id, engine, []) && t.log == s.log && CacheOf(t, engine) == CacheOf(s, engine)
      && t.requests[id].engine == engine && (t.requests[id].phase.Serving? || t.requests[id].phase.Waiting?)
  {
    hide Fresh;
    assert s.log + [] == s.log;
  }

  lemma {:induction false} ArrivedKeeps(s: State, id: int, engine: int)
    requires Inv(s) && id !in s.requests
    ensures Inv(Arrived(s, id, engine))
  {
    ArrivedLocal(s, id, engine);
    ArrivedOk(s, id, engine);
    hide Inv, Arrived, RequestOk, Local;
    ChangedRequestOnly(s, Arrived(s, id, engine), id, engine);
  }

  lemma {:induction false} ArrivedOk(s: State, id: int, engine: int)
    requires Inv(s) && id !in s.requests
    ensures RequestOk(Arrived(s, id, engine), id)
  {
    hide Inv, Backed;
    if Fresh(CacheOf(s, engine), s.now).Some? { FreshIsBacked(s, engine); }
  }

  /** A step that changes one request outside its locked part, and neither cache nor log. */
  lemma {:induction false} ChangedRequestOnly(s: State, t: State, id: int, engine: int)
    requires Inv(s) && Local(s, t, id, engine, [])
    requires t.log == s.log && CacheOf(t, engine) == CacheOf(s, engine)
    requires id in s.requests ==> !Holding(s.requests[id].phase)
    requires RequestOk(t, id)
    ensures Inv(t)
  {
    assert EngineOk(s, engine);
    var holder := CacheOf(s, engine).holder;
    assert holder.Some? ==> holder.value != id;
    LocalKeeps(s, t, id, engine, []);
  }

  lemma {:induction false} MovedKeeps(s: State, id: int, phase: Phase)
    requires Inv(s) && id in s.requests && !Holding(s.requests[id].phase)
    requires phase.Cancelled? || phase.Done?
    requires phase.Done? && phase.response.Cached? ==>
      Backed(s.log, s.requests[id].engine, phase.response.v, phase.response.lookedUp)
    ensures Inv(Move(s, id, phase))
  {
    assert s.log + [] == s.log;
    ChangedRequestOnly(s, Move(s, id, phase), id, s.requests[id].engine);
  }

  lemma {:induction false} AcquiredKeeps(s: State, id: int)
    requires Inv(s) && InPhase(s, id, Waiting) && CacheOf(s, s.requests[id].engine).holder.None?
    ensures Inv(Acquired(s, id))
  {
    hide LastStored, Backed, Orderly;
    var engine := s.requests[id].engine;
    assert EngineOk(s, engine);
    assert s.log + [] == s.log;
    if Fresh(CacheOf(s, engine), s.now).Some? {
      FreshIsBacked(s, engine);
      ChangedRequestOnly(s, Acquired(s, id), id, engine);
    } else {
      LocalKeeps(s, Acquired(s, id), id, engine, []);
    }
  }

  lemma {:induction false} ScanBegunKeeps(s: State, id: int)
    requires Inv(s) && InPhase(s, id, Probing)
    ensures Inv(ScanBegun(s, id))
  {
    var engine := s.requests[id].engine;
    var x := Began(engine, id, s.now);
    assert EngineOk(s, engine) && RequestOk(s, id);
    Appended(s.log, x, engine);
    assert Orderly(s.log, x);
    LocalKeeps(s, ScanBegun(s, id), id, engine, [x]);
  }

  lemma {:induction false} EndedKeeps(s: State, id: int, phase: Phase, verdict: Option<Verdict>)
    requires Inv(s) && id in s.requests && Holding(s.requests[id].phase)
    requires verdict.Some? ==> s.requests[id].phase.Scanning?
    requires phase.Cancelled? || (phase.Done? && !phase.response.Cached?)
    ensures Inv(Ended(s, id, phase, verdict))
  {
    hide LastStored, Running, Fresh;
    var t, engine, more := Ended(s, id, phase, verdict), s.requests[id].engine, EndEntry(s, id, verdict);
    assert EngineOk(s, engine) && RequestOk(s, id);
    EndedEngineOk(s, id, phase, verdict);
    LocalKeeps(s, t, id, engine, more);
  }

  lemma {:induction false} EndedEngineOk(s: State, id: int, phase: Phase, verdict: Option<Verdict>)
    requires id in s.requests && Holding(s.requests[id].phase)
    requires EngineOk(s, s.requests[id].engine) && RequestOk(s, id)
    requires verdict.Some? ==> s.requests[id].phase.Scanning?
    ensures EngineOk(Ended(s, id, phase, verdict), s.requests[id].engine)
  {
    var engine, more := s.requests[id].engine, EndEntry(s, id, verdict);
    if more == [] {
      assert s.log + more == s.log;
    } else {
      Appended(s.log, more[0], engine);
    }
  }

  lemma {:induction false} StepKeeps(s: State, e: Event)
    requires Inv(s)
    ensures Inv(Step(s, e))
  {
    hide Inv, RequestOk, Arrived, Acquired, ScanBegun, Ended, Move, Backed;
    match e
    case Tick(elapsed) => TickKeeps(s, elapsed);
    case Arrive(id, engine) =>
      if id !in s.requests {
        if engine.Some? { ArrivedKeeps(s, id, engine.value); } else { DirectKeeps(s, id); }
      }
    case Acquire(id) =>
      if InPhase(s, id, Waiting) && CacheOf(s, s.requests[id].engine).holder.None? { AcquiredKeeps(s, id); }
    case BeginScan(id) =>
      if InPhase(s, id, Probing) { ScanBegunKeeps(s, id); }
    case ProbeFails(id) =>
      if InPhase(s, id, Probing) { EndedKeeps(s, id, Done(Unavailable), None); }
    case FinishScan(id, verdict) =>
      if InPhase(s, id, Scanning) {
        EndedKeeps(s, id, Done(if verdict.Some? then Live(verdict.value) else Unavailable), verdict);
      }
    case FinishServing(id, diagnosed) =>
      if id in s.requests && s.requests[id].phase.Serving? {
        var p := s.requests[id].phase;
        ServedIsBacked(s, id);
        MovedKeeps(s, id, Done(if diagnosed then Cached(p.v, p.lookedUp) else Unavailable));
      }
    case FinishDirect(id, response) =>
      if InPhase(s, id, Direct) && !response.Cached? { MovedKeeps(s, id, Done(response)); }
    case Cancel(id) =>
      if id in s.requests && !s.requests[id].phase.Done? && !s.requests[id].phase.Cancelled? {
        if Holding(s.requests[id].phase) { EndedKeeps(s, id, Cancelled, None); } else { MovedKeeps(s, id, Cancelled); }
      }
  }

  lemma {:induction false} DirectKeeps(s: State, id: int)
    requires Inv(s) && id !in s.requests
    ensures Inv(s.(requests := s.requests[id := Request(0, Direct)]))
  {
    assert s.log + [] == s.log;
    ChangedRequestOnly(s, s.(requests := s.requests[id := Request(0, Direct)]), id, 0);
  }

  lemma {:induction false} ServedIsBacked(s: State, id: int)
    requires Inv(s) && id in s.requests && s.requests[id].phase.Serving?
    ensures Backed(s.log, s.requests[id].engine, s.requests[id].phase.v, s.requests[id].phase.lookedUp)
  {
    assert RequestOk(s, id);
  }

  lemma {:induction false} RunKeeps(s: State, events: seq<Event>)
    requires Inv(s)
    ensures Inv(Run(s, events))
    decreases |events|
  {
    if events != [] {
      StepKeeps(s, events[0]);
      RunKeeps(Step(s, events[0]), events[1..]);
    }
  }

  lemma {:induction false} StartOk(now: real)
    ensures Inv(Start(now))
  {
  }

  /** Single flight: over any interleaving, two requests that scan one engine are the same request. */
  lemma {:induction false} SingleFlight(now: real, events: seq<Event>, i: int, j: int)
    ensures
      var s := Run(Start(now), events);
      InPhase(s, i, Scanning) && InPhase(s, j, Scanning) && s.requests[i].engine == s.requests[j].engine ==> i == j
  {
    hide Run, Inv, RequestOk;
    StartOk(now);
    RunKeeps(Start(now), events);
    OneScanner(Run(Start(now), events), i, j);
  }

  lemma {:induction false} OneScanner(s: State, i: int, j: int)
    requires Inv(s)
    ensures InPhase(s, i, Scanning) && InPhase(s, j, Scanning) && s.requests[i].engine == s.requests[j].engine ==>
      i == j
  {
    assert i in s.requests ==> RequestOk(s, i);
    assert j in s.requests ==> RequestOk(s, j);
  }

  /** Every response served from the cache repeats the verdict of a live scan that completed on the
      same engine, stored less than the time to live before the lookup. */
  lemma {:induction false} CachedResponsesAreRecent(now: real, events: seq<Event>, id: int)
    ensures
      var s := Run(Start(now), events);
      id in s.requests && s.requests[id].phase.Done? && s.requests[id].phase.response.Cached? ==>
        var response := s.requests[id].phase.response;
        exists e | e in s.log :: e.Stored? && e.engine == s.requests[id].engine && e.v == response.v
                             && e.time <= response.lookedUp < e.time + TTL
  {
    StartOk(now);
    RunKeeps(Start(now), events);
    var s := Run(Start(now), events);
    assert id in s.requests ==> RequestOk(s, id);
  }

  lemma {:induction false} LastStoredIsLatest(log: seq<Entry>, now: real, i: nat)
    requires InOrder(log, now) && i < |log| && log[i].Stored?
    ensures LastStored(log, log[i].engine).Some?
    ensures LastStored(log, log[i].engine).value.time >= log[i].time
  {
    var e := log[|log| - 1];
    if i < |log| - 1 && !(e.engine == log[i].engine && e.Stored?) {
      LastStoredIsLatest(log[..|log| - 1], now, i);
    }
  }

  /** Live scans are rare: a scan that begins after another was stored on its engine begins at least
      the time to live later. */
  lemma {:induction false} ScansAreSpaced(now: real, events: seq<Event>, i: nat, j: nat)
    ensures
      var log := Run(Start(now), events).log;
      i < j < |log| && log[i].Stored? && log[j].Began? && log[i].engine == log[j].engine ==>
        log[j].time >= log[i].time + TTL
  {
    hide Run;
    StartOk(now);
    RunKeeps(Start(now), events);
    var s := Run(Start(now), events);
    if i < j < |s.log| && s.log[i].Stored? && s.log[j].Began? && s.log[i].engine == s.log[j].engine {
      SpacedInLog(s.log, s.now, i, j);
    }
  }

  lemma {:induction false} SpacedInLog(log: seq<Entry>, now: real, i: nat, j: nat)
    requires OrderlyLog(log) && InOrder(log, now)
    requires i < j < |log| && log[i].Stored? && log[j].Began? && log[i].engine == log[j].engine
    ensures log[j].time >= log[i].time + TTL
  {
    assert Orderly(log[..j], log[j]);
    assert forall e | e in log[..j] :: e in log;
    LastStoredIsLatest(log[..j], now, i);
  }

  lemma {:induction false} OrderlyPrefix(log: seq<Entry>, n: nat)
    requires OrderlyLog(log) && n <= |log|
    ensures OrderlyLog(log[..n])
  {
    forall i | 0 <= i < n ensures Orderly(log[..n][..i], log[..n][i]) {
      assert log[..n][..i] == log[..i];
      assert Orderly(log[..i], log[i]);
    }
  }

  /** Where the running scan began: nothing of its engine follows. */
  lemma {:induction false} BeganAt(log: seq<Entry>, engine: int) returns (b: nat)
    requires Running(log, engine).Some?
    ensures b < |log| && log[b].Began? && log[b].engine == engine && log[b].id == Running(log, engine).value
    ensures forall k :: b < k < |log| ==> log[k].engine != engine
  {
    b := |log| - 1;
    if log[b].engine != engine {
      b := BeganAt(log[..b], engine);
    }
  }

  /** When no scan runs, every scan that began has ended. */
  lemma {:induction false} ScanEnded(log: seq<Entry>, i: nat) returns (k: nat)
    requires OrderlyLog(log) && i < |log| && log[i].Began? && Running(log, log[i].engine).None?
    ensures i < k < |log| && !log[k].Began? && log[k].engine == log[i].engine && log[k].id == log[i].id
    decreases |log|
  {
    k := |log| - 1;
    assert Orderly(log[..k], log[k]);
    hide OrderlyLog;
    if log[k].engine != log[i].engine {
      OrderlyPrefix(log, k);
      k := ScanEnded(log[..k], i);
    } else {
      var b := BeganAt(log[..k], log[i].engine);
      if b != i {
        assert Orderly(log[..b], log[b]) by { OrderlyEntry(log, b); }
        OrderlyPrefix(log, b);
        k := ScanEnded(log[..b], i);
      }
    }
  }

  lemma {:induction false} OrderlyEntry(log: seq<Entry>, i: nat)
    requires OrderlyLog(log) && i < |log|
    ensures Orderly(log[..i], log[i])
  {
  }

  /** Scans of one engine never overlap: before the next one begins, the earlier one has ended,
      stored or not. */
  lemma {:induction false} ScansDoNotOverlap(now: real, events: seq<Event>, i: nat, j: nat)
    ensures
      var log := Run(Start(now), events).log;
      i < j < |log| && log[i].Began? && log[j].Began? && log[i].engine == log[j].engine ==>
        exists k :: i < k < j && !log[k].Began? && log[k].engine == log[i].engine && log[k].id == log[i].id
  {
    hide Run;
    StartOk(now);
    RunKeeps(Start(now), events);
    var log := Run(Start(now), events).log;
    if i < j < |log| && log[i].Began? && log[j].Began? && log[i].engine == log[j].engine {
      assert Orderly(log[..j], log[j]);
      OrderlyPrefix(log, j);
      var k := ScanEnded(log[..j], i);
      assert log[..j][k] == log[k];
    }
  }

  /** A request whose checks fail or that is cancelled in its locked part stores nothing and frees
      the lock, and any waiting request can take it and scan. */
  lemma {:induction false} FailureFreesTheLock(s: State, id: int, e: Event, next: int)
    requires Inv(s) && id in s.requests && Holding(s.requests[id].phase)
    requires e == Cancel(id) || (s.requests[id].phase.Probing? && e == ProbeFails(id))
             || (s.requests[id].phase.Scanning? && e == FinishScan(id, None))
    requires InPhase(s, next, Waiting) && s.requests[next].engine == s.requests[id].engine
    ensures var engine := s.requests[id].engine;
      var t := Step(s, e);
      && CacheOf(t, engine) == CacheOf(s, engine).(holder := None)
      && InPhase(Step(Step(t, Acquire(next)), BeginScan(next)), next, Scanning)
  {
    assert RequestOk(s, id);
    hide Inv, RequestOk;
    var t := Step(s, e);
    assert InPhase(t, next, Waiting) && t.requests[next].engine == s.requests[id].engine;
    WaiterScans(t, next);
  }

  lemma {:induction false} WaiterScans(t: State, next: int)
    requires InPhase(t, next, Waiting)
    requires CacheOf(t, t.requests[next].engine).holder.None?
    requires Fresh(CacheOf(t, t.requests[next].engine), t.now).None?
    ensures InPhase(Step(Step(t, Acquire(next)), BeginScan(next)), next, Scanning)
  {
    assert Step(t, Acquire(next)) == Acquired(t, next);
  }
}
