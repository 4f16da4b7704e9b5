/** Attaching an SMS or an e-mail to a transaction row. Sessions race for the row's slot for one
    channel; each works from a row it may have loaded long ago, and a conditional UPDATE lets the
    database decide.

    The sessions' steps interleave freely. The database admits one writer at a time: from its first
    UPDATE until it commits or rolls back, a session keeps the others' UPDATEs out. */
module SourceSlots {
  import opened Wrappers

  datatype Channel = Sms | Email
  datatype Slot = Slot(transaction: int, channel: Channel)

  /** One enrichment of a row, made for `source` by a session whose copy of the slot showed `seen`. */
  datatype Enrichment = Enrichment(slot: Slot, source: int, seen: Option<int>)

  /** The committed rows' slots, the enrichments that were committed, and the session that holds the
      write lock. */
  datatype Committed = Committed(stored: map<Slot, Option<int>>, enriched: set<Enrichment>, writer: Option<int>)

  /** One session: its cached copies, and what its open transaction has written. */
  datatype Local = Local(cached: map<Slot, Option<int>>, written: map<Slot, int>, enriched: set<Enrichment>)

  const IDLE: Local := Local(map[], map[], {})

  datatype Outcome = Returned | Conflict | Locked

  /** What a session reads of a slot: its own write, else the committed value. */
  function Visible(db: Committed, local: Local, slot: Slot): Option<int>
    requires slot in db.stored
  {
    if slot in local.written then Some(local.written[slot]) else db.stored[slot]
  }

  predicate MayWrite(db: Committed, id: int) {
    db.writer == None || db.writer == Some(id)
  }

  /** The UPDATE finds its row: the slot is open, or already holds the source. */
  predicate Claimable(db: Committed, local: Local, slot: Slot, source: int) {
    slot in db.stored && (Visible(db, local, slot) == None || Visible(db, local, slot) == Some(source))
  }

  /** claim_transaction_source_slot as a transition: the outcome, the database and the session after
      it. A session that cannot get the lock in time fails without effect; a lost claim changes no
      row and no cached copy. */
  function Claim(db: Committed, local: Local, id: int, slot: Slot, source: Option<int>): (Outcome, Committed, Local)
    requires slot in local.cached
  {
    if source.None? || local.cached[slot].Some? then (Returned, db, local)
    else if !MayWrite(db, id) then (Locked, db, local)
    else if Claimable(db, local, slot, source.value) then
      (Returned, db.(writer := Some(id)),
       local.(cached := local.cached[slot := source], written := local.written[slot := source.value]))
    else (Conflict, db.(writer := Some(id)), local)
  }

  /** The claim followed, if it returns, by the enrichment. */
  function Attach(db: Committed, local: Local, id: int, slot: Slot, source: Option<int>): (Outcome, Committed, Local)
    requires slot in local.cached
  {
    var (outcome, db', local') := Claim(db, local, id, slot, source);
    if outcome.Returned? && source.Some? then
      (outcome, db', local'.(enriched := local'.enriched + {Enrichment(slot, source.value, local.cached[slot])}))
    else (outcome, db', local')
  }

  /** The in-place form: the shared database and one session's identity map. */
  class Database {
    var stored: map<Slot, Option<int>>
    var writer: Option<int>

    constructor (stored: map<Slot, Option<int>>)
      ensures this.stored == stored && writer == None
    {
      this.stored := stored;
      writer := None;
    }
  }

  class Session {
    const id: int
    const db: Database
    var cached: map<Slot, Option<int>>
    var written: map<Slot, int>

    constructor (id: int, db: Database)
      ensures this.id == id && this.db == db && cached == map[] && written == map[]
    {
      this.id, this.db, cached, written := id, db, map[], map[];
    }

    ghost function Shared(enriched: set<Enrichment>): Committed
      reads db
    {
      Committed(db.stored, enriched, db.writer)
    }

    ghost function Own(enriched: set<Enrichment>): Local
      reads this
    {
      Local(cached, written, enriched)
    }

    /** The conditional UPDATE: how many rows it changed, or that it was kept out. */
    method ExecuteUpdate(slot: Slot, source: int) returns (rowcount: Option<nat>)
      modifies this`written, db`writer
      ensures rowcount.None? <==> !old(MayWrite(Shared({}), id))
      ensures rowcount.None? ==> written == old(written) && db.writer == old(db.writer)
      ensures rowcount.Some? ==> db.writer == Some(id) && rowcount.value <= 1
      ensures rowcount.Some? ==> (rowcount.value == 1 <==> old(Claimable(Shared({}), Own({}), slot, source)))
      ensures rowcount == Some(1) ==> written == old(written)[slot := source]
      ensures rowcount == Some(0) ==> written == old(written)
    {
      if db.writer != None && db.writer != Some(id) {
        return None;
      }
      db.writer := Some(id);
      if slot !in db.stored {
        return Some(0);
      }
      var current := if slot in written then Some(written[slot]) else db.stored[slot];
      if current != None && current != Some(source) {
        return Some(0);
      }
      written := written[slot := source];
      return Some(1);
    }

    method ClaimTransactionSourceSlot(slot: Slot, source: Option<int>) returns (outcome: Outcome)
      requires slot in cached
      modifies this`cached, this`written, db`writer
      ensures forall e, f ::
        Claim(old(Shared(e)), old(Own(f)), id, slot, source) == (outcome, Shared(e), Own(f))
    {
      if source.None? {
        return Returned;
      }
      if cached[slot].Some? {
        return Returned;
      }
      var rowcount := ExecuteUpdate(slot, source.value);
      if rowcount.None? {
        return Locked;
      }
      if rowcount.value != 1 {
        return Conflict;
      }
      cached := cached[slot := source];
      return Returned;
    }
  }

  /** Whole runs.

      A load may come from an old snapshot, in which a slot that is taken by now was still open; a
      session always sees its own writes. */
  datatype Event =
    | Load(session: int, slot: Slot, seen: Option<int>)
    | Attaching(session: int, slot: Slot, source: Option<int>)
    | Commit(session: int)
    | Rollback(session: int)

  /** Sessions that never appeared are idle. */
  datatype State = State(db: Committed, sessions: map<int, Local>)

  function SessionOf(s: State, id: int): Local {
    if id in s.sessions then s.sessions[id] else IDLE
  }

  /** Ending a transaction frees the lock its session held. */
  function Release(db: Committed, id: int): Committed {
    if db.writer == Some(id) then db.(writer := None) else db
  }

  function Publish(stored: map<Slot, Option<int>>, written: map<Slot, int>): map<Slot, Option<int>> {
    map slot | slot in stored.Keys + written.Keys ::
      if slot in written then Some(written[slot]) else stored[slot]
  }

  /** One session's step; an event that cannot occur changes nothing. Committing keeps the session's
      copies, rolling back discards them. */
  function SessionStep(db: Committed, local: Local, e: Event): (Committed, Local) {
    match e
    case Load(_, slot, seen) =>
      if slot in db.stored && (seen == Visible(db, local, slot) || (seen == None && slot !in local.written))
      then (db, local.(cached := local.cached[slot := seen])) else (db, local)
    case Attaching(id, slot, source) =>
      if slot in local.cached then
        var (_, db', local') := Attach(db, local, id, slot, source);
        (db', local')
      else (db, local)
    case Commit(id) =>
      (Release(db.(stored := Publish(db.stored, local.written), enriched := db.enriched + local.enriched), id),
       local.(written := map[], enriched := {}))
    case Rollback(id) => (Release(db, id), IDLE)
  }

  function Step(s: State, e: Event): State {
    var (db, local) := SessionStep(s.db, SessionOf(s, e.session), e);
    State(db, s.sessions[e.session := local])
  }

  function Run(s: State, events: seq<Event>): State
    decreases |events|
  {
    if events == [] then s else Run(Step(s, events[0]), events[1..])
  }

  /** The owner that a session's view gives an enriched row: the enriching source itself when the
      slot looked open, the owner it saw otherwise. */
  function OwnerFor(e: Enrichment): int {
    if e.seen.Some? then e.seen.value else e.source
  }

  /** What every step keeps of one session. Writes exist only under the lock, and never over another
      owner; a copy that shows an owner is right; every pending enrichment's row belongs to the owner
      its session relied on. */
  ghost predicate Sound(db: Committed, id: int, local: Local) {
    && (local.written != map[] ==> db.writer == Some(id))
    && (forall slot | slot in local.written ::
          slot in db.stored && (db.stored[slot] == None || db.stored[slot] == Some(local.written[slot])))
    && (forall slot | slot in local.cached ::
          slot in db.stored && (local.cached[slot].Some? ==> Visible(db, local, slot) == local.cached[slot]))
    && (forall e | e in local.enriched :: e.slot in db.stored && Visible(db, local, e.slot) == Some(OwnerFor(e)))
  }

  /** Every committed enrichment's row belongs to the owner it relied on. */
  ghost predicate Owned(db: Committed) {
    forall e | e in db.enriched :: e.slot in db.stored && db.stored[e.slot] == Some(OwnerFor(e))
  }

  ghost predicate Inv(s: State) {
    && (forall id | id in s.sessions :: Sound(s.db, id, s.sessions[id]))
    && Owned(s.db)
  }

  /** Every owner recorded in `before` is still recorded in `after`. */
  ghost predicate Keeps(before: map<Slot, Option<int>>, after: map<Slot, Option<int>>) {
    forall slot | slot in before :: slot in after && (before[slot].Some? ==> after[slot] == before[slot])
  }

  /** What one session's step keeps, for itself, for the rows, and for any session under the lock. */
  ghost predicate StepsSoundly(db: Committed, db': Committed, id: int, local': Local) {
    && Keeps(db.stored, db'.stored) && Owned(db') && Sound(db', id, local')
    && (MayWrite(db, id) || (db'.stored == db.stored && db'.writer == db.writer))
  }

  lemma {:induction false} ClaimKeeps(db: Committed, local: Local, id: int, slot: Slot, source: int)
    requires Sound(db, id, local) && Owned(db) && slot in local.cached
    requires local.cached[slot].None? && MayWrite(db, id) && Claimable(db, local, slot, source)
    ensures
      var (_, db', local') := Claim(db, local, id, slot, Some(source));
      && StepsSoundly(db, db', id, local')
      && Visible(db', local', slot) == Some(source)
  {
    var (_, db', local') := Claim(db, local, id, slot, Some(source));
    assert forall e | e in local.enriched :: Visible(db', local', e.slot) == Visible(db, local, e.slot);
  }

  lemma {:induction false} EnrichKeeps(db: Committed, local: Local, id: int, e: Enrichment)
    requires Sound(db, id, local) && e.slot in db.stored && Visible(db, local, e.slot) == Some(OwnerFor(e))
    ensures Sound(db, id, local.(enriched := local.enriched + {e}))
  {
  }

  lemma {:induction false} AttachKeeps(db: Committed, local: Local, id: int, slot: Slot, source: Option<int>)
    requires Sound(db, id, local) && Owned(db) && slot in local.cached
    ensures var (_, db', local') := Attach(db, local, id, slot, source); StepsSoundly(db, db', id, local')
  {
    if source.Some? {
      var (outcome, db', local') := Claim(db, local, id, slot, source);
      if local.cached[slot].None? && MayWrite(db, id) && Claimable(db, local, slot, source.value) {
        ClaimKeeps(db, local, id, slot, source.value);
      }
      if outcome.Returned? { EnrichKeeps(db', local', id, Enrichment(slot, source.value, local.cached[slot])); }
    }
  }

  lemma {:induction false} PublishKeeps(db: Committed, local: Local, id: int)
    requires Sound(db, id, local) && Owned(db)
    ensures
      var db' := db.(stored := Publish(db.stored, local.written), enriched := db.enriched + local.enriched);
      && Keeps(db.stored, db'.stored) && Owned(db')
      && (forall slot | slot in db.stored :: db'.stored[slot] == Visible(db, local, slot))
      && (local.written == map[] ==> db'.stored == db.stored)
  {
  }

  lemma {:induction false} CommitKeeps(db: Committed, local: Local, id: int)
    requires Sound(db, id, local) && Owned(db)
    ensures var (db', local') := SessionStep(db, local, Commit(id)); StepsSoundly(db, db', id, local')
  {
    PublishKeeps(db, local, id);
    hide Publish, Owned;
  }

  lemma {:induction false} SessionStepKeeps(db: Committed, local: Local, e: Event)
    requires Sound(db, e.session, local) && Owned(db)
    ensures var (db', local') := SessionStep(db, local, e); StepsSoundly(db, db', e.session, local')
  {
    match e
    case Load(_, _, _) =>
    case Attaching(id, slot, source) => if slot in local.cached { AttachKeeps(db, local, id, slot, source); }
    case Commit(id) => CommitKeeps(db, local, id);
    case Rollback(_) =>
  }

  /** Another session's lock and commit leave a session's facts alone. */
  lemma {:induction false} OthersUnmoved(db: Committed, db': Committed, id: int, other: int, local: Local)
    requires Sound(db, other, local) && other != id
    requires Keeps(db.stored, db'.stored)
    requires MayWrite(db, id) || (db'.stored == db.stored && db'.writer == db.writer)
    ensures Sound(db', other, local)
  {
  }

  lemma {:induction false} StepKeeps(s: State, e: Event)
    requires Inv(s)
    ensures Inv(Step(s, e))
    ensures Keeps(s.db.stored, Step(s, e).db.stored)
  {
    var s', id := Step(s, e), e.session;
    assert Sound(s.db, id, SessionOf(s, id));
    SessionStepKeeps(s.db, SessionOf(s, id), e);
    hide SessionStep, Sound, Owned, Keeps;
    forall other | other in s'.sessions && other != id
      ensures Sound(s'.db, other, s'.sessions[other])
    {
      OthersUnmoved(s.db, s'.db, id, other, s.sessions[other]);
    }
  }

  /** Slots are never stolen: over any interleaving a recorded owner stays. */
  lemma {:induction false} SlotsAreNeverStolen(s: State, events: seq<Event>)
    requires Inv(s)
    ensures Inv(Run(s, events))
    ensures Keeps(s.db.stored, Run(s, events).db.stored)
    decreases |events|
  {
    if events != [] {
      StepKeeps(s, events[0]);
      SlotsAreNeverStolen(Step(s, events[0]), events[1..]);
    }
  }

  /** From any committed rows and no open sessions, after any interleaving, all committed
      enrichments of a row that found its slot open were made for one source, the row's recorded
      owner. */
  lemma {:induction false} OneSourceWinsEachSlot(
    stored: map<Slot, Option<int>>, events: seq<Event>, e: Enrichment, f: Enrichment)
    ensures
      var db := Run(State(Committed(stored, {}, None), map[]), events).db;
      e in db.enriched && f in db.enriched && e.slot == f.slot && e.seen == None && f.seen == None ==>
        e.slot in db.stored && db.stored[e.slot] == Some(e.source) && e.source == f.source
  {
    SlotsAreNeverStolen(State(Committed(stored, {}, None), map[]), events);
  }

  lemma {:induction false} WriteStays(s: State, id: int, slot: Slot, e: Event)
    requires slot in SessionOf(s, id).written
    requires e.session == id ==> e.Load? || e.Attaching?
    ensures slot in SessionOf(Step(s, e), id).written
    ensures SessionOf(Step(s, e), id).written[slot] == SessionOf(s, id).written[slot]
  {
  }

  /** Until it ends its transaction, a session keeps what it has written. */
  lemma {:induction false} PendingClaimStays(s: State, id: int, slot: Slot, events: seq<Event>)
    requires Inv(s) && slot in SessionOf(s, id).written
    requires forall e | e in events :: e.session == id ==> e.Load? || e.Attaching?
    ensures Inv(Run(s, events))
    ensures slot in SessionOf(Run(s, events), id).written
    ensures SessionOf(Run(s, events), id).written[slot] == SessionOf(s, id).written[slot]
    decreases |events|
  {
    if events != [] {
      StepKeeps(s, events[0]);
      WriteStays(s, id, slot, events[0]);
      hide Step, Inv;
      PendingClaimStays(Step(s, events[0]), id, slot, events[1..]);
    }
  }

  /** A claim that saw an open slot and returned owns it: whatever the other sessions do meanwhile,
      once its session commits the row records its source, and it always will. */
  lemma {:induction false} ReturnedClaimOwns(s: State, id: int, slot: Slot, source: int,
                                             before: seq<Event>, after: seq<Event>)
    requires Inv(s) && slot in SessionOf(s, id).cached && SessionOf(s, id).cached[slot] == None
    requires Claim(s.db, SessionOf(s, id), id, slot, Some(source)).0.Returned?
    requires forall e | e in before :: e.session == id ==> e.Load? || e.Attaching?
    ensures
      var claimed := Step(s, Attaching(id, slot, Some(source)));
      var stored := Run(Step(Run(claimed, before), Commit(id)), after).db.stored;
      slot in stored && stored[slot] == Some(source)
  {
    hide Run;
    StepKeeps(s, Attaching(id, slot, Some(source)));
    var claimed := Step(s, Attaching(id, slot, Some(source)));
    PendingClaimStays(claimed, id, slot, before);
    var ready := Run(claimed, before);
    StepKeeps(ready, Commit(id));
    var done := Step(ready, Commit(id));
    CommitPublishes(ready, id, slot);
    hide Step, Inv, Run;
    SlotsAreNeverStolen(done, after);
  }

  lemma {:induction false} CommitPublishes(s: State, id: int, slot: Slot)
    requires Inv(s) && slot in SessionOf(s, id).written
    ensures
      var done := Step(s, Commit(id));
      slot in done.db.stored && done.db.stored[slot] == Some(SessionOf(s, id).written[slot])
  {
    assert Sound(s.db, id, SessionOf(s, id));
    PublishKeeps(s.db, SessionOf(s, id), id);
  }

  /** A racer that still sees the slot open after another source's claim: kept out while that claim
      is pending, and told of the conflict once it is committed. Either way nothing of the row
      changes and nothing is enriched. */
  lemma {:induction false} LoserRaisesFirst(s: State, id: int, slot: Slot, source: int)
    requires Inv(s) && slot in SessionOf(s, id).cached && SessionOf(s, id).cached[slot] == None
    requires
      || (s.db.stored[slot].Some? && s.db.stored[slot].value != source)
      || (exists other | other in s.sessions :: other != id && slot in s.sessions[other].written)
    ensures
      var (outcome, db, local) := Attach(s.db, SessionOf(s, id), id, slot, Some(source));
      && (outcome.Conflict? || outcome.Locked?)
      && db.stored == s.db.stored && db.enriched == s.db.enriched && local == SessionOf(s, id)
  {
    assert Sound(s.db, id, SessionOf(s, id));
  }

  /** An open slot that nobody is writing can be claimed. */
  lemma {:induction false} OpenSlotIsClaimed(s: State, id: int, slot: Slot, source: int)
    requires Inv(s) && slot in SessionOf(s, id).cached && SessionOf(s, id).cached[slot] == None
    requires s.db.writer == None && s.db.stored[slot] == None
    ensures Attach(s.db, SessionOf(s, id), id, slot, Some(source)).0.Returned?
    ensures Step(Step(s, Attaching(id, slot, Some(source))), Commit(id)).db.stored == s.db.stored[slot := Some(source)]
  {
    assert Sound(s.db, id, SessionOf(s, id));
    assert SessionOf(s, id).written == map[];
  }
}
