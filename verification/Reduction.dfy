/** Interleaving does not matter as long as no two threads work on the same invoice at once: such a
    run leaves the tables and the ledger as running its jobs one at a time, in the order in which they
    finish, each with the answers it got. */
module Reduction {
  import opened Domain
  import opened Rows
  import opened Steps
  import opened System
  import opened Interleaving

  datatype Tables = Tables(lanes: map<InvoiceId, Lane>, ledger: map<string, string>)

  /** What happens in one piece in a serial execution. */
  datatype Item =
    | Inserted(row: Invoice)
    | Finished(id: InvoiceId, start: Pc, log: seq<Answer>)          // a job or call from start to end
    | Cut(id: InvoiceId, start: Pc, log: seq<Answer>)               // one that was cut off on the way
    | Issued(uuid: string, no: string)

  datatype Exec = Exec(lane: Lane, pc: Pc, registered: map<string, string>)

  /** A thread executed alone on a lane. */
  function ExecLog(maxRetries: int, lane: Lane, start: Pc, log: seq<Answer>): Exec
    decreases |log|
  {
    if log == [] then Exec(lane, start, map[])
    else
      var before := ExecLog(maxRetries, lane, start, log[..|log| - 1]);
      var a := log[|log| - 1];
      var out := ThreadStep(maxRetries, before.lane.row, before.pc, a);
      Exec(LaneStep(maxRetries, before.lane, before.pc, a), out.pc, Register(before.registered, out.sent, a.issued))
  }

  predicate CanApply(maxRetries: int, t: Tables, item: Item) {
    match item
    case Inserted(row) => row.id !in t.lanes
    case Finished(id, start, log) => id in t.lanes && ExecLog(maxRetries, t.lanes[id], start, log).pc == Done
    case Cut(id, start, log) => id in t.lanes
    case Issued(uuid, no) => uuid !in t.ledger
  }

  function Apply(maxRetries: int, t: Tables, item: Item): Tables {
    match item
    case Inserted(row) => t.(lanes := t.lanes[row.id := Lane(row, [], NO_AUDIT)])
    case Finished(id, start, log) =>
      if id !in t.lanes then t
      else
        var done := ExecLog(maxRetries, t.lanes[id], start, log);
        Tables(t.lanes[id := done.lane], t.ledger + done.registered)
    case Cut(id, start, log) =>
      if id !in t.lanes then t
      else
        var cut := ExecLog(maxRetries, t.lanes[id], start, log);
        Tables(t.lanes[id := LaneKill(cut.lane, cut.pc)], t.ledger + cut.registered)
    case Issued(uuid, no) => t.(ledger := t.ledger[uuid := no])
  }

  predicate CanReplay(maxRetries: int, t: Tables, items: seq<Item>)
    decreases |items|
  {
    items == []
    || (CanApply(maxRetries, t, items[0]) && CanReplay(maxRetries, Apply(maxRetries, t, items[0]), items[1..]))
  }

  function Replay(maxRetries: int, t: Tables, items: seq<Item>): Tables
    decreases |items|
  {
    if items == [] then t else Replay(maxRetries, Apply(maxRetries, t, items[0]), items[1..])
  }

  /** What an event completes. */
  function ItemOf(s: Sys, e: Event): Option<Item> {
    match e
    case Create(id, uuid, content, hash, now) =>
      if id in s.lanes || UuidTaken(s, uuid) then None else Some(Inserted(NewInvoice(id, uuid, content, hash, now)))
    case Advance(tid, a) =>
      if tid in s.threads && s.threads[tid].id in s.lanes then
        var t := s.threads[tid];
        if ThreadStep(s.cfg.maxRetries, s.lanes[t.id].row, t.pc, a).pc == Done
        then Some(Finished(t.id, t.start, t.log + [a])) else None
      else None
    case Issue(uuid, no) => Some(Issued(uuid, no))
    case Kill(tid) =>
      if tid in s.threads && s.threads[tid].id in s.lanes then
        var t := s.threads[tid];
        Some(Cut(t.id, t.start, t.log))
      else None
    case _ => None
  }

  /** The jobs of a run in the order in which they end. */
  function CompletionOrder(s: Sys, events: seq<Event>): seq<Item>
    decreases |events|
  {
    if events == [] then []
    else
      var item := ItemOf(s, events[0]);
      (if item.Some? then [item.value] else []) + CompletionOrder(Step(s, events[0]), events[1..])
  }

  // ---------- The invariant ----------

  predicate NoOverlap(s: Sys) {
    forall p, q | p in s.threads && q in s.threads && s.threads[p].id == s.threads[q].id :: p == q
  }

  ghost predicate NoOverlapRun(s: Sys, events: seq<Event>)
    decreases |events|
  {
    NoOverlap(s) && (events == [] || NoOverlapRun(Step(s, events[0]), events[1..]))
  }

  function Look(ledger: map<string, string>, uuid: Option<string>): Option<string> {
    if uuid.Some? && uuid.value in ledger then Some(ledger[uuid.value]) else None
  }

  /** Outside the threads in flight, the serial tables are the tables. */
  predicate IdleLinked(s: Sys, t: Tables, id: InvoiceId)
    requires id in s.lanes && id in t.lanes
  {
    t.lanes[id] == s.lanes[id]
    && Look(t.ledger, s.lanes[id].row.transactionUuid) == Look(s.ledger, s.lanes[id].row.transactionUuid)
  }

  /** A thread in flight is ahead of the serial tables by exactly its own steps so far. */
  predicate ThreadLinked(s: Sys, t: Tables, thread: Thread)
    requires thread.id in s.lanes && thread.id in t.lanes
  {
    var ahead := ExecLog(s.cfg.maxRetries, t.lanes[thread.id], thread.start, thread.log);
    var uuid := s.lanes[thread.id].row.transactionUuid;
    && ahead.lane == s.lanes[thread.id]
    && ahead.pc == thread.pc
    && (forall u | u in ahead.registered :: uuid == Some(u))
    && Look(t.ledger + ahead.registered, uuid) == Look(s.ledger, uuid)
  }

  predicate LinkedAt(s: Sys, t: Tables, id: InvoiceId)
    requires id in s.lanes && id in t.lanes
  {
    && (Idle(s, id) ==> IdleLinked(s, t, id))
    && (forall tid | tid in s.threads && s.threads[tid].id == id :: ThreadLinked(s, t, s.threads[tid]))
  }

  predicate NotBegun(s: Sys) {
    forall tid | tid in s.threads && s.threads[tid].id !in s.lanes ::
      s.threads[tid].log == [] && s.threads[tid].pc == s.threads[tid].start
  }

  predicate Linked(s: Sys, t: Tables) {
    && s.lanes.Keys == t.lanes.Keys
    && t.ledger.Keys <= s.ledger.Keys
    && (forall id | id in s.lanes :: LinkedAt(s, t, id))
    && NotBegun(s)
  }

  lemma ExecSnoc(maxRetries: int, lane: Lane, start: Pc, log: seq<Answer>, a: Answer)
    ensures var before := ExecLog(maxRetries, lane, start, log);
            var out := ThreadStep(maxRetries, before.lane.row, before.pc, a);
            ExecLog(maxRetries, lane, start, log + [a])
            == Exec(LaneStep(maxRetries, before.lane, before.pc, a), out.pc,
                    Register(before.registered, out.sent, a.issued))
  {
    assert (log + [a])[..|log|] == log;
    hide ThreadStep, LaneStep;
  }

  /** Nothing happens on the invoice. */
  predicate Untouched(s: Sys, s': Sys, t: Tables, t': Tables, id: InvoiceId) {
    && id in s.lanes && id in s'.lanes && id in t.lanes && id in t'.lanes
    && s'.cfg == s.cfg && s'.lanes[id] == s.lanes[id] && t'.lanes[id] == t.lanes[id]
    && Look(s'.ledger, s.lanes[id].row.transactionUuid) == Look(s.ledger, s.lanes[id].row.transactionUuid)
    && Look(t'.ledger, s.lanes[id].row.transactionUuid) == Look(t.ledger, s.lanes[id].row.transactionUuid)
    && (forall tid | tid in s.threads && s.threads[tid].id == id ::
          tid in s'.threads && s'.threads[tid] == s.threads[tid])
    && (forall tid | tid in s'.threads && s'.threads[tid].id == id ::
          tid in s.threads && s'.threads[tid] == s.threads[tid])
  }

  lemma LinkedKept(s: Sys, s': Sys, t: Tables, t': Tables, id: InvoiceId)
    requires Untouched(s, s', t, t', id) && LinkedAt(s, t, id)
    ensures LinkedAt(s', t', id)
  {
    hide ExecLog;
    if Idle(s', id) {
      assert Idle(s, id);
    }
    forall tid | tid in s'.threads && s'.threads[tid].id == id ensures ThreadLinked(s', t', s'.threads[tid]) {
      assert ThreadLinked(s, t, s.threads[tid]);
    }
  }

  /** The step of a thread that goes on. */
  lemma LinkedOn(s: Sys, s': Sys, t: Tables, tid: nat, thread: Thread, a: Answer, lane: Lane, out: Out)
    requires NoOverlap(s) && tid in s.threads && s.threads[tid] == thread && thread.id in s.lanes
             && thread.id in t.lanes
    requires ThreadLinked(s, t, thread)
    requires out == ThreadStep(s.cfg.maxRetries, s.lanes[thread.id].row, thread.pc, a)
    requires lane == LaneStep(s.cfg.maxRetries, s.lanes[thread.id], thread.pc, a)
    requires Shape(s, s', tid, thread, lane, out, a)
    requires lane.row.transactionUuid == s.lanes[thread.id].row.transactionUuid
    requires out.sent.Some? ==> out.sent == lane.row.transactionUuid
    ensures var ahead := ExecLog(s.cfg.maxRetries, t.lanes[thread.id], thread.start, thread.log + [a]);
            && ahead.lane == s'.lanes[thread.id] && ahead.pc == out.pc
            && (forall u | u in ahead.registered :: lane.row.transactionUuid == Some(u))
            && Look(t.ledger + ahead.registered, lane.row.transactionUuid) == Look(s'.ledger, lane.row.transactionUuid)
  {
    ExecSnoc(s.cfg.maxRetries, t.lanes[thread.id], thread.start, thread.log, a);
    hide ThreadStep, LaneStep, ExecLog;
  }

  /** What a step can tell the issuer about. */
  lemma SentOwn(s: Sys, thread: Thread, a: Answer)
    requires Sound(s) && thread.id in s.lanes && ThreadSound(s, thread) && HonestIssuer(s.ledger, thread.pc, a)
    ensures var row := s.lanes[thread.id].row;
            var out := ThreadStep(s.cfg.maxRetries, row, thread.pc, a);
            out.row.transactionUuid == row.transactionUuid && (out.sent.Some? ==> out.sent == row.transactionUuid)
  {
    ThreadStepSound(s.cfg.maxRetries, s.lanes[thread.id].row, thread.pc, a, s.ledger);
    hide ThreadStep, HonestIssuer;
  }

  /** The serial tables once the thread has taken the step. */
  function Caught(s: Sys, t: Tables, thread: Thread, a: Answer): Tables
    requires thread.id in t.lanes
  {
    var ahead := ExecLog(s.cfg.maxRetries, t.lanes[thread.id], thread.start, thread.log + [a]);
    if ahead.pc == Done then Tables(t.lanes[thread.id := ahead.lane], t.ledger + ahead.registered) else t
  }

  lemma LinkedAdvance(s: Sys, t: Tables, tid: nat, thread: Thread, a: Answer)
    requires Sound(s) && Linked(s, t) && NoOverlap(s) && HonestIssuer(s.ledger, thread.pc, a)
    requires tid in s.threads && s.threads[tid] == thread && thread.id in s.lanes
    ensures thread.id in t.lanes && Linked(AdvanceStep(s, tid, thread, a), Caught(s, t, thread, a))
    ensures ThreadStep(s.cfg.maxRetries, s.lanes[thread.id].row, thread.pc, a).pc
            == ExecLog(s.cfg.maxRetries, t.lanes[thread.id], thread.start, thread.log + [a]).pc
  {
    hide ThreadStep, LaneStep, AdvanceStep, ExecLog, HonestIssuer, Shape, Linked, NoOverlap, ThreadSound;
    LinkedKeys(s, t);
    LinkedThread(s, t, tid);
    SoundParts(s, tid);
    hide Sound, LinkedAt, ThreadLinked, UuidsDistinct;
    var s' := AdvanceStep(s, tid, thread, a);
    var row := s.lanes[thread.id].row;
    var out := ThreadStep(s.cfg.maxRetries, row, thread.pc, a);
    var lane := LaneStep(s.cfg.maxRetries, s.lanes[thread.id], thread.pc, a);
    SentOwn(s, thread, a);
    LaneStepRow(s.cfg.maxRetries, s.lanes[thread.id], thread.pc, a);
    AdvanceShape(s, tid, thread, a);
    LinkedOn(s, s', t, tid, thread, a, lane, out);
    var ahead := ExecLog(s.cfg.maxRetries, t.lanes[thread.id], thread.start, thread.log + [a]);
    hide Look;
    LinkedAfter(s, s', t, Caught(s, t, thread, a), tid, thread, a, lane, out, ahead);
  }

  /** A step of a thread on an invoice completes an item exactly when it is the thread's last. */
  lemma LinkedItem(s: Sys, t: Tables, tid: nat, thread: Thread, a: Answer)
    requires Sound(s) && Linked(s, t) && NoOverlap(s) && HonestIssuer(s.ledger, thread.pc, a)
    requires tid in s.threads && s.threads[tid] == thread && thread.id in s.lanes
    ensures var item, s' := ItemOf(s, Advance(tid, a)), AdvanceStep(s, tid, thread, a);
            if item.None? then Linked(s', t)
            else CanApply(s.cfg.maxRetries, t, item.value) && Linked(s', Apply(s.cfg.maxRetries, t, item.value))
  {
    hide ThreadStep, AdvanceStep, ExecLog, HonestIssuer, Linked, Sound, NoOverlap;
    LinkedAdvance(s, t, tid, thread, a);
  }

  lemma SoundParts(s: Sys, tid: nat)
    requires Sound(s) && tid in s.threads
    ensures UuidsDistinct(s) && ThreadSound(s, s.threads[tid])
  {
    hide LanesSound, UuidsDistinct, JobsSound, RequestsSound, LedgerSound, ThreadSound;
  }

  /** A step of a thread, in the tables and in the serial tables, where the thread's own execution is
      caught up with if the step was its last. */
  ghost predicate Follows(s: Sys, s': Sys, t: Tables, t': Tables, tid: nat, thread: Thread, a: Answer, lane: Lane,
                        out: Out, ahead: Exec) {
    && tid in s.threads && s.threads[tid] == thread && thread.id in s.lanes && thread.id in t.lanes
    && Shape(s, s', tid, thread, lane, out, a)
    && ahead == ExecLog(s.cfg.maxRetries, t.lanes[thread.id], thread.start, thread.log + [a])
    && ahead.lane == lane && ahead.pc == out.pc
    && lane.row.transactionUuid == s.lanes[thread.id].row.transactionUuid
    && (out.sent.Some? ==> out.sent == lane.row.transactionUuid)
    && (forall u | u in ahead.registered :: lane.row.transactionUuid == Some(u))
    && Look(t.ledger + ahead.registered, lane.row.transactionUuid) == Look(s'.ledger, lane.row.transactionUuid)
    && t' == if out.pc == Done then Tables(t.lanes[thread.id := lane], t.ledger + ahead.registered) else t
  }

  lemma LinkedAfter(s: Sys, s': Sys, t: Tables, t': Tables, tid: nat, thread: Thread, a: Answer, lane: Lane, out: Out,
                    ahead: Exec)
    requires Linked(s, t) && NoOverlap(s) && UuidsDistinct(s)
    requires Follows(s, s', t, t', tid, thread, a, lane, out, ahead)
    ensures Linked(s', t')
  {
    AfterLanes(s, s', t, t', tid, thread, a, lane, out, ahead);
    AfterRest(s, s', t, t', tid, thread, a, lane, out, ahead);
    hide LinkedAt, NoOverlap, UuidsDistinct, Follows, NotBegun;
  }

  lemma AfterLanes(s: Sys, s': Sys, t: Tables, t': Tables, tid: nat, thread: Thread, a: Answer, lane: Lane, out: Out,
                   ahead: Exec)
    requires Linked(s, t) && NoOverlap(s) && UuidsDistinct(s)
    requires Follows(s, s', t, t', tid, thread, a, lane, out, ahead)
    ensures s'.lanes.Keys == t'.lanes.Keys == s.lanes.Keys
    ensures forall id | id in s'.lanes :: LinkedAt(s', t', id)
  {
    hide ExecLog, LinkedAt, NoOverlap, UuidsDistinct, Linked;
    LinkedKeys(s, t);
    assert s'.lanes.Keys == s.lanes.Keys;
    assert forall p | p in s'.threads && p != tid :: p in s.threads && s'.threads[p] == s.threads[p];
    assert forall p | p in s.threads && p != tid :: p in s'.threads && s'.threads[p] == s.threads[p];
    LinkedOwn(s, s', t', tid, thread, a, lane, out, ahead);
    OthersLinked(s, s', t, t', tid);
  }

  lemma AfterRest(s: Sys, s': Sys, t: Tables, t': Tables, tid: nat, thread: Thread, a: Answer, lane: Lane, out: Out,
                  ahead: Exec)
    requires Linked(s, t) && NoOverlap(s) && UuidsDistinct(s)
    requires Follows(s, s', t, t', tid, thread, a, lane, out, ahead)
    ensures t'.ledger.Keys <= s'.ledger.Keys && NotBegun(s')
  {
    hide ExecLog, LinkedAt, NoOverlap, UuidsDistinct;
    LedgerKeysKept(t.ledger, t'.ledger, s.ledger, s'.ledger, lane.row.transactionUuid);
    assert forall p | p in s'.threads && p != tid :: p in s.threads && s'.threads[p] == s.threads[p];
  }

  lemma LinkedOwn(s: Sys, s': Sys, t': Tables, tid: nat, thread: Thread, a: Answer, lane: Lane, out: Out, ahead: Exec)
    requires NoOverlap(s) && tid in s.threads && s.threads[tid] == thread && thread.id in s.lanes
    requires Shape(s, s', tid, thread, lane, out, a) && thread.id in t'.lanes
    requires ahead.lane == lane && ahead.pc == out.pc
    requires forall u | u in ahead.registered :: lane.row.transactionUuid == Some(u)
    requires var uuid := lane.row.transactionUuid;
             if out.pc == Done then
               t'.lanes[thread.id] == lane && Look(t'.ledger, uuid) == Look(s'.ledger, uuid)
             else
               && ahead == ExecLog(s.cfg.maxRetries, t'.lanes[thread.id], thread.start, thread.log + [a])
               && Look(t'.ledger + ahead.registered, uuid) == Look(s'.ledger, uuid)
    ensures LinkedAt(s', t', thread.id)
  {
    hide ExecLog, Look, Register;
    assert s'.lanes[thread.id] == lane;
    if out.pc == Done {
      assert forall p | p in s'.threads :: p in s.threads && p != tid && s'.threads[p] == s.threads[p];
    } else {
      assert s'.threads[tid].id == thread.id;
      assert forall p | p in s'.threads && p != tid :: p in s.threads && s'.threads[p] == s.threads[p];
      assert ThreadLinked(s', t', s'.threads[tid]);
    }
  }

  lemma LedgerKeysKept(l: map<string, string>, l': map<string, string>, m: map<string, string>,
                       m': map<string, string>, uuid: Option<string>)
    requires l.Keys <= m.Keys && m.Keys <= m'.Keys
    requires forall u | u in l' && u !in l :: uuid == Some(u)
    requires l' == l || Look(l', uuid) == Look(m', uuid)
    ensures l'.Keys <= m'.Keys
  {
  }

  /** Ledgers and lanes change only at the invoice of the moving thread. */
  lemma OthersUntouched(s: Sys, s': Sys, t: Tables, t': Tables, tid: nat, id: InvoiceId)
    requires UuidsDistinct(s) && tid in s.threads && s.threads[tid].id in s.lanes
    requires id in s.lanes && id in t.lanes && id != s.threads[tid].id && s'.cfg == s.cfg
             && s.threads[tid].id in s'.lanes
    requires s'.lanes == s.lanes[s.threads[tid].id := s'.lanes[s.threads[tid].id]]
    requires t'.lanes == t.lanes || t'.lanes == t.lanes[s.threads[tid].id := s'.lanes[s.threads[tid].id]]
    requires forall u | s.lanes[s.threads[tid].id].row.transactionUuid != Some(u) ::
               Look(s'.ledger, Some(u)) == Look(s.ledger, Some(u))
               && Look(t'.ledger, Some(u)) == Look(t.ledger, Some(u))
    requires forall p | p in s'.threads && p != tid :: p in s.threads && s'.threads[p] == s.threads[p]
    requires forall p | p in s.threads && p != tid :: p in s'.threads && s'.threads[p] == s.threads[p]
    requires tid in s'.threads ==> s'.threads[tid].id == s.threads[tid].id
    ensures Untouched(s, s', t, t', id)
  {
    assert s.lanes[id].row.transactionUuid != s.lanes[s.threads[tid].id].row.transactionUuid;
    if s.lanes[id].row.transactionUuid.Some? {
      var u := s.lanes[id].row.transactionUuid.value;
      assert Look(s'.ledger, Some(u)) == Look(s.ledger, Some(u));
    }
    hide UuidsDistinct;
  }

  lemma OthersLinked(s: Sys, s': Sys, t: Tables, t': Tables, tid: nat)
    requires UuidsDistinct(s) && Linked(s, t) && tid in s.threads && s.threads[tid].id in s.lanes
    requires s'.cfg == s.cfg && s.threads[tid].id in s'.lanes
    requires s'.lanes == s.lanes[s.threads[tid].id := s'.lanes[s.threads[tid].id]]
    requires t'.lanes == t.lanes || t'.lanes == t.lanes[s.threads[tid].id := s'.lanes[s.threads[tid].id]]
    requires forall u | s.lanes[s.threads[tid].id].row.transactionUuid != Some(u) ::
               Look(s'.ledger, Some(u)) == Look(s.ledger, Some(u))
               && Look(t'.ledger, Some(u)) == Look(t.ledger, Some(u))
    requires forall p | p in s'.threads && p != tid :: p in s.threads && s'.threads[p] == s.threads[p]
    requires forall p | p in s.threads && p != tid :: p in s'.threads && s'.threads[p] == s.threads[p]
    requires tid in s'.threads ==> s'.threads[tid].id == s.threads[tid].id
    ensures forall id | id in s.lanes && id != s.threads[tid].id :: LinkedAt(s', t', id)
  {
    forall id | id in s.lanes && id != s.threads[tid].id ensures LinkedAt(s', t', id) {
      OthersUntouched(s, s', t, t', tid, id);
      hide LinkedAt, Look, UuidsDistinct, Untouched;
      LinkedKept(s, s', t, t', id);
    }
  }

  lemma LinkedKill(s: Sys, t: Tables, tid: nat, thread: Thread)
    requires UuidsDistinct(s) && Linked(s, t) && NoOverlap(s) && tid in s.threads && s.threads[tid] == thread
             && thread.id in s.lanes
    ensures Linked(KillStep(s, tid, thread), Apply(s.cfg.maxRetries, t, Cut(thread.id, thread.start, thread.log)))
  {
    hide ExecLog, LaneKill, NoOverlap, UuidsDistinct;
    LinkedThread(s, t, tid);
    LinkedKeys(s, t);
    hide Linked, LinkedAt, Look, IdleLinked, Idle;
    var s' := KillStep(s, tid, thread);
    var cut := ExecLog(s.cfg.maxRetries, t.lanes[thread.id], thread.start, thread.log);
    LookAdded(t.ledger, cut.registered, s.lanes[thread.id].row.transactionUuid);
    KillLanes(s, s', t, Tables(t.lanes[thread.id := LaneKill(cut.lane, cut.pc)], t.ledger + cut.registered),
              tid, thread);
  }

  lemma LookAdded(ledger: map<string, string>, added: map<string, string>, uuid: Option<string>)
    requires forall u | u in added :: uuid == Some(u)
    ensures forall u | u in ledger + added && u !in ledger :: uuid == Some(u)
    ensures forall u | uuid != Some(u) :: Look(ledger + added, Some(u)) == Look(ledger, Some(u))
  {
  }

  lemma LinkedThread(s: Sys, t: Tables, tid: nat)
    requires Linked(s, t) && tid in s.threads && s.threads[tid].id in s.lanes
    ensures s.threads[tid].id in t.lanes && LinkedAt(s, t, s.threads[tid].id) && ThreadLinked(s, t, s.threads[tid])
  {
    hide ThreadLinked, IdleLinked;
    assert LinkedAt(s, t, s.threads[tid].id);
  }

  lemma KillLanes(s: Sys, s': Sys, t: Tables, t': Tables, tid: nat, thread: Thread)
    requires UuidsDistinct(s) && Linked(s, t) && NoOverlap(s) && tid in s.threads && s.threads[tid] == thread
             && thread.id in s.lanes
    requires s'.cfg == s.cfg && s'.ledger == s.ledger && s'.threads == s.threads - {tid}
    requires s'.lanes == s.lanes[thread.id := LaneKill(s.lanes[thread.id], thread.pc)]
    requires t'.lanes == t.lanes[thread.id := s'.lanes[thread.id]]
    requires forall u | u in t'.ledger && u !in t.ledger :: s.lanes[thread.id].row.transactionUuid == Some(u)
    requires forall u | s.lanes[thread.id].row.transactionUuid != Some(u) ::
               Look(t'.ledger, Some(u)) == Look(t.ledger, Some(u))
    requires Look(t'.ledger, s.lanes[thread.id].row.transactionUuid)
             == Look(s.ledger, s.lanes[thread.id].row.transactionUuid)
    ensures Linked(s', t')
  {
    hide LinkedAt, UuidsDistinct, ExecLog, RunToEnd;
    KilledRow(s.lanes[thread.id], thread.pc);
    assert Idle(s', thread.id);
    hide LaneKill, NoOverlap;
    LinkedIdle(s', t', thread.id);
    OthersLinked(s, s', t, t', tid);
    LedgerKeysKept(t.ledger, t'.ledger, s.ledger, s'.ledger, s.lanes[thread.id].row.transactionUuid);
    hide Look, Idle;
  }

  lemma KilledRow(lane: Lane, pc: Pc)
    ensures LaneKill(lane, pc).row == lane.row
  {
  }

  lemma LinkedIdle(s: Sys, t: Tables, id: InvoiceId)
    requires id in s.lanes && id in t.lanes && Idle(s, id) && IdleLinked(s, t, id)
    ensures LinkedAt(s, t, id)
  {
    hide ThreadLinked, IdleLinked;
  }

  lemma LinkedIssueAt(s: Sys, t: Tables, uuid: string, no: string, id: InvoiceId)
    requires id in s.lanes && id in t.lanes && LinkedAt(s, t, id) && uuid !in s.ledger
    ensures LinkedAt(s.(ledger := s.ledger[uuid := no]), t.(ledger := t.ledger[uuid := no]), id)
  {
    var s', t' := s.(ledger := s.ledger[uuid := no]), t.(ledger := t.ledger[uuid := no]);
    hide ExecLog;
    if s.lanes[id].row.transactionUuid != Some(uuid) {
      LinkedKept(s, s', t, t', id);
    } else {
      forall tid | tid in s'.threads && s'.threads[tid].id == id ensures ThreadLinked(s', t', s'.threads[tid]) {
        assert ThreadLinked(s, t, s.threads[tid]);
      }
    }
  }

  lemma LinkedIssue(s: Sys, t: Tables, uuid: string, no: string)
    requires Linked(s, t) && uuid !in s.ledger
    ensures Linked(s.(ledger := s.ledger[uuid := no]), Apply(s.cfg.maxRetries, t, Issued(uuid, no)))
  {
    var s' := s.(ledger := s.ledger[uuid := no]);
    var t' := Apply(s.cfg.maxRetries, t, Issued(uuid, no));
    forall id | id in s'.lanes ensures LinkedAt(s', t', id) {
      LinkedIssueAt(s, t, uuid, no, id);
    }
    hide LinkedAt;
  }

  lemma NotIssuedYet(s: Sys, uuid: string)
    requires Sound(s) && !UuidTaken(s, uuid)
    ensures uuid !in s.ledger
  {
    assert forall r | r in s.requests && r.uuid == uuid :: s.lanes[r.id].row.transactionUuid == Some(r.uuid);
    hide LanesSound, ThreadsSound, JobsSound, UuidsDistinct;
  }

  lemma LinkedInsert(s: Sys, t: Tables, row: Invoice)
    requires Linked(s, t) && row.transactionUuid.Some? && row.id !in s.lanes
    requires !UuidTaken(s, row.transactionUuid.value) && row.transactionUuid.value !in s.ledger
    ensures Linked(InsertStep(s, row), Apply(s.cfg.maxRetries, t, Inserted(row)))
  {
    var s' := InsertStep(s, row);
    hide UuidTaken, Linked;
    InsertLanes(s, s', t, Apply(s.cfg.maxRetries, t, Inserted(row)), row);
  }

  lemma InsertLanes(s: Sys, s': Sys, t: Tables, t': Tables, row: Invoice)
    requires Linked(s, t) && row.transactionUuid.Some? && row.id !in s.lanes && row.transactionUuid.value !in s.ledger
    requires s' == s.(lanes := s.lanes[row.id := Lane(row, [], NO_AUDIT)])
    requires t' == t.(lanes := t.lanes[row.id := Lane(row, [], NO_AUDIT)])
    ensures Linked(s', t')
  {
    hide LinkedAt, Look;
    forall id | id in s.lanes ensures LinkedAt(s', t', id) {
      LinkedKept(s, s', t, t', id);
    }
    LinkedNew(s', t', row);
  }

  lemma LinkedNew(s: Sys, t: Tables, row: Invoice)
    requires row.id in s.lanes && row.id in t.lanes && s.lanes[row.id] == t.lanes[row.id] && s.lanes[row.id].row == row
    requires row.transactionUuid.Some? && row.transactionUuid.value !in s.ledger
             && row.transactionUuid.value !in t.ledger
    requires forall tid | tid in s.threads && s.threads[tid].id == row.id ::
               s.threads[tid].log == [] && s.threads[tid].pc == s.threads[tid].start
    ensures LinkedAt(s, t, row.id)
  {
    hide ThreadStep, LaneStep;
  }

  /** The event moves no thread and writes no table. */
  lemma LinkedQuiet(s: Sys, s': Sys, t: Tables)
    requires Linked(s, t) && s'.cfg == s.cfg && s'.lanes == s.lanes && s'.ledger == s.ledger
    requires forall tid | tid in s.threads :: tid in s'.threads && s'.threads[tid] == s.threads[tid]
    requires forall tid | tid in s'.threads && tid !in s.threads ::
               s'.threads[tid].log == [] && s'.threads[tid].pc == s'.threads[tid].start
    requires NoOverlap(s')
    ensures Linked(s', t)
  {
    forall id | id in s'.lanes ensures LinkedAt(s', t, id) {
      LinkedQuietAt(s, s', t, id);
    }
    hide LinkedAt;
  }

  lemma LinkedQuietAt(s: Sys, s': Sys, t: Tables, id: InvoiceId)
    requires id in s.lanes && id in t.lanes && LinkedAt(s, t, id)
    requires s'.cfg == s.cfg && s'.lanes == s.lanes && s'.ledger == s.ledger
    requires forall tid | tid in s.threads :: tid in s'.threads && s'.threads[tid] == s.threads[tid]
    requires forall tid | tid in s'.threads && tid !in s.threads ::
               s'.threads[tid].log == [] && s'.threads[tid].pc == s'.threads[tid].start
    requires NoOverlap(s')
    ensures LinkedAt(s', t, id)
  {
    hide Look;
    if Idle(s', id) {
      assert Idle(s, id);
    }
    forall tid | tid in s'.threads && s'.threads[tid].id == id ensures ThreadLinked(s', t, s'.threads[tid]) {
      if tid in s.threads {
        assert ThreadLinked(s, t, s.threads[tid]);
      } else {
        assert Idle(s, id) && t.ledger + map[] == t.ledger;
      }
    }
  }

  /** A thread on an unknown invoice disappears. */
  lemma LinkedGone(s: Sys, s': Sys, t: Tables, tid: nat)
    requires Linked(s, t) && tid in s.threads && s.threads[tid].id !in s.lanes
    requires s'.cfg == s.cfg && s'.lanes == s.lanes && s'.ledger == s.ledger && s'.threads == s.threads - {tid}
    ensures Linked(s', t)
  {
    hide LinkedAt, Look;
    forall id | id in s'.lanes ensures LinkedAt(s', t, id) {
      LinkedKept(s, s', t, t, id);
    }
  }

  lemma LinkedStep(s: Sys, t: Tables, e: Event)
    requires Sound(s) && Linked(s, t) && NoOverlap(s) && NoOverlap(Step(s, e)) && Legal(s, e)
    ensures var item := ItemOf(s, e);
            if item.None? then Linked(Step(s, e), t)
            else CanApply(s.cfg.maxRetries, t, item.value) && Linked(Step(s, e), Apply(s.cfg.maxRetries, t, item.value))
  {
    hide AdvanceStep, Linked, Sound, HonestIssuer, ExecLog, UuidTaken, ThreadStep;
    match e
    case Create(id, uuid, content, hash, now) =>
      LinkedKeys(s, t);
      if !(id in s.lanes || UuidTaken(s, uuid)) {
        NotIssuedYet(s, uuid);
        LinkedInsert(s, t, NewInvoice(id, uuid, content, hash, now));
      }
    case Advance(tid, a) =>
      if s.threads[tid].id in s.lanes {
        LinkedItem(s, t, tid, s.threads[tid], a);
      } else {
        GoneShape(s, tid, s.threads[tid], a);
        LinkedGone(s, Step(s, e), t, tid);
      }
    case Issue(uuid, no) =>
      LinkedKeys(s, t);
      LinkedIssue(s, t, uuid, no);
    case Kill(tid) =>
      LinkedKeys(s, t);
      SoundParts(s, tid);
      if s.threads[tid].id in s.lanes {
        LinkedKill(s, t, tid, s.threads[tid]);
      } else {
        LinkedGone(s, Step(s, e), t, tid);
      }
    case _ => LinkedQuiet(s, Step(s, e), t);
  }

  lemma LinkedKeys(s: Sys, t: Tables)
    requires Linked(s, t)
    ensures s.lanes.Keys == t.lanes.Keys && t.ledger.Keys <= s.ledger.Keys
  {
    hide LinkedAt, NotBegun;
  }

  lemma GoneShape(s: Sys, tid: nat, thread: Thread, a: Answer)
    requires thread.id !in s.lanes
    ensures var s' := AdvanceStep(s, tid, thread, a);
            s'.cfg == s.cfg && s'.lanes == s.lanes && s'.ledger == s.ledger && s'.threads == s.threads - {tid}
  {
  }

  lemma {:induction false} LinkedRun(s: Sys, t: Tables, events: seq<Event>)
    requires Sound(s) && Linked(s, t) && LegalRun(s, events) && NoOverlapRun(s, events)
    ensures CanReplay(s.cfg.maxRetries, t, CompletionOrder(s, events))
    ensures Linked(Run(s, events), Replay(s.cfg.maxRetries, t, CompletionOrder(s, events)))
    ensures Sound(Run(s, events))
    decreases |events|
  {
    hide Step, Legal, Sound, Linked, Apply, CanApply, ItemOf, NoOverlap;
    if events != [] {
      var s', item, rest := Step(s, events[0]), ItemOf(s, events[0]), CompletionOrder(Step(s, events[0]), events[1..]);
      SoundStep(s, events[0]);
      SameConfig(s, events[0]);
      LinkedStep(s, t, events[0]);
      if item.Some? {
        LinkedRun(s', Apply(s.cfg.maxRetries, t, item.value), events[1..]);
        assert ([item.value] + rest)[1..] == rest;
      } else {
        LinkedRun(s', t, events[1..]);
        assert [] + rest == rest;
      }
    }
  }

  lemma SameConfig(s: Sys, e: Event)
    ensures Step(s, e).cfg == s.cfg
  {
    hide ThreadStep, LaneStep;
  }

  /** Any run in which no two threads are on one invoice at the same time, with nothing left in flight,
      ends with the tables and the ledger that its jobs, run one after the other in completion
      order and each to its end, produce. */
  lemma SerialEquivalence(cfg: Config, events: seq<Event>)
    requires LegalRun(Init(cfg), events) && NoOverlapRun(Init(cfg), events) && Run(Init(cfg), events).threads == map[]
    ensures var order, empty := CompletionOrder(Init(cfg), events), Tables(map[], map[]);
            && CanReplay(cfg.maxRetries, empty, order)
            && Replay(cfg.maxRetries, empty, order)
               == Tables(Run(Init(cfg), events).lanes, Run(Init(cfg), events).ledger)
  {
    LinkedRun(Init(cfg), Tables(map[], map[]), events);
    LinkedEnd(Run(Init(cfg), events), Replay(cfg.maxRetries, Tables(map[], map[]), CompletionOrder(Init(cfg), events)));
  }

  lemma LinkedEnd(s: Sys, t: Tables)
    requires Sound(s) && Linked(s, t) && s.threads == map[]
    ensures t == Tables(s.lanes, s.ledger)
  {
    hide LanesSound, ThreadsSound, JobsSound, UuidsDistinct;
    forall id | id in s.lanes ensures IdleLinked(s, t, id) {
      assert LinkedAt(s, t, id) && Idle(s, id);
    }
    hide LinkedAt;
    forall uuid | uuid in s.ledger ensures uuid in t.ledger && t.ledger[uuid] == s.ledger[uuid] {
      var r :| r in s.requests && r.uuid == uuid;
      assert IdleLinked(s, t, r.id);
    }
    assert t.lanes == s.lanes && t.ledger == s.ledger;
  }

  // ---------- Each of these jobs is the job run without interference ----------

  lemma NothingAfterDone(maxRetries: int, lane: Lane, env: nat -> Answer, k: nat, a: Answer)
    ensures LaneStep(maxRetries, lane, Done, a) == lane && ThreadStep(maxRetries, lane.row, Done, a).pc == Done
    ensures RunToEnd(maxRetries, lane, Done, env, k) == lane
  {
  }

  lemma {:induction false} ExecIsRunToEnd(maxRetries: int, lane: Lane, start: Pc, log: seq<Answer>, env: nat -> Answer)
    requires forall k: nat | k < |log| :: env(k) == log[k]
    ensures var e := ExecLog(maxRetries, lane, start, log);
            RunToEnd(maxRetries, e.lane, e.pc, env, |log|) == RunToEnd(maxRetries, lane, start, env, 0)
    decreases |log|
  {
    hide ThreadStep, LaneStep, RunToEnd;
    if log != [] {
      var n := |log| - 1;
      ExecIsRunToEnd(maxRetries, lane, start, log[..n], env);
      var before := ExecLog(maxRetries, lane, start, log[..n]);
      assert env(n) == log[n];
      if before.pc == Done {
        NothingAfterDone(maxRetries, before.lane, env, n, log[n]);
        NothingAfterDone(maxRetries, before.lane, env, n + 1, log[n]);
      } else {
        Unroll(maxRetries, before.lane, before.pc, env, n);
      }
    }
  }

  /** A finished item is its job run without interference. */
  lemma FinishedIsRunToEnd(maxRetries: int, t: Tables, item: Item, env: nat -> Answer)
    requires item.Finished? && CanApply(maxRetries, t, item) && forall k: nat | k < |item.log| :: env(k) == item.log[k]
    ensures Apply(maxRetries, t, item).lanes[item.id] == RunToEnd(maxRetries, t.lanes[item.id], item.start, env, 0)
  {
    ExecIsRunToEnd(maxRetries, t.lanes[item.id], item.start, item.log, env);
  }
}
