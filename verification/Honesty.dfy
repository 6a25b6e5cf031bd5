/** The serial order of `Reduction` is one an honest issuer could have answered: in it, too, every number is
    assigned at most once per transactionUuid and every number in an answer has been assigned before. */
module Honesty {
  import opened Domain
  import opened Viettel
  import opened Rows
  import opened Steps
  import opened System
  import opened Interleaving
  import opened Reduction

  // ---------- A job executed alone speaks of its own transactionUuid only ----------

  predicate Own(lane: Lane, pc: Pc, uuid: string) {
    && lane.row.transactionUuid == Some(uuid) && uuid != ""
    && (CopyOf(pc).Some? ==> CopyOf(pc).value.transactionUuid == Some(uuid))
  }

  lemma OwnStep(maxRetries: int, lane: Lane, pc: Pc, a: Answer, uuid: string)
    requires Own(lane, pc, uuid)
    ensures var out := ThreadStep(maxRetries, lane.row, pc, a);
            && Own(LaneStep(maxRetries, lane, pc, a), out.pc, uuid)
            && (out.sent.Some? <==> pc.CallCreate? && a.valid) && (out.sent.Some? ==> out.sent == Some(uuid))
  {
    hide CreateOutcome, QueryOutcome, CanTransitionTo, AuditStep;
  }

  lemma {:induction false} OwnExec(maxRetries: int, lane: Lane, start: Pc, log: seq<Answer>, uuid: string)
    requires Own(lane, start, uuid)
    ensures var e := ExecLog(maxRetries, lane, start, log);
            Own(e.lane, e.pc, uuid) && forall u | u in e.registered :: u == uuid
    decreases |log|
  {
    if log != [] {
      var n := |log| - 1;
      OwnExec(maxRetries, lane, start, log[..n], uuid);
      var before := ExecLog(maxRetries, lane, start, log[..n]);
      OwnStep(maxRetries, before.lane, before.pc, log[n], uuid);
      hide ThreadStep, LaneStep, Own;
    }
  }

  // ---------- Honest answers, in terms of what the ledger says about that transactionUuid ----------

  /** Every answer of the log is honest when the job is executed alone on the lane. */
  predicate HonestLog(maxRetries: int, lane: Lane, ledger: map<string, string>, start: Pc, log: seq<Answer>)
    decreases |log|
  {
    log == [] ||
    (var before := ExecLog(maxRetries, lane, start, log[..|log| - 1]);
     && HonestLog(maxRetries, lane, ledger, start, log[..|log| - 1])
     && HonestIssuer(ledger + before.registered, before.pc, log[|log| - 1]))
  }

  lemma HonestSameLook(ledger: map<string, string>, ledger': map<string, string>, lane: Lane, pc: Pc, a: Answer,
                       uuid: string)
    requires Own(lane, pc, uuid) && HonestIssuer(ledger, pc, a) && Look(ledger, Some(uuid)) == Look(ledger', Some(uuid))
    ensures HonestIssuer(ledger', pc, a)
  {
    hide CreateOutcome, QueryOutcome;
  }

  /** An answer that assigned nothing stays honest when the number is assigned later. */
  lemma HonestLater(ledger: map<string, string>, no: string, lane: Lane, pc: Pc, a: Answer, uuid: string)
    requires Own(lane, pc, uuid) && HonestIssuer(ledger, pc, a) && uuid !in ledger
    requires pc.CallCreate? && a.valid ==> a.issued.None?
    ensures HonestIssuer(ledger[uuid := no], pc, a)
  {
    hide CreateOutcome, QueryOutcome;
  }

  lemma SameLookAdded(ledger: map<string, string>, ledger': map<string, string>, added: map<string, string>,
                      uuid: string)
    requires Look(ledger, Some(uuid)) == Look(ledger', Some(uuid))
    ensures Look(ledger + added, Some(uuid)) == Look(ledger' + added, Some(uuid))
  {
  }

  lemma {:induction false} LogSameLook(maxRetries: int, lane: Lane, ledger: map<string, string>,
                                       ledger': map<string, string>,
                                       start: Pc, log: seq<Answer>, uuid: string)
    requires Own(lane, start, uuid) && HonestLog(maxRetries, lane, ledger, start, log)
    requires Look(ledger, Some(uuid)) == Look(ledger', Some(uuid))
    ensures HonestLog(maxRetries, lane, ledger', start, log)
    decreases |log|
  {
    hide HonestIssuer, ExecLog, Own, Look;
    if log != [] {
      var n := |log| - 1;
      LogSameLook(maxRetries, lane, ledger, ledger', start, log[..n], uuid);
      OwnExec(maxRetries, lane, start, log[..n], uuid);
      var before := ExecLog(maxRetries, lane, start, log[..n]);
      SameLookAdded(ledger, ledger', before.registered, uuid);
      HonestSameLook(ledger + before.registered, ledger' + before.registered, before.lane, before.pc, log[n], uuid);
    }
  }

  /** As long as a job has registered no number, no create answer in its log assigned one. */
  lemma NothingIssued(maxRetries: int, lane: Lane, start: Pc, log: seq<Answer>, uuid: string)
    requires Own(lane, start, uuid) && log != [] && uuid !in ExecLog(maxRetries, lane, start, log).registered
    ensures var before := ExecLog(maxRetries, lane, start, log[..|log| - 1]);
            && before.registered == map[]
            && (before.pc.CallCreate? && log[|log| - 1].valid ==> log[|log| - 1].issued.None?)
  {
    var n := |log| - 1;
    var before := ExecLog(maxRetries, lane, start, log[..n]);
    OwnExec(maxRetries, lane, start, log[..n], uuid);
    OwnStep(maxRetries, before.lane, before.pc, log[n], uuid);
    hide ThreadStep, LaneStep, Own;
  }

  lemma {:induction false} LogLater(maxRetries: int, lane: Lane, ledger: map<string, string>, no: string,
                                    start: Pc, log: seq<Answer>, uuid: string)
    requires Own(lane, start, uuid) && HonestLog(maxRetries, lane, ledger, start, log)
    requires uuid !in ledger && uuid !in ExecLog(maxRetries, lane, start, log).registered
    ensures HonestLog(maxRetries, lane, ledger[uuid := no], start, log)
    decreases |log|
  {
    hide HonestIssuer, ExecLog, Own;
    if log != [] {
      var n := |log| - 1;
      var before := ExecLog(maxRetries, lane, start, log[..n]);
      OwnExec(maxRetries, lane, start, log[..n], uuid);
      NothingIssued(maxRetries, lane, start, log, uuid);
      LogLater(maxRetries, lane, ledger, no, start, log[..n], uuid);
      assert ledger + map[] == ledger && ledger[uuid := no] + map[] == ledger[uuid := no];
      HonestLater(ledger, no, before.lane, before.pc, log[n], uuid);
    }
  }

  // ---------- Along a run ----------

  predicate HonestThread(maxRetries: int, t: Tables, thread: Thread) {
    && CopyOf(thread.start).None?
    && (thread.id in t.lanes ==> HonestLog(maxRetries, t.lanes[thread.id], t.ledger, thread.start, thread.log))
    && (thread.id !in t.lanes ==> thread.log == [])
  }

  predicate KnownUuids(t: Tables) {
    forall id | id in t.lanes :: !Blank(t.lanes[id].row.transactionUuid)
  }

  predicate AllHonest(s: Sys, t: Tables) {
    KnownUuids(t) && forall tid | tid in s.threads :: HonestThread(s.cfg.maxRetries, t, s.threads[tid])
  }

  /** An item of the serial order whose answers are honest where it stands. */
  predicate HonestItem(maxRetries: int, t: Tables, item: Item) {
    match item
    case Inserted(row) => row.status == Draft && !Blank(row.transactionUuid)
    case Finished(id, start, log) => id in t.lanes && HonestLog(maxRetries, t.lanes[id], t.ledger, start, log)
    case Cut(id, start, log) => id in t.lanes && HonestLog(maxRetries, t.lanes[id], t.ledger, start, log)
    case Issued(uuid, no) => uuid !in t.ledger && no != ""
  }

  lemma ThreadKept(maxRetries: int, t: Tables, t': Tables, thread: Thread)
    requires KnownUuids(t) && HonestThread(maxRetries, t, thread) && thread.id in t.lanes
    requires thread.id in t'.lanes && t'.lanes[thread.id] == t.lanes[thread.id]
    requires Look(t'.ledger, t.lanes[thread.id].row.transactionUuid)
             == Look(t.ledger, t.lanes[thread.id].row.transactionUuid)
    ensures HonestThread(maxRetries, t', thread)
  {
    hide HonestLog, Look;
    LogSameLook(maxRetries, t.lanes[thread.id], t.ledger, t'.ledger, thread.start, thread.log,
                t.lanes[thread.id].row.transactionUuid.value);
  }

  /** The serial tables know each invoice by the same transactionUuid. */
  lemma SameUuids(s: Sys, t: Tables, id: InvoiceId)
    requires Linked(s, t) && AllHonest(s, t) && id in s.lanes
    ensures id in t.lanes && t.lanes[id].row.transactionUuid == s.lanes[id].row.transactionUuid
  {
    LinkedKeys(s, t);
    assert LinkedAt(s, t, id);
    hide HonestLog, Look, Linked, ExecLog;
    if tid :| tid in s.threads && s.threads[tid].id == id {
      var thread := s.threads[tid];
      assert HonestThread(s.cfg.maxRetries, t, thread) && ThreadLinked(s, t, thread);
      OwnExec(s.cfg.maxRetries, t.lanes[id], thread.start, thread.log, t.lanes[id].row.transactionUuid.value);
    } else {
      assert Idle(s, id);
    }
  }

  /** The next step of a thread is as honest in the serial order as in the run. */
  lemma HonestOn(s: Sys, t: Tables, tid: nat, a: Answer)
    requires Linked(s, t) && AllHonest(s, t) && tid in s.threads && s.threads[tid].id in s.lanes
    requires HonestIssuer(s.ledger, s.threads[tid].pc, a)
    ensures var thread := s.threads[tid];
            && thread.id in t.lanes && CopyOf(thread.start).None?
            && HonestLog(s.cfg.maxRetries, t.lanes[thread.id], t.ledger, thread.start, thread.log + [a])
  {
    hide HonestIssuer, ExecLog, Look;
    var thread := s.threads[tid];
    LinkedThread(s, t, tid);
    SameUuids(s, t, thread.id);
    hide Linked;
    assert HonestThread(s.cfg.maxRetries, t, thread);
    var uuid := t.lanes[thread.id].row.transactionUuid.value;
    OwnExec(s.cfg.maxRetries, t.lanes[thread.id], thread.start, thread.log, uuid);
    var ahead := ExecLog(s.cfg.maxRetries, t.lanes[thread.id], thread.start, thread.log);
    hide Own;
    HonestSameLook(s.ledger, t.ledger + ahead.registered, ahead.lane, thread.pc, a, uuid);
    assert (thread.log + [a])[..|thread.log|] == thread.log;
  }

  /** A thread ends, finished or cut off, and its lane and numbers go to the serial tables. */
  lemma HonestEnds(s: Sys, s': Sys, t: Tables, t': Tables, tid: nat, log: seq<Answer>)
    requires Linked(s, t) && AllHonest(s, t) && NoOverlap(s) && UuidsDistinct(s)
    requires tid in s.threads && s.threads[tid].id in s.lanes && s'.cfg == s.cfg && s'.threads == s.threads - {tid}
    requires s.threads[tid].id in t.lanes
    requires var e := ExecLog(s.cfg.maxRetries, t.lanes[s.threads[tid].id], s.threads[tid].start, log);
             exists lane: Lane :: lane.row == e.lane.row
               && t' == Tables(t.lanes[s.threads[tid].id := lane], t.ledger + e.registered)
    ensures AllHonest(s', t')
  {
    var id, e := s.threads[tid].id, ExecLog(s.cfg.maxRetries, t.lanes[s.threads[tid].id], s.threads[tid].start, log);
    assert HonestThread(s.cfg.maxRetries, t, s.threads[tid]);
    OwnExec(s.cfg.maxRetries, t.lanes[id], s.threads[tid].start, log, t.lanes[id].row.transactionUuid.value);
    LinkedKeys(s, t);
    hide ExecLog, HonestLog, Linked;
    assert KnownUuids(t');
    forall p | p in s'.threads ensures HonestThread(s'.cfg.maxRetries, t', s'.threads[p]) {
      assert p in s.threads && s.threads[p].id != id;
      hide AllHonest, KnownUuids, NoOverlap;
      HonestOther(s, t, t', id, e.registered, p);
    }
    hide HonestThread, Look, NoOverlap, UuidsDistinct, KnownUuids;
  }

  lemma HonestOther(s: Sys, t: Tables, t': Tables, id: InvoiceId, registered: map<string, string>, p: nat)
    requires Linked(s, t) && AllHonest(s, t) && UuidsDistinct(s) && id in s.lanes && id in t.lanes
    requires p in s.threads && s.threads[p].id != id
    requires forall u | u in registered :: Some(u) == t.lanes[id].row.transactionUuid
    requires t'.ledger == t.ledger + registered && id in t'.lanes && t'.lanes == t.lanes[id := t'.lanes[id]]
    ensures HonestThread(s.cfg.maxRetries, t', s.threads[p])
  {
    hide Linked, HonestLog;
    var thread := s.threads[p];
    assert HonestThread(s.cfg.maxRetries, t, thread);
    LinkedKeys(s, t);
    if thread.id in t.lanes {
      SameUuids(s, t, id);
      SameUuids(s, t, thread.id);
      assert t.lanes[thread.id].row.transactionUuid != t.lanes[id].row.transactionUuid;
      hide HonestThread, UuidsDistinct;
      ThreadKept(s.cfg.maxRetries, t, t', thread);
    }
  }

  lemma HonestIssue(s: Sys, t: Tables, uuid: string, no: string)
    requires Linked(s, t) && AllHonest(s, t) && uuid !in s.ledger
    ensures AllHonest(s.(ledger := s.ledger[uuid := no]), t.(ledger := t.ledger[uuid := no]))
  {
    var t' := t.(ledger := t.ledger[uuid := no]);
    LinkedKeys(s, t);
    hide ExecLog, HonestLog;
    forall p | p in s.threads ensures HonestThread(s.cfg.maxRetries, t', s.threads[p]) {
      HonestIssueAt(s, t, uuid, no, p);
    }
    hide HonestThread, Linked;
  }

  lemma HonestIssueAt(s: Sys, t: Tables, uuid: string, no: string, p: nat)
    requires Linked(s, t) && AllHonest(s, t) && uuid !in s.ledger && uuid !in t.ledger && p in s.threads
    ensures HonestThread(s.cfg.maxRetries, t.(ledger := t.ledger[uuid := no]), s.threads[p])
  {
    hide ExecLog, HonestLog, Linked;
    var t', thread := t.(ledger := t.ledger[uuid := no]), s.threads[p];
    assert HonestThread(s.cfg.maxRetries, t, thread);
    LinkedKeys(s, t);
    if thread.id in t.lanes {
      if t.lanes[thread.id].row.transactionUuid == Some(uuid) {
        SameUuids(s, t, thread.id);
        LinkedThread(s, t, p);
        hide LinkedAt;
        LogLater(s.cfg.maxRetries, t.lanes[thread.id], t.ledger, no, thread.start, thread.log, uuid);
      } else {
        ThreadKept(s.cfg.maxRetries, t, t', thread);
      }
    }
  }

  /** Threads go on as they are, begin, or end without a trace. */
  lemma HonestQuiet(s: Sys, s': Sys, t: Tables)
    requires AllHonest(s, t) && s'.cfg == s.cfg
    requires forall p | p in s'.threads ::
               (p in s.threads && s'.threads[p] == s.threads[p])
               || (s'.threads[p].log == [] && CopyOf(s'.threads[p].start).None?)
    ensures AllHonest(s', t)
  {
    forall p | p in s'.threads ensures HonestThread(s'.cfg.maxRetries, t, s'.threads[p]) {
      if p in s.threads && s'.threads[p] == s.threads[p] {
        assert HonestThread(s.cfg.maxRetries, t, s.threads[p]);
      }
    }
    hide HonestThread;
  }

  lemma HonestInsert(s: Sys, s': Sys, t: Tables, row: Invoice)
    requires AllHonest(s, t) && s'.cfg == s.cfg && s'.threads == s.threads && row.id !in t.lanes
             && !Blank(row.transactionUuid)
    ensures AllHonest(s', t.(lanes := t.lanes[row.id := Lane(row, [], NO_AUDIT)]))
  {
    var t' := t.(lanes := t.lanes[row.id := Lane(row, [], NO_AUDIT)]);
    forall p | p in s'.threads ensures HonestThread(s'.cfg.maxRetries, t', s'.threads[p]) {
      assert HonestThread(s.cfg.maxRetries, t, s.threads[p]);
    }
    hide HonestThread;
  }

  lemma HonestAdvance(s: Sys, t: Tables, tid: nat, a: Answer)
    requires Sound(s) && Linked(s, t) && AllHonest(s, t) && NoOverlap(s)
    requires tid in s.threads && s.threads[tid].id in s.lanes && HonestIssuer(s.ledger, s.threads[tid].pc, a)
    ensures var thread := s.threads[tid];
            && thread.id in t.lanes
            && HonestLog(s.cfg.maxRetries, t.lanes[thread.id], t.ledger, thread.start, thread.log + [a])
            && AllHonest(AdvanceStep(s, tid, thread, a), Caught(s, t, thread, a))
  {
    hide HonestIssuer, ThreadStep, LaneStep, AdvanceStep, HonestLog, Linked, Sound, NoOverlap, ExecLog;
    var thread, s' := s.threads[tid], AdvanceStep(s, tid, s.threads[tid], a);
    HonestOn(s, t, tid, a);
    LinkedAdvance(s, t, tid, thread, a);
    AdvanceShape(s, tid, thread, a);
    SoundParts(s, tid);
    hide AllHonest, UuidsDistinct, ThreadSound;
    var ahead := ExecLog(s.cfg.maxRetries, t.lanes[thread.id], thread.start, thread.log + [a]);
    if ahead.pc == Done {
      assert ahead.lane.row == ahead.lane.row;
      HonestEnds(s, s', t, Caught(s, t, thread, a), tid, thread.log + [a]);
    } else {
      HonestGoes(s, s', t, tid, a);
    }
  }

  lemma HonestGoes(s: Sys, s': Sys, t: Tables, tid: nat, a: Answer)
    requires AllHonest(s, t) && tid in s.threads && s.threads[tid].id in t.lanes && s'.cfg == s.cfg && tid in s'.threads
    requires s'.threads == s.threads[tid := s'.threads[tid]]
    requires s'.threads[tid].id == s.threads[tid].id && s'.threads[tid].start == s.threads[tid].start
    requires s'.threads[tid].log == s.threads[tid].log + [a] && CopyOf(s.threads[tid].start).None?
    requires HonestLog(s.cfg.maxRetries, t.lanes[s.threads[tid].id], t.ledger,
                       s.threads[tid].start, s.threads[tid].log + [a])
    ensures AllHonest(s', t)
  {
    hide HonestLog;
    forall p | p in s'.threads ensures HonestThread(s'.cfg.maxRetries, t, s'.threads[p]) {
      if p != tid {
        assert HonestThread(s.cfg.maxRetries, t, s.threads[p]);
      }
    }
    hide HonestThread;
  }

  lemma HonestStep(s: Sys, t: Tables, e: Event)
    requires Sound(s) && Linked(s, t) && AllHonest(s, t) && NoOverlap(s) && Legal(s, e)
    ensures var item := ItemOf(s, e);
            if item.None? then AllHonest(Step(s, e), t)
            else HonestItem(s.cfg.maxRetries, t, item.value)
                 && AllHonest(Step(s, e), Apply(s.cfg.maxRetries, t, item.value))
  {
    hide AdvanceStep, Linked, Sound, HonestIssuer, ExecLog, UuidTaken, ThreadStep, AllHonest, HonestLog, NoOverlap;
    match e
    case Create(id, uuid, content, hash, now) =>
      LinkedKeys(s, t);
      if id in s.lanes || UuidTaken(s, uuid) {
        HonestQuiet(s, Step(s, e), t);
      } else {
        HonestInsert(s, Step(s, e), t, NewInvoice(id, uuid, content, hash, now));
      }
    case Advance(tid, a) =>
      if s.threads[tid].id in s.lanes {
        LinkedAdvance(s, t, tid, s.threads[tid], a);
        HonestAdvance(s, t, tid, a);
      } else {
        GoneShape(s, tid, s.threads[tid], a);
        HonestQuiet(s, Step(s, e), t);
      }
    case Issue(uuid, no) =>
      LinkedKeys(s, t);
      HonestIssue(s, t, uuid, no);
    case Kill(tid) =>
      if s.threads[tid].id in s.lanes {
        HonestCut(s, t, tid);
      } else {
        HonestQuiet(s, Step(s, e), t);
      }
    case _ => HonestQuiet(s, Step(s, e), t);
  }

  lemma HonestCut(s: Sys, t: Tables, tid: nat)
    requires Sound(s) && Linked(s, t) && AllHonest(s, t) && NoOverlap(s)
    requires tid in s.threads && s.threads[tid].id in s.lanes
    ensures var thread := s.threads[tid]; var item := Cut(thread.id, thread.start, thread.log);
            && HonestItem(s.cfg.maxRetries, t, item)
            && AllHonest(KillStep(s, tid, thread), Apply(s.cfg.maxRetries, t, item))
  {
    hide Linked, Sound, ExecLog, HonestLog, NoOverlap, LaneKill;
    var thread := s.threads[tid];
    LinkedKeys(s, t);
    SoundParts(s, tid);
    assert HonestThread(s.cfg.maxRetries, t, thread);
    hide AllHonest, UuidsDistinct, ThreadSound;
    var cut := ExecLog(s.cfg.maxRetries, t.lanes[thread.id], thread.start, thread.log);
    KilledRow(cut.lane, cut.pc);
    HonestEnds(s, KillStep(s, tid, thread), t,
               Apply(s.cfg.maxRetries, t, Cut(thread.id, thread.start, thread.log)), tid, thread.log);
  }

  predicate HonestReplay(maxRetries: int, t: Tables, items: seq<Item>)
    decreases |items|
  {
    items == []
    || (HonestItem(maxRetries, t, items[0]) && HonestReplay(maxRetries, Apply(maxRetries, t, items[0]), items[1..]))
  }

  lemma {:induction false} HonestRun(s: Sys, t: Tables, events: seq<Event>)
    requires Sound(s) && Linked(s, t) && AllHonest(s, t) && LegalRun(s, events) && NoOverlapRun(s, events)
    ensures HonestReplay(s.cfg.maxRetries, t, CompletionOrder(s, events))
    decreases |events|
  {
    hide Step, Legal, Sound, Linked, Apply, CanApply, ItemOf, NoOverlap, AllHonest, HonestItem, Grows;
    if events != [] {
      var s', item, rest := Step(s, events[0]), ItemOf(s, events[0]), CompletionOrder(Step(s, events[0]), events[1..]);
      SoundStep(s, events[0]);
      SameConfig(s, events[0]);
      LinkedStep(s, t, events[0]);
      HonestStep(s, t, events[0]);
      if item.Some? {
        HonestRun(s', Apply(s.cfg.maxRetries, t, item.value), events[1..]);
        assert ([item.value] + rest)[1..] == rest;
      } else {
        HonestRun(s', t, events[1..]);
        assert [] + rest == rest;
      }
    }
  }

  /** In the serial order of a run without overlap, every job's answers are honest at the place where the
      whole job now stands: the same issuer could have given them to the jobs run one at a time. */
  lemma SerialHonesty(cfg: Config, events: seq<Event>)
    requires LegalRun(Init(cfg), events) && NoOverlapRun(Init(cfg), events)
    ensures HonestReplay(cfg.maxRetries, Tables(map[], map[]), CompletionOrder(Init(cfg), events))
  {
    HonestRun(Init(cfg), Tables(map[], map[]), events);
  }
}
