/** What holds in every run, however jobs and API calls interleave, fail and are cut off. */
module Interleaving {
  import opened Domain
  import opened Viettel
  import opened Rows
  import opened Steps
  import opened System

  // ---------- One step of one thread ----------

  /** What an invoice is born with and never loses. */
  predicate SameBirth(a: Invoice, b: Invoice) {
    a.id == b.id && a.transactionUuid == b.transactionUuid && a.content == b.content && a.createdAt == b.createdAt
  }

  /** A number on an invoice is the issuer's number for its transactionUuid. */
  predicate Agrees(inv: Invoice, ledger: map<string, string>) {
    inv.externalId.Some? ==>
      && inv.externalId.value != ""
      && inv.transactionUuid.Some?
      && inv.transactionUuid.value in ledger
      && ledger[inv.transactionUuid.value] == inv.externalId.value
  }

  predicate Extends(ledger: map<string, string>, ledger': map<string, string>) {
    forall uuid | uuid in ledger :: uuid in ledger' && ledger'[uuid] == ledger[uuid]
  }

  function CopyOf(pc: Pc): Option<Invoice> {
    match pc
    case MarkProcessing(copy) => Some(copy)
    case LoadItems(copy) => Some(copy)
    case CallCreate(copy) => Some(copy)
    case SaveNumber(copy, _) => Some(copy)
    case SaveRetry(copy, _) => Some(copy)
    case CallQuery(copy) => Some(copy)
    case SaveConfirmed(copy, _, _) => Some(copy)
    case SavePending(copy, _) => Some(copy)
    case _ => None
  }

  /** The number a thread is about to save. */
  function NumberOf(pc: Pc): Option<string> {
    match pc
    case SaveNumber(_, no) => Some(no)
    case SaveConfirmed(_, no, _) => Some(no)
    case _ => None
  }

  /** Every thread except an API call that has not written yet works on an invoice past draft. */
  predicate PastDraftPc(pc: Pc) {
    !(pc.SubmitRead? || pc.MarkSubmitted? || pc.HashRead? || pc.HashWrite?)
  }

  predicate RowSound(row: Invoice, ledger: map<string, string>) {
    !Blank(row.transactionUuid) && row.status != Cancelled && Agrees(row, ledger)
  }

  predicate PcSound(row: Invoice, pc: Pc, ledger: map<string, string>) {
    && (CopyOf(pc).Some? ==> SameBirth(CopyOf(pc).value, row) && Agrees(CopyOf(pc).value, ledger))
    && (NumberOf(pc).Some? ==>
          && NumberOf(pc).value != ""
          && row.transactionUuid.Some? && row.transactionUuid.value in ledger
          && ledger[row.transactionUuid.value] == NumberOf(pc).value)
    && (PastDraftPc(pc) ==> row.status != Draft)
  }

  /** What one step may do, as far as every interleaving is concerned. */
  predicate StepSound(row: Invoice, pc: Pc, a: Answer, ledger: map<string, string>, out: Out) {
    var ledger' := Register(ledger, out.sent, a.issued);
    && RowSound(out.row, ledger') && (out.pc != Done ==> PcSound(out.row, out.pc, ledger'))
    && SameBirth(row, out.row) && Extends(ledger, ledger')
    && (row.status != Draft ==> out.row.status != Draft)
    && (out.sent.Some? ==> out.sent == row.transactionUuid)
    && (out.push ==> out.row.status != Draft)
    && (out.wrote.Some? ==> out.wrote.value == out.row.status && out.wrote.value != Draft)
    && (out.wrote.None? ==> out.row.status == row.status)
  }

  lemma CreateStepSound(row: Invoice, copy: Invoice, a: Answer, ledger: map<string, string>)
    requires RowSound(row, ledger) && PcSound(row, CallCreate(copy), ledger)
    requires HonestIssuer(ledger, CallCreate(copy), a)
    ensures StepSound(row, CallCreate(copy), a, ledger, CreateStep(row, copy, a))
  {
    hide CreateOutcome;
    var out := CreateStep(row, copy, a);
    assert Extends(ledger, Register(ledger, out.sent, a.issued));
  }

  lemma QueryStepSound(row: Invoice, copy: Invoice, a: Answer, ledger: map<string, string>)
    requires RowSound(row, ledger) && PcSound(row, CallQuery(copy), ledger)
    requires HonestIssuer(ledger, CallQuery(copy), a)
    ensures StepSound(row, CallQuery(copy), a, ledger, QueryStep(row, copy, a))
  {
    ConfirmedNumber(a.reply);
    hide QueryOutcome, Interpret;
  }

  lemma ConfirmedNumber(reply: Reply)
    ensures QueryOutcome(reply).Confirmed? ==> QueryOutcome(reply).no != ""
  {
  }

  lemma SaveStepSound(row: Invoice, copy: Invoice, copy': Invoice, a: Answer, pc: Pc, stored: Pc, failed: Pc,
                      ledger: map<string, string>)
    requires RowSound(row, ledger) && row.status != Draft
    requires SameBirth(copy, row) && SameBirth(copy', copy) && Agrees(copy', ledger)
    requires CopyOf(stored).None? && CopyOf(failed).None? && NumberOf(stored).None? && NumberOf(failed).None?
    ensures StepSound(row, pc, a, ledger, Save(row, a, copy', stored, failed))
  {
  }

  lemma SetStatusSound(row: Invoice, a: Answer, pc: Pc, status: Status, reason: Reason, stored: Pc,
                       ledger: map<string, string>)
    requires RowSound(row, ledger) && status != Draft && status != Cancelled
    requires PcSound(row.(status := status), stored, ledger)
    ensures StepSound(row, pc, a, ledger, SetStatus(row, a, status, reason, stored, Done))
  {
    hide CopyOf, NumberOf, PastDraftPc;
    assert Agrees(row, ledger) ==> Agrees(WriteStatus(row, status, reason, a.now, a.later), ledger);
    hide Agrees;
  }

  predicate Reads(pc: Pc) {
    || pc.PublishRead? || pc.LoadItems? || pc.RecordCompleted? || pc.PollRead? || pc.SubmitRead?
    || pc.RecordSubmitted? || pc.EnqueueSubmitted? || pc.HashRead? || pc.HashWrite? || pc.Done?
  }

  lemma ReadEffect(maxRetries: int, row: Invoice, pc: Pc, a: Answer)
    requires Reads(pc)
    ensures var out := ThreadStep(maxRetries, row, pc, a);
            && out.row == row.(transactionHash := out.row.transactionHash, updatedAt := out.row.updatedAt)
            && out.sent.None? && out.wrote.None? && (out.push ==> PastDraftPc(pc))
            && (CopyOf(out.pc).Some? ==> CopyOf(out.pc) == Some(row) || CopyOf(out.pc) == CopyOf(pc))
            && NumberOf(out.pc).None?
            && (PastDraftPc(out.pc) && out.pc != Done ==> PastDraftPc(pc))
  {
    hide CreateStep, QueryStep, CanTransitionTo, Blank;
  }

  lemma ReadStepSound(maxRetries: int, row: Invoice, pc: Pc, a: Answer, ledger: map<string, string>)
    requires RowSound(row, ledger) && PcSound(row, pc, ledger) && Reads(pc)
    ensures StepSound(row, pc, a, ledger, ThreadStep(maxRetries, row, pc, a))
  {
    ReadEffect(maxRetries, row, pc, a);
    hide ThreadStep, CopyOf, NumberOf, PastDraftPc, Reads;
  }

  predicate WritesStatus(pc: Pc) {
    || pc.MarkProcessing? || pc.MarkUnloadable? || pc.MarkCompleted? || pc.MarkRejected?
    || pc.MarkAfterRetry? || pc.MarkConfirmed? || pc.MarkSubmitted?
  }

  lemma StatusStepSound(maxRetries: int, row: Invoice, pc: Pc, a: Answer, ledger: map<string, string>)
    requires RowSound(row, ledger) && PcSound(row, pc, ledger) && WritesStatus(pc)
    ensures StepSound(row, pc, a, ledger, ThreadStep(maxRetries, row, pc, a))
  {
    hide StepSound, CreateStep, QueryStep, RowSound, Agrees, SetStatus;
    match pc
    case MarkProcessing(copy) =>
      SetStatusSound(row, a, pc, Processing, SendingToViettel, LoadItems(copy), ledger);
    case MarkUnloadable =>
      SetStatusSound(row, a, pc, Failed, ItemsNotLoaded, Done, ledger);
    case MarkCompleted =>
      SetStatusSound(row, a, pc, Completed, PublishedToViettel, RecordCompleted, ledger);
    case MarkRejected(v) =>
      SetStatusSound(row, a, pc, Failed, NonRetryable(v), Done, ledger);
    case MarkAfterRetry(count, error) =>
      SetStatusSound(row, a, pc, Failed, MaxRetriesExceeded(error), Done, ledger);
      SetStatusSound(row, a, pc, Submitted, RetryPending(error), Done, ledger);
    case MarkConfirmed(no) =>
      SetStatusSound(row, a, pc, Completed, ViettelConfirmed(no), Done, ledger);
    case MarkSubmitted(from) =>
      SetStatusSound(row, a, pc, Submitted, SubmittedViaApi, RecordSubmitted(from), ledger);
  }

  predicate SavesRow(pc: Pc) {
    pc.SaveNumber? || pc.SaveConfirmed? || pc.SaveRetry? || pc.SavePending?
  }

  lemma SavingSound(maxRetries: int, row: Invoice, pc: Pc, a: Answer, ledger: map<string, string>)
    requires RowSound(row, ledger) && PcSound(row, pc, ledger) && SavesRow(pc)
    ensures StepSound(row, pc, a, ledger, ThreadStep(maxRetries, row, pc, a))
  {
    hide StepSound, CreateStep, QueryStep, RowSound, Save;
    match pc
    case SaveNumber(copy, no) =>
      var copy' := copy.(externalId := Some(no), completedAt := Some(a.now), updatedAt := a.now);
      SaveStepSound(row, copy, copy', a, pc, MarkCompleted, Done, ledger);
    case SaveConfirmed(copy, no, raw) =>
      var copy' := copy.(externalId := Some(no), completedAt := Some(a.now), metadata := Some(raw), updatedAt := a.now);
      SaveStepSound(row, copy, copy', a, pc, MarkConfirmed(no), MarkConfirmed(no), ledger);
    case SaveRetry(copy, error) =>
      var next := MarkAfterRetry(copy.retryCount, error);
      SaveStepSound(row, copy, copy.(updatedAt := a.now), a, pc, next, next, ledger);
    case SavePending(copy, raw) =>
      SaveStepSound(row, copy, copy.(metadata := Some(raw), updatedAt := a.now), a, pc, Done, Done, ledger);
  }

  /** No step reads a transactionUuid other than the row's own, and the fallback is never used. */
  lemma ThreadStepSound(maxRetries: int, row: Invoice, pc: Pc, a: Answer, ledger: map<string, string>)
    requires RowSound(row, ledger) && PcSound(row, pc, ledger) && HonestIssuer(ledger, pc, a)
    ensures StepSound(row, pc, a, ledger, ThreadStep(maxRetries, row, pc, a))
  {
    hide StepSound, CreateStep, QueryStep, HonestIssuer, RowSound, PcSound;
    match pc
    case CallCreate(copy) => CreateStepSound(row, copy, a, ledger);
    case CallQuery(copy) => QueryStepSound(row, copy, a, ledger);
    case _ =>
      hide ThreadStep;
      if SavesRow(pc) {
        SavingSound(maxRetries, row, pc, a, ledger);
      } else if WritesStatus(pc) {
        StatusStepSound(maxRetries, row, pc, a, ledger);
      } else {
        ReadStepSound(maxRetries, row, pc, a, ledger);
      }
  }

  // ---------- The invariant of all runs ----------

  /** The trace is a path from draft to the present status. */
  predicate TraceSound(lane: Lane) {
    var trace := lane.audit.trace;
    && lane.row.status == (if trace == [] then Draft else trace[|trace| - 1].to)
    && (trace != [] ==> trace[0].from == Draft)
    && (forall k | 0 <= k < |trace| :: trace[k].to != Draft && trace[k].to != Cancelled)
    && (forall k | 0 < k < |trace| :: trace[k].from == trace[k - 1].to)
  }

  predicate LanesSound(s: Sys) {
    forall id | id in s.lanes ::
      s.lanes[id].row.id == id && RowSound(s.lanes[id].row, s.ledger) && TraceSound(s.lanes[id])
  }

  predicate UuidsDistinct(s: Sys) {
    forall i, j | i in s.lanes && j in s.lanes && i != j ::
      s.lanes[i].row.transactionUuid != s.lanes[j].row.transactionUuid
  }

  predicate ThreadSound(s: Sys, t: Thread) {
    if t.id in s.lanes then PcSound(s.lanes[t.id].row, t.pc, s.ledger)
    else t.pc.SubmitRead? || t.pc.HashRead?
  }

  predicate ThreadsSound(s: Sys) {
    forall tid | tid in s.threads :: ThreadSound(s, s.threads[tid])
  }

  predicate PastDraft(s: Sys, id: InvoiceId) {
    id in s.lanes && s.lanes[id].row.status != Draft
  }

  predicate JobsSound(s: Sys) {
    && (forall k | 0 <= k < |s.queue| :: PastDraft(s, s.queue[k].id))
    && (forall k | 0 <= k < |s.backlog| :: PastDraft(s, s.backlog[k].id))
  }

  predicate RequestsSound(s: Sys) {
    forall r | r in s.requests :: r.id in s.lanes && s.lanes[r.id].row.transactionUuid == Some(r.uuid)
  }

  ghost predicate LedgerSound(s: Sys) {
    forall uuid | uuid in s.ledger :: exists r :: r in s.requests && r.uuid == uuid
  }

  ghost predicate Sound(s: Sys) {
    && LanesSound(s) && UuidsDistinct(s) && ThreadsSound(s)
    && JobsSound(s) && RequestsSound(s) && LedgerSound(s)
  }

  /** How a later state relates to an earlier one, in every run. */
  ghost predicate Grows(s: Sys, s': Sys) {
    && s'.cfg == s.cfg
    && (forall id | id in s.lanes ::
          && id in s'.lanes
          && SameBirth(s.lanes[id].row, s'.lanes[id].row)
          && s.lanes[id].audit.trace <= s'.lanes[id].audit.trace
          && (s.lanes[id].row.status != Draft ==> s'.lanes[id].row.status != Draft))
    && Extends(s.ledger, s'.ledger)
    && s.requests <= s'.requests
  }

  lemma ThreadSoundKept(s: Sys, s': Sys, t: Thread)
    requires Grows(s, s') && ThreadSound(s, t)
    ensures ThreadSound(s', t)
  {
  }

  lemma JobsSoundKept(s: Sys, s': Sys)
    requires Grows(s, s') && JobsSound(s)
    requires forall k | 0 <= k < |s'.queue| ::
               s'.queue[k] in s.queue || s'.queue[k] in s.backlog || PastDraft(s', s'.queue[k].id)
    requires forall k | 0 <= k < |s'.backlog| :: s'.backlog[k] in s.backlog || PastDraft(s', s'.backlog[k].id)
    ensures JobsSound(s')
  {
    assert forall job | job in s.queue || job in s.backlog :: PastDraft(s, job.id);
    assert forall id | PastDraft(s, id) :: PastDraft(s', id);
  }

  lemma LaneReplaced(s: Sys, s': Sys, id: InvoiceId, lane: Lane)
    requires LanesSound(s) && UuidsDistinct(s) && RequestsSound(s)
    requires id in s.lanes && s'.lanes == s.lanes[id := lane] && Extends(s.ledger, s'.ledger)
    requires RowSound(lane.row, s'.ledger) && TraceSound(lane) && SameBirth(s.lanes[id].row, lane.row)
    requires s.lanes[id].audit.trace <= lane.audit.trace
             && (s.lanes[id].row.status != Draft ==> lane.row.status != Draft)
    ensures LanesSound(s') && UuidsDistinct(s')
    ensures s'.cfg == s.cfg && s.requests <= s'.requests ==> Grows(s, s')
    ensures s'.requests <= s.requests + {Request(id, lane.row.transactionUuid.value)} ==> RequestsSound(s')
  {
    hide TraceSound, Agrees;
    ReplacedRequests(s, s', id, lane);
    ReplacedGrows(s, s', id, lane);
    hide RequestsSound, Grows;
    ReplacedLanes(s, s', id, lane);
    hide LanesSound;
    assert forall i | i in s'.lanes ::
             i in s.lanes && s.lanes[i].row.transactionUuid == s'.lanes[i].row.transactionUuid;
    ReplacedDistinct(s, s');
    hide UuidsDistinct;
  }

  lemma ReplacedLanes(s: Sys, s': Sys, id: InvoiceId, lane: Lane)
    requires LanesSound(s) && id in s.lanes && s'.lanes == s.lanes[id := lane] && Extends(s.ledger, s'.ledger)
    requires RowSound(lane.row, s'.ledger) && TraceSound(lane) && lane.row.id == id
    ensures LanesSound(s')
  {
    hide TraceSound;
  }

  lemma ReplacedGrows(s: Sys, s': Sys, id: InvoiceId, lane: Lane)
    requires id in s.lanes && s'.lanes == s.lanes[id := lane] && Extends(s.ledger, s'.ledger)
    requires SameBirth(s.lanes[id].row, lane.row) && s.lanes[id].audit.trace <= lane.audit.trace
    requires s.lanes[id].row.status != Draft ==> lane.row.status != Draft
    ensures s'.cfg == s.cfg && s.requests <= s'.requests ==> Grows(s, s')
  {
    hide Extends;
  }

  lemma ReplacedDistinct(s: Sys, s': Sys)
    requires UuidsDistinct(s)
    requires forall i | i in s'.lanes ::
               i in s.lanes && s.lanes[i].row.transactionUuid == s'.lanes[i].row.transactionUuid
    ensures UuidsDistinct(s')
  {
  }

  lemma ReplacedRequests(s: Sys, s': Sys, id: InvoiceId, lane: Lane)
    requires RequestsSound(s) && id in s.lanes && s'.lanes == s.lanes[id := lane]
    requires lane.row.transactionUuid == s.lanes[id].row.transactionUuid && lane.row.transactionUuid.Some?
    ensures s'.requests <= s.requests + {Request(id, lane.row.transactionUuid.value)} ==> RequestsSound(s')
  {
  }

  lemma ThreadsSoundKept(s: Sys, s': Sys)
    requires Grows(s, s') && ThreadsSound(s)
    requires forall p | p in s'.threads ::
               (p in s.threads && s'.threads[p] == s.threads[p]) || ThreadSound(s', s'.threads[p])
    ensures ThreadsSound(s')
  {
    forall p | p in s'.threads ensures ThreadSound(s', s'.threads[p]) {
      if p in s.threads && s'.threads[p] == s.threads[p] {
        ThreadSoundKept(s, s', s.threads[p]);
      }
    }
  }

  lemma SameTables(s: Sys, s': Sys)
    requires LanesSound(s) && UuidsDistinct(s) && RequestsSound(s)
    requires s'.cfg == s.cfg && s'.lanes == s.lanes && s'.requests == s.requests && Extends(s.ledger, s'.ledger)
    ensures Grows(s, s') && LanesSound(s') && UuidsDistinct(s') && RequestsSound(s')
  {
  }

  lemma LedgerSoundKept(s: Sys, s': Sys, r: Request)
    requires LedgerSound(s) && s.requests <= s'.requests && r in s'.requests
    requires s'.ledger.Keys <= s.ledger.Keys + {r.uuid}
    ensures LedgerSound(s')
  {
    forall uuid | uuid in s'.ledger ensures exists q :: q in s'.requests && q.uuid == uuid {
      if uuid in s.ledger {
        var q :| q in s.requests && q.uuid == uuid;
        assert q in s'.requests;
      } else {
        assert r.uuid == uuid;
      }
    }
  }

  lemma TraceSoundKept(maxRetries: int, lane: Lane, pc: Pc, a: Answer)
    requires TraceSound(lane)
    requires var out := ThreadStep(maxRetries, lane.row, pc, a);
             && (out.wrote.Some? ==> out.wrote.value == out.row.status && out.wrote.value != Draft)
             && (out.wrote.None? ==> out.row.status == lane.row.status)
             && out.row.status != Cancelled
    ensures TraceSound(LaneStep(maxRetries, lane, pc, a))
    ensures lane.audit.trace <= LaneStep(maxRetries, lane, pc, a).audit.trace
  {
    hide ThreadStep;
  }

  /** What an advancing thread does to the system, in terms of its lane and outcome only. */
  ghost predicate Shape(s: Sys, s': Sys, tid: nat, t: Thread, lane: Lane, out: Out, a: Answer)
    requires t.id in s.lanes
  {
    && s'.cfg == s.cfg
    && s'.lanes == s.lanes[t.id := lane]
    && s'.ledger == Register(s.ledger, out.sent, a.issued)
    && s'.requests == (if out.sent.Some? then s.requests + {Request(t.id, out.sent.value)} else s.requests)
    && (s'.queue == s.queue || (out.push && s'.queue == s.queue + [Job(PublishInvoice, t.id)]))
    && s'.backlog == s.backlog
    && s'.threads == (if out.pc == Done then s.threads - {tid}
                      else s.threads[tid := Moved(t, s.lanes[t.id].row, a, out.pc)])
  }

  lemma AdvanceShape(s: Sys, tid: nat, t: Thread, a: Answer)
    requires t.id in s.lanes
    ensures Shape(s, AdvanceStep(s, tid, t, a), tid, t, LaneStep(s.cfg.maxRetries, s.lanes[t.id], t.pc, a),
                  ThreadStep(s.cfg.maxRetries, s.lanes[t.id].row, t.pc, a), a)
  {
  }

  lemma FromShape(s: Sys, s': Sys, tid: nat, t: Thread, lane: Lane, out: Out, a: Answer)
    requires Sound(s) && t.id in s.lanes
    requires Shape(s, s', tid, t, lane, out, a) && lane.row == out.row && TraceSound(lane)
    requires StepSound(s.lanes[t.id].row, t.pc, a, s.ledger, out)
    requires s.lanes[t.id].audit.trace <= lane.audit.trace
    ensures Sound(s') && Grows(s, s')
  {
    hide RowSound, PcSound, TraceSound, Agrees, LanesSound, UuidsDistinct, ThreadsSound, Grows;
    LaneReplaced(s, s', t.id, lane);
    JobsSoundKept(s, s');
    if out.sent.Some? {
      LedgerSoundKept(s, s', Request(t.id, out.sent.value));
    }
    ThreadsSoundKept(s, s');
  }

  lemma SoundAdvance(s: Sys, tid: nat, t: Thread, a: Answer)
    requires Sound(s) && tid in s.threads && s.threads[tid] == t && HonestIssuer(s.ledger, t.pc, a)
    ensures Sound(AdvanceStep(s, tid, t, a)) && Grows(s, AdvanceStep(s, tid, t, a))
  {
    assert ThreadSound(s, t);
    if t.id in s.lanes {
      var lane := s.lanes[t.id];
      ThreadStepSound(s.cfg.maxRetries, lane.row, t.pc, a, s.ledger);
      TraceSoundKept(s.cfg.maxRetries, lane, t.pc, a);
      AdvanceShape(s, tid, t, a);
      FromShape(s, AdvanceStep(s, tid, t, a), tid, t, LaneStep(s.cfg.maxRetries, lane, t.pc, a),
                ThreadStep(s.cfg.maxRetries, lane.row, t.pc, a), a);
    } else {
      SoundQuiet(s, End(s, tid, t));
    }
  }

  lemma InsertTables(s: Sys, s': Sys, row: Invoice)
    requires LanesSound(s) && UuidsDistinct(s) && RequestsSound(s)
    requires !Blank(row.transactionUuid) && row.externalId.None? && row.status == Draft
    requires row.id !in s.lanes && !UuidTaken(s, row.transactionUuid.value)
    requires s' == s.(lanes := s.lanes[row.id := Lane(row, [], NO_AUDIT)])
    ensures Grows(s, s') && LanesSound(s') && UuidsDistinct(s') && RequestsSound(s')
  {
    InsertDistinct(s, s', row);
    NewLaneSound(row, s.ledger);
    hide TraceSound, RowSound, UuidTaken, UuidsDistinct;
  }

  lemma InsertDistinct(s: Sys, s': Sys, row: Invoice)
    requires UuidsDistinct(s) && row.transactionUuid.Some? && !UuidTaken(s, row.transactionUuid.value)
    requires s'.lanes == s.lanes[row.id := Lane(row, [], NO_AUDIT)]
    ensures UuidsDistinct(s')
  {
    assert forall i | i in s.lanes :: s.lanes[i].row.transactionUuid != row.transactionUuid;
    hide UuidTaken;
  }

  lemma NewLaneSound(row: Invoice, ledger: map<string, string>)
    requires !Blank(row.transactionUuid) && row.externalId.None? && row.status == Draft
    ensures TraceSound(Lane(row, [], NO_AUDIT)) && RowSound(row, ledger)
  {
  }

  lemma SoundInsert(s: Sys, row: Invoice)
    requires Sound(s) && !Blank(row.transactionUuid) && row.externalId.None? && row.status == Draft
    ensures Sound(InsertStep(s, row)) && Grows(s, InsertStep(s, row))
  {
    hide Grows, LanesSound, UuidsDistinct, RequestsSound, JobsSound, ThreadsSound, UuidTaken;
    var s' := InsertStep(s, row);
    if row.id in s.lanes || UuidTaken(s, row.transactionUuid.value) {
      GrowsRefl(s);
    } else {
      InsertTables(s, s', row);
      JobsSoundKept(s, s');
      ThreadsSoundKept(s, s');
    }
  }

  lemma SoundKill(s: Sys, tid: nat, t: Thread)
    requires Sound(s) && tid in s.threads && s.threads[tid] == t
    ensures Sound(KillStep(s, tid, t)) && Grows(s, KillStep(s, tid, t))
  {
    hide LanesSound, UuidsDistinct, RequestsSound, JobsSound, ThreadsSound;
    var s' := KillStep(s, tid, t);
    if t.id in s.lanes {
      KillTables(s, s', t);
    } else {
      SameTables(s, s');
    }
    JobsSoundKept(s, s');
    ThreadsSoundKept(s, s');
  }

  lemma KillTables(s: Sys, s': Sys, t: Thread)
    requires LanesSound(s) && UuidsDistinct(s) && RequestsSound(s) && t.id in s.lanes
    requires s'.cfg == s.cfg && s'.ledger == s.ledger && s'.requests == s.requests
    requires s'.lanes == s.lanes[t.id := LaneKill(s.lanes[t.id], t.pc)]
    ensures Grows(s, s') && LanesSound(s') && UuidsDistinct(s') && RequestsSound(s')
  {
    var lane, lane' := s.lanes[t.id], s'.lanes[t.id];
    assert lane'.row == lane.row && lane'.audit.trace == lane.audit.trace;
    assert TraceSound(lane');
    hide LaneKill, RowSound, TraceSound, UuidsDistinct, Grows, RequestsSound;
    LaneReplaced(s, s', t.id, lane');
  }

  /** An event that leaves the tables and the requests alone and starts threads and jobs only on
      invoices past draft. */
  lemma SoundQuiet(s: Sys, s': Sys)
    requires Sound(s)
    requires s'.cfg == s.cfg && s'.lanes == s.lanes && s'.requests == s.requests && s'.ledger == s.ledger
    requires forall p | p in s'.threads ::
               (p in s.threads && s'.threads[p] == s.threads[p]) || ThreadSound(s', s'.threads[p])
    requires forall k | 0 <= k < |s'.queue| :: s'.queue[k] in s.queue || s'.queue[k] in s.backlog
    requires forall k | 0 <= k < |s'.backlog| :: s'.backlog[k] in s.backlog || PastDraft(s', s'.backlog[k].id)
    ensures Sound(s') && Grows(s, s')
  {
    hide LanesSound, UuidsDistinct, RequestsSound, JobsSound, ThreadsSound;
    SameTables(s, s');
    JobsSoundKept(s, s');
    ThreadsSoundKept(s, s');
  }

  lemma SoundCall(s: Sys, tid: nat, id: InvoiceId, start: Pc)
    requires Sound(s) && (start.SubmitRead? || start.HashRead?)
    ensures var s' := Step(s, Call(tid, id, start)); Sound(s') && Grows(s, s')
  {
    var s' := Step(s, Call(tid, id, start));
    hide Sound, Grows;
    assert ThreadSound(s', s'.threads[tid]);
    hide ThreadSound, PastDraft;
    SoundQuiet(s, s');
  }

  lemma SoundPollPush(s: Sys)
    requires Sound(s) && s.backlog != []
    ensures Sound(PollPushStep(s)) && Grows(s, PollPushStep(s))
  {
    hide Sound, Grows, ThreadSound, PastDraft;
    SoundQuiet(s, PollPushStep(s));
  }

  lemma SoundTake(s: Sys, tid: nat)
    requires Sound(s) && s.queue != []
    ensures Sound(TakeStep(s, tid)) && Grows(s, TakeStep(s, tid))
  {
    assert PastDraft(s, s.queue[0].id);
    SoundQuiet(s, TakeStep(s, tid));
  }

  lemma SoundIssue(s: Sys, s': Sys, r: Request, no: string)
    requires Sound(s) && r.uuid !in s.ledger && r in s.requests
    requires s' == s.(ledger := s.ledger[r.uuid := no])
    ensures Sound(s') && Grows(s, s')
  {
    hide LanesSound, UuidsDistinct, RequestsSound, JobsSound, ThreadsSound, LedgerSound, Grows;
    SameTables(s, s');
    JobsSoundKept(s, s');
    LedgerSoundKept(s, s', r);
    ThreadsSoundKept(s, s');
  }

  lemma SoundStep(s: Sys, e: Event)
    requires Sound(s) && Legal(s, e)
    ensures Sound(Step(s, e)) && Grows(s, Step(s, e))
  {
    hide AdvanceStep, KillStep, TakeStep, PollPushStep, InsertStep, Sound, Grows, HonestIssuer;
    match e
    case Create(id, uuid, content, hash, now) => SoundInsert(s, NewInvoice(id, uuid, content, hash, now));
    case Call(tid, id, start) => SoundCall(s, tid, id, start);
    case Take(tid) => SoundTake(s, tid);
    case Advance(tid, a) => SoundAdvance(s, tid, s.threads[tid], a);
    case Issue(uuid, no) =>
      var r :| r in s.requests && r.uuid == uuid;
      SoundIssue(s, Step(s, e), r, no);
    case PollQuery(jobs) => SoundQuiet(s, Step(s, e));
    case PollPush => SoundPollPush(s);
    case Kill(tid) => SoundKill(s, tid, s.threads[tid]);
    case DropQueue => SoundQuiet(s, Step(s, e));
  }

  lemma GrowsRefl(s: Sys)
    ensures Grows(s, s)
  {
  }

  lemma GrowsTrans(s: Sys, s': Sys, s'': Sys)
    requires Grows(s, s') && Grows(s', s'')
    ensures Grows(s, s'')
  {
  }

  lemma {:induction false} SoundRun(s: Sys, events: seq<Event>)
    requires Sound(s) && LegalRun(s, events)
    ensures Sound(Run(s, events)) && Grows(s, Run(s, events))
    decreases |events|
  {
    hide Step, Sound, Grows, Legal;
    if events != [] {
      SoundStep(s, events[0]);
      SoundRun(Step(s, events[0]), events[1..]);
      GrowsTrans(s, Step(s, events[0]), Run(s, events));
    } else {
      GrowsRefl(s);
    }
  }

  lemma ReachableSound(s: Sys)
    requires Reachable(s)
    ensures Sound(s)
  {
    var events :| LegalRun(Init(s.cfg), events) && Run(Init(s.cfg), events) == s;
    SoundRun(Init(s.cfg), events);
  }
}
