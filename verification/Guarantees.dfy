/** The promises that every run keeps, whatever interleaves with what. */
module Guarantees {
  import opened Sets
  import opened Domain
  import opened Viettel
  import opened Rows
  import opened Steps
  import opened System
  import opened Interleaving

  // ---------- At most one tax invoice per row ----------

  ghost function UuidsOf(s: Sys, ids: set<InvoiceId>): (uuids: set<string>)
    requires ids <= s.lanes.Keys
    ensures |uuids| <= |ids|
    ensures forall id | id in ids && s.lanes[id].row.transactionUuid.Some? ::
              s.lanes[id].row.transactionUuid.value in uuids
  {
    if ids == {} then {}
    else
      var id :| id in ids;
      var rest := UuidsOf(s, ids - {id});
      if s.lanes[id].row.transactionUuid.Some? then rest + {s.lanes[id].row.transactionUuid.value} else rest
  }

  /** Two create requests name the same transactionUuid exactly when they are for the same invoice;
      the issuer holds numbers for existing invoices only, and at most one for each. */
  lemma AtMostOnceIssuance(s: Sys)
    requires Reachable(s)
    ensures forall r, q | r in s.requests && q in s.requests :: r.id == q.id <==> r.uuid == q.uuid
    ensures forall uuid | uuid in s.ledger ::
              exists id :: id in s.lanes && s.lanes[id].row.transactionUuid == Some(uuid)
    ensures forall i, j | i in s.lanes && j in s.lanes && i != j ::
              s.lanes[i].row.transactionUuid != s.lanes[j].row.transactionUuid
    ensures |s.ledger| <= |s.lanes|
  {
    ReachableSound(s);
    hide Reachable, RowSound, TraceSound, ThreadsSound, JobsSound;
    forall uuid | uuid in s.ledger
      ensures exists id :: id in s.lanes && s.lanes[id].row.transactionUuid == Some(uuid)
    {
      var r :| r in s.requests && r.uuid == uuid;
      assert r.id in s.lanes;
    }
    LedgerBounded(s);
  }

  lemma LedgerBounded(s: Sys)
    requires forall uuid | uuid in s.ledger ::
               exists id :: id in s.lanes && s.lanes[id].row.transactionUuid == Some(uuid)
    ensures |s.ledger| <= |s.lanes|
  {
    var uuids := UuidsOf(s, s.lanes.Keys);
    forall uuid | uuid in s.ledger ensures uuid in uuids {
      var id :| id in s.lanes && s.lanes[id].row.transactionUuid == Some(uuid);
    }
    SubsetSize(s.ledger.Keys, uuids);
  }

  /** The mapper's made-up uuid is never used for an invoice the service created. */
  lemma FallbackUnreachable(s: Sys, tid: nat, fallback: string)
    requires Reachable(s) && tid in s.threads && s.threads[tid].pc.CallCreate?
    ensures s.threads[tid].id in s.lanes
    ensures s.lanes[s.threads[tid].id].row.transactionUuid == Some(ChooseUuid(s.threads[tid].pc.copy, fallback))
  {
    ReachableSound(s);
    hide Reachable;
    assert ThreadSound(s, s.threads[tid]);
  }

  // ---------- What a row says ----------

  /** Every number on a row, and on every copy a thread may still write back, is the issuer's
      number for that row; no row is cancelled; every status trace is a path that starts in draft,
      never returns to it and ends in the row's status. */
  lemma TableAgreesWithLedger(s: Sys, id: InvoiceId)
    requires Reachable(s) && id in s.lanes
    ensures Agrees(s.lanes[id].row, s.ledger) && !Blank(s.lanes[id].row.transactionUuid)
    ensures forall tid | tid in s.threads && s.threads[tid].id == id && CopyOf(s.threads[tid].pc).Some? ::
              var copy := CopyOf(s.threads[tid].pc).value;
              Agrees(copy, s.ledger) && SameBirth(copy, s.lanes[id].row)
    ensures s.lanes[id].row.status != Cancelled && TraceSound(s.lanes[id])
  {
    ReachableSound(s);
    hide Reachable, Agrees, SameBirth;
    forall tid | tid in s.threads && s.threads[tid].id == id && CopyOf(s.threads[tid].pc).Some?
      ensures Agrees(CopyOf(s.threads[tid].pc).value, s.ledger)
              && SameBirth(CopyOf(s.threads[tid].pc).value, s.lanes[id].row)
    {
      assert ThreadSound(s, s.threads[tid]);
    }
  }

  /** Rows stay, keep id, transactionUuid, buyer, amounts and creation time, and never become
      drafts again; two numbers a row shows at different times are the same number; traces, ledger
      and requests only grow. */
  lemma ImmutableData(s: Sys, events: seq<Event>)
    requires Reachable(s) && LegalRun(s, events)
    ensures Grows(s, Run(s, events))
    ensures forall id | id in s.lanes ::
              var before, after := s.lanes[id].row.externalId, Run(s, events).lanes[id].row.externalId;
              before.Some? && after.Some? ==> before == after
  {
    ReachableSound(s);
    SoundRun(s, events);
    var s' := Run(s, events);
    hide Reachable, LegalRun, Run, TraceSound, ThreadsSound, JobsSound, RequestsSound, LedgerSound, UuidsDistinct;
    forall id | id in s.lanes
      ensures s.lanes[id].row.externalId.Some? && s'.lanes[id].row.externalId.Some?
              ==> s.lanes[id].row.externalId == s'.lanes[id].row.externalId
    {
      assert RowSound(s.lanes[id].row, s.ledger) && RowSound(s'.lanes[id].row, s'.ledger);
    }
  }

  /** The row of a creation that is accepted, column by column. */
  lemma Born(s: Sys, e: Event)
    requires e.Create? && Legal(s, e) && e.id !in s.lanes && !UuidTaken(s, e.uuid)
    ensures e.id in Step(s, e).lanes
    ensures var lane := Step(s, e).lanes[e.id];
            && lane.row.id == e.id && lane.row.transactionUuid == Some(e.uuid) && lane.row.status == Draft
            && lane.row.content == e.content && lane.row.transactionHash == e.hash
            && lane.row.createdAt == e.now && lane.row.updatedAt == e.now
            && lane.row.externalId.None? && lane.row.metadata.None? && lane.row.lastError.None?
            && lane.row.submittedAt.None? && lane.row.completedAt.None? && lane.row.retryCount == 0
            && lane.history == [] && lane.audit.trace == []
  {
    hide UuidTaken;
  }

  /** Whatever happens after an invoice was created: its row, and every copy of it that a job works on and makes
      a create request from, has the data it was created with. */
  lemma DataFromCreation(s: Sys, e: Event, events: seq<Event>)
    requires Reachable(s) && e.Create? && Legal(s, e) && e.id !in s.lanes && !UuidTaken(s, e.uuid)
    requires LegalRun(Step(s, e), events)
    ensures var s' := Run(Step(s, e), events);
            && e.id in s'.lanes
            && s'.lanes[e.id].row.content == e.content && s'.lanes[e.id].row.transactionUuid == Some(e.uuid)
            && s'.lanes[e.id].row.createdAt == e.now
            && forall tid | tid in s'.threads && s'.threads[tid].id == e.id && CopyOf(s'.threads[tid].pc).Some? ::
                 var copy := CopyOf(s'.threads[tid].pc).value;
                 copy.id == e.id && copy.content == e.content && copy.transactionUuid == Some(e.uuid)
  {
    ReachableSound(s);
    SoundStep(s, e);
    SoundRun(Step(s, e), events);
    Born(s, e);
    hide Reachable, LegalRun, Run, Step, Legal, UuidTaken, TraceSound, LanesSound, JobsSound, RequestsSound,
         LedgerSound, UuidsDistinct;
    var s' := Run(Step(s, e), events);
    assert SameBirth(Step(s, e).lanes[e.id].row, s'.lanes[e.id].row);
    forall tid | tid in s'.threads && s'.threads[tid].id == e.id && CopyOf(s'.threads[tid].pc).Some?
      ensures SameBirth(CopyOf(s'.threads[tid].pc).value, s'.lanes[e.id].row)
    {
      assert ThreadSound(s', s'.threads[tid]);
    }
  }

  // ---------- The transaction hash ----------

  /** A hash update that checked for draft comes to write another hash after the row has left draft. */
  predicate LateHash(s: Sys, e: Event) {
    && e.Advance? && e.tid in s.threads && s.threads[e.tid].pc.HashWrite? && s.threads[e.tid].id in s.lanes
    && var row := s.lanes[s.threads[e.tid].id].row;
       row.status != Draft && e.a.stored && s.threads[e.tid].pc.hash != row.transactionHash
  }

  predicate NoLateHash(s: Sys, events: seq<Event>)
    decreases |events|
  {
    events == [] || (!LateHash(s, events[0]) && NoLateHash(Step(s, events[0]), events[1..]))
  }

  /** At every step of the run, invoices past draft keep their hashes. */
  predicate HashesFrozen(s: Sys, events: seq<Event>)
    decreases |events|
  {
    events == [] || (SameHash(s, Step(s, events[0])) && HashesFrozen(Step(s, events[0]), events[1..]))
  }

  predicate CopiesHash(s: Sys) {
    forall tid | tid in s.threads && CopyOf(s.threads[tid].pc).Some? && s.threads[tid].id in s.lanes ::
      CopyOf(s.threads[tid].pc).value.transactionHash == s.lanes[s.threads[tid].id].row.transactionHash
  }

  predicate SameHash(s: Sys, s': Sys) {
    forall id | id in s.lanes && s.lanes[id].row.status != Draft ::
      id in s'.lanes && s'.lanes[id].row.transactionHash == s.lanes[id].row.transactionHash
  }

  lemma HashStepKept(maxRetries: int, row: Invoice, pc: Pc, a: Answer)
    requires CopyOf(pc).Some? ==> CopyOf(pc).value.transactionHash == row.transactionHash
    ensures var out := ThreadStep(maxRetries, row, pc, a);
            && (CopyOf(out.pc).Some? ==> CopyOf(out.pc).value.transactionHash == out.row.transactionHash)
            && (!pc.HashWrite? ==> out.row.transactionHash == row.transactionHash)
            && (pc.HashWrite? ==> out.row.transactionHash == if a.stored then pc.hash else row.transactionHash)
            && (pc.HashWrite? ==> out.pc == Done)
  {
    hide CreateOutcome, QueryOutcome;
  }

  lemma HashAdvance(s: Sys, s': Sys, tid: nat, t: Thread, lane: Lane, out: Out, a: Answer)
    requires ThreadsSound(s) && CopiesHash(s) && tid in s.threads && s.threads[tid] == t && t.id in s.lanes
    requires Shape(s, s', tid, t, lane, out, a) && lane.row == out.row
    requires CopyOf(out.pc).Some? ==> CopyOf(out.pc).value.transactionHash == out.row.transactionHash
    requires s.lanes[t.id].row.status == Draft || out.row.transactionHash == s.lanes[t.id].row.transactionHash
    requires out.pc != Done ==> out.row.transactionHash == s.lanes[t.id].row.transactionHash
    ensures CopiesHash(s') && SameHash(s, s')
  {
    hide CopyOf, Register;
    forall p | p in s'.threads && CopyOf(s'.threads[p].pc).Some? && s'.threads[p].id in s'.lanes
      ensures CopyOf(s'.threads[p].pc).value.transactionHash == s'.lanes[s'.threads[p].id].row.transactionHash
    {
      if p != tid {
        assert s'.threads[p] == s.threads[p];
        CopiesNoDraft(s, p);
      }
    }
  }

  /** A thread with a copy works on an invoice past draft. */
  lemma CopiesNoDraft(s: Sys, p: nat)
    requires ThreadsSound(s) && p in s.threads && CopyOf(s.threads[p].pc).Some?
    ensures s.threads[p].id in s.lanes && s.lanes[s.threads[p].id].row.status != Draft
  {
    hide Agrees, SameBirth;
    assert ThreadSound(s, s.threads[p]);
  }

  lemma HashStep(s: Sys, e: Event)
    requires Sound(s) && CopiesHash(s) && Legal(s, e) && !LateHash(s, e)
    ensures CopiesHash(Step(s, e)) && SameHash(s, Step(s, e))
  {
    if e.Advance? && s.threads[e.tid].id in s.lanes {
      var t := s.threads[e.tid];
      var row := s.lanes[t.id].row;
      assert CopyOf(t.pc).Some? ==> CopyOf(t.pc).value.transactionHash == row.transactionHash;
      HashStepKept(s.cfg.maxRetries, row, t.pc, e.a);
      AdvanceShape(s, e.tid, t, e.a);
      hide ThreadStep, AdvanceStep, LaneStep, Shape, Legal, CopiesHash, SameHash, ThreadsSound;
      HashAdvance(s, Step(s, e), e.tid, t, LaneStep(s.cfg.maxRetries, s.lanes[t.id], t.pc, e.a),
                  ThreadStep(s.cfg.maxRetries, row, t.pc, e.a), e.a);
    } else {
      HashElsewhere(s, e);
    }
  }

  lemma LateHashChanges(s: Sys, e: Event)
    requires LateHash(s, e)
    ensures !SameHash(s, Step(s, e))
  {
    var t := s.threads[e.tid];
    HashStepKept(s.cfg.maxRetries, s.lanes[t.id].row, t.pc, e.a);
    AdvanceShape(s, e.tid, t, e.a);
    hide ThreadStep, AdvanceStep;
    assert Step(s, e).lanes[t.id].row.transactionHash != s.lanes[t.id].row.transactionHash;
  }

  lemma HashElsewhere(s: Sys, e: Event)
    requires ThreadsSound(s) && CopiesHash(s) && Elsewhere(s, e)
    ensures CopiesHash(Step(s, e)) && SameHash(s, Step(s, e))
  {
    hide Step, Elsewhere, Legal;
    var s' := Step(s, e);
    RowsElsewhere(s, e);
    ThreadsElsewhere(s, e);
    forall p | p in s'.threads && CopyOf(s'.threads[p].pc).Some? && s'.threads[p].id in s'.lanes
      ensures CopyOf(s'.threads[p].pc).value.transactionHash == s'.lanes[s'.threads[p].id].row.transactionHash
    {
      assert ThreadSound(s, s.threads[p]);
    }
  }

  lemma {:induction false} HashRun(s: Sys, events: seq<Event>)
    requires Sound(s) && CopiesHash(s) && LegalRun(s, events)
    ensures NoLateHash(s, events) <==> HashesFrozen(s, events)
    ensures NoLateHash(s, events) ==> SameHash(s, Run(s, events))
    decreases |events|
  {
    hide Step, Legal, Sound, CopiesHash, LateHash, Grows, SameHash;
    if events == [] {
      SameHashRefl(s);
    } else if LateHash(s, events[0]) {
      LateHashChanges(s, events[0]);
    } else {
      SoundStep(s, events[0]);
      HashStep(s, events[0]);
      HashRun(Step(s, events[0]), events[1..]);
      if NoLateHash(s, events) {
        SameHashTrans(s, Step(s, events[0]), Run(s, events));
      }
    }
  }

  lemma SameHashRefl(s: Sys)
    ensures SameHash(s, s)
  {
  }

  lemma SameHashTrans(s: Sys, s': Sys, s'': Sys)
    requires Grows(s, s') && SameHash(s, s') && SameHash(s', s'')
    ensures SameHash(s, s'')
  {
  }

  /** Exactly when every invoice past draft keeps its hash throughout a run, although jobs keep writing
      whole rows back from old copies: when no hash update writes late. */
  lemma TransactionHashFrozen(cfg: Config, events: seq<Event>)
    requires LegalRun(Init(cfg), events)
    ensures NoLateHash(Init(cfg), events) <==> HashesFrozen(Init(cfg), events)
  {
    HashRun(Init(cfg), events);
  }

  // ---------- Why an invoice fails ----------

  /** A create attempt that failed with the error: refused by the validator, or by the issuer's answer. */
  predicate AttemptFailed(a: Answer, error: AppError) {
    if a.valid then CreateOutcome(a.reply) == Err(error) else error == INVALID_REQUEST
  }

  predicate Retried(error: AppError) {
    error.viettel.Some? ==> error.viettel.value.retryable
  }

  /** What the answers a thread has consumed, and the row it read first, say about where it stands. */
  predicate Explained(t: Thread) {
    var n := |t.log|;
    match t.pc
    case PublishRead => n == 0
    case MarkProcessing(copy) => n > 0 && t.seen == Some(copy)
    case LoadItems(copy) => n > 0 && t.seen == Some(copy)
    case CallCreate(copy) => n > 0 && t.seen == Some(copy)
    case MarkUnloadable => n > 0 && !t.log[n - 1].stored
    case MarkRejected(v) =>
      && n > 0 && t.log[n - 1].valid && t.log[n - 1].reply.Http? && t.log[n - 1].reply.status == 400
      && v == ParseViettelError(t.log[n - 1].reply.body) && !v.retryable
    case SaveRetry(copy, error) =>
      && n > 0 && AttemptFailed(t.log[n - 1], error) && Retried(error)
      && t.seen.Some? && copy.retryCount == t.seen.value.retryCount + 1
    case MarkAfterRetry(count, error) =>
      && n > 1 && AttemptFailed(t.log[n - 2], error) && Retried(error)
      && t.seen.Some? && count == t.seen.value.retryCount + 1
    case _ => true
  }

  lemma ExplainedCreate(row: Invoice, t: Thread, a: Answer)
    requires t.pc.CallCreate? && Explained(t)
    ensures Explained(Moved(t, row, a, CreateStep(row, t.pc.copy, a).pc))
  {
    hide ParseViettelError;
  }

  lemma PublishPath(maxRetries: int, row: Invoice, pc: Pc, a: Answer)
    requires !pc.CallCreate? && !pc.SaveRetry?
    ensures var next := ThreadStep(maxRetries, row, pc, a).pc;
            && !next.PublishRead? && !next.MarkRejected? && !next.SaveRetry? && !next.MarkAfterRetry?
            && (next.MarkProcessing? ==> pc.PublishRead? && next.copy == row)
            && (next.LoadItems? ==>
                  (pc.PublishRead? && next.copy == row) || (pc.MarkProcessing? && next.copy == pc.copy))
            && (next.CallCreate? ==> pc.LoadItems? && next.copy == pc.copy)
            && (next.MarkUnloadable? ==> pc.LoadItems? && !a.stored)
  {
    hide QueryOutcome, CanTransitionTo, Blank;
  }

  lemma ExplainedStep(maxRetries: int, row: Invoice, t: Thread, a: Answer)
    requires Explained(t)
    ensures Explained(Moved(t, row, a, ThreadStep(maxRetries, row, t.pc, a).pc))
  {
    hide CreateStep, AttemptFailed, Retried;
    if t.pc.CallCreate? {
      ExplainedCreate(row, t, a);
    } else if t.pc.SaveRetry? {
      ExplainedRetry(maxRetries, row, t, a);
    } else {
      PublishPath(maxRetries, row, t.pc, a);
      hide ThreadStep;
    }
  }

  lemma ExplainedRetry(maxRetries: int, row: Invoice, t: Thread, a: Answer)
    requires t.pc.SaveRetry? && Explained(t)
    ensures Explained(Moved(t, row, a, ThreadStep(maxRetries, row, t.pc, a).pc))
  {
    hide ParseViettelError, AttemptFailed, Retried;
    assert (t.log + [a])[|t.log| - 1] == t.log[|t.log| - 1];
  }

  predicate AllExplained(s: Sys) {
    forall tid | tid in s.threads :: Explained(s.threads[tid])
  }

  lemma AllExplainedStep(s: Sys, e: Event)
    requires AllExplained(s) && Legal(s, e)
    ensures AllExplained(Step(s, e))
  {
    if e.Advance? && s.threads[e.tid].id in s.lanes {
      var t := s.threads[e.tid];
      ExplainedStep(s.cfg.maxRetries, s.lanes[t.id].row, t, e.a);
      AdvanceShape(s, e.tid, t, e.a);
      hide ThreadStep, LaneStep, AdvanceStep, Explained, Legal;
    } else {
      hide ThreadStep, LaneStep;
    }
  }

  lemma {:induction false} AllExplainedRun(s: Sys, events: seq<Event>)
    requires AllExplained(s) && LegalRun(s, events)
    ensures AllExplained(Run(s, events))
    decreases |events|
  {
    hide Step, Legal, AllExplained;
    if events != [] {
      AllExplainedStep(s, events[0]);
      AllExplainedRun(Step(s, events[0]), events[1..]);
    }
  }

  lemma FailureSources(maxRetries: int, row: Invoice, pc: Pc, a: Answer)
    requires ThreadStep(maxRetries, row, pc, a).wrote == Some(Failed)
    ensures pc.MarkUnloadable? || pc.MarkRejected? || (pc.MarkAfterRetry? && pc.count >= maxRetries)
  {
  }

  /** Every status write of `failed` comes from a thread whose items could not be loaded, whose create
      request got a final answer, or whose create attempt failed otherwise with a retry count that,
      one more than in the row it had read, has reached the limit. */
  lemma FailureProvenance(s: Sys, tid: nat, a: Answer)
    requires Reachable(s) && tid in s.threads && s.threads[tid].id in s.lanes
    requires ThreadStep(s.cfg.maxRetries, s.lanes[s.threads[tid].id].row, s.threads[tid].pc, a).wrote == Some(Failed)
    ensures var t, n := s.threads[tid], |s.threads[tid].log|;
            || (t.pc.MarkUnloadable? && n > 0 && !t.log[n - 1].stored)
            || (t.pc.MarkRejected? && n > 0 && t.log[n - 1].valid && FinalAnswer(t.log[n - 1].reply))
            || (t.pc.MarkAfterRetry? && n > 1 && AttemptFailed(t.log[n - 2], t.pc.error) && Retried(t.pc.error)
                && t.seen.Some? && t.seen.value.retryCount + 1 >= s.cfg.maxRetries)
  {
    var events :| LegalRun(Init(s.cfg), events) && Run(Init(s.cfg), events) == s;
    AllExplainedRun(Init(s.cfg), events);
    hide LegalRun, Run, Reachable;
    var t := s.threads[tid];
    assert Explained(t);
    FailureSources(s.cfg.maxRetries, s.lanes[t.id].row, t.pc, a);
    hide ThreadStep, AttemptFailed, Retried;
    if t.pc.MarkRejected? {
      FinalErrors(t.log[|t.log| - 1].reply.body);
    }
  }

  /** The attempts counted as failed on the retry path are exactly the create attempts that the validator
      refuses and those whose answer is an error but not a final one. */
  lemma RetryPath(maxRetries: int, lane: Lane, pc: Pc, a: Answer)
    ensures LaneStep(maxRetries, lane, pc, a).audit.failures
            == lane.audit.failures
               + One(pc.CallCreate? && (!a.valid || (CreateOutcome(a.reply).Err? && !FinalAnswer(a.reply))))
  {
    FinalRejections(a.reply);
    hide CreateOutcome, QueryOutcome, FinalAnswer, CanTransitionTo;
  }

  // ---------- The queue ----------

  predicate JobThread(s: Sys, tid: nat) {
    tid in s.threads && IsJobStart(s.threads[tid].start)
  }

  function InFlight(s: Sys): set<nat> {
    set tid | tid in s.threads && JobThread(s, tid)
  }

  /** Jobs leave in the order they came in; none is lost track of; the queue never overflows. */
  predicate Conserved(s: Sys) {
    && s.accepted == s.removed + s.queue
    && |s.queue| <= s.cfg.queueSize
    && |s.removed| == s.finished + s.lost + |InFlight(s)|
  }

  lemma ConservedAdvance(s: Sys, tid: nat, t: Thread, a: Answer)
    requires Conserved(s) && tid in s.threads && s.threads[tid] == t
    ensures Conserved(AdvanceStep(s, tid, t, a))
  {
    AdvanceQueue(s, tid, t, a);
    hide AdvanceStep;
    var s' := AdvanceStep(s, tid, t, a);
    if tid in s'.threads {
      assert InFlight(s') == InFlight(s);
    } else {
      assert InFlight(s') == InFlight(s) - {tid};
    }
  }

  lemma AdvanceQueue(s: Sys, tid: nat, t: Thread, a: Answer)
    requires s.accepted == s.removed + s.queue && |s.queue| <= s.cfg.queueSize
    ensures var s' := AdvanceStep(s, tid, t, a);
            && s'.accepted == s'.removed + s'.queue && |s'.queue| <= s'.cfg.queueSize && s'.removed == s.removed
            && s'.lost == s.lost
            && (if tid in s'.threads
                then s'.threads[tid].start == t.start && s'.threads == s.threads[tid := s'.threads[tid]]
                      && s'.finished == s.finished
                else s'.threads == s.threads - {tid} && s'.finished == s.finished + One(IsJobStart(t.start)))
  {
    hide ThreadStep, LaneStep, Register;
  }

  lemma ConservedTake(s: Sys, tid: nat)
    requires Conserved(s) && tid !in s.threads && s.queue != []
    ensures Conserved(TakeStep(s, tid))
  {
    assert InFlight(TakeStep(s, tid)) == InFlight(s) + {tid};
  }

  lemma ConservedKill(s: Sys, tid: nat, t: Thread)
    requires Conserved(s) && tid in s.threads && s.threads[tid] == t
    ensures Conserved(KillStep(s, tid, t))
  {
    hide LaneKill;
    assert InFlight(KillStep(s, tid, t)) == InFlight(s) - {tid};
  }

  lemma ConservedElsewhere(s: Sys, e: Event)
    requires Conserved(s) && Legal(s, e) && !e.Advance? && !e.Take? && !e.Kill?
    ensures Conserved(Step(s, e))
  {
    hide HonestIssuer, AdvanceStep, KillStep, TakeStep, NewInvoice, UuidTaken, InFlight;
    var s' := Step(s, e);
    assert forall tid | tid in s.threads :: tid in s'.threads && s'.threads[tid] == s.threads[tid];
    assert forall tid | tid in s'.threads && tid !in s.threads :: !IsJobStart(s'.threads[tid].start);
    assert |s'.removed| - s'.lost == |s.removed| - s.lost && s'.finished == s.finished;
    assert s'.accepted == s'.removed + s'.queue && |s'.queue| <= s'.cfg.queueSize;
    hide Step, Legal;
    SameInFlight(s, s');
  }

  lemma SameInFlight(s: Sys, s': Sys)
    requires forall tid | tid in s.threads :: tid in s'.threads && s'.threads[tid] == s.threads[tid]
    requires forall tid | tid in s'.threads && tid !in s.threads :: !IsJobStart(s'.threads[tid].start)
    ensures InFlight(s') == InFlight(s)
  {
  }

  lemma ConservedStep(s: Sys, e: Event)
    requires Conserved(s) && Legal(s, e)
    ensures Conserved(Step(s, e))
  {
    hide Conserved, AdvanceStep, TakeStep, KillStep, InsertStep, HonestIssuer;
    match e
    case Advance(tid, a) => ConservedAdvance(s, tid, s.threads[tid], a);
    case Take(tid) => ConservedTake(s, tid);
    case Kill(tid) => ConservedKill(s, tid, s.threads[tid]);
    case _ => ConservedElsewhere(s, e);
  }

  lemma {:induction false} ConservedRun(s: Sys, events: seq<Event>)
    requires Conserved(s) && LegalRun(s, events)
    ensures Conserved(Run(s, events))
    decreases |events|
  {
    hide Step, Legal, Conserved;
    if events != [] {
      ConservedStep(s, events[0]);
      ConservedRun(Step(s, events[0]), events[1..]);
    }
  }

  /** In every run: first in, first out; accepted = finished + lost + in flight + queued; capacity is
      respected; and every queued job is for an existing invoice past draft. */
  lemma QueueConservation(s: Sys)
    requires Reachable(s)
    ensures s.removed <= s.accepted && s.queue == s.accepted[|s.removed|..] && |s.queue| <= s.cfg.queueSize
    ensures |s.accepted| == s.finished + s.lost + |InFlight(s)| + |s.queue|
    ensures forall k | 0 <= k < |s.queue| :: PastDraft(s, s.queue[k].id)
  {
    ReachableSound(s);
    var events :| LegalRun(Init(s.cfg), events) && Run(Init(s.cfg), events) == s;
    assert InFlight(Init(s.cfg)) == {};
    ConservedRun(Init(s.cfg), events);
  }
}
