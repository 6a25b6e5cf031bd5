/** Runs of the whole service in which the threads on one given invoice do not overlap. Nothing is
    asked of the other invoices, of failing statements or of threads being cut off. */
module Serial {
  import opened Domain
  import opened Viettel
  import opened Rows
  import opened Steps
  import opened System
  import opened Interleaving
  import opened Solo
  import opened Endings

  predicate SerialOn(s: Sys, id: InvoiceId) {
    forall p, q | p in s.threads && q in s.threads && s.threads[p].id == id && s.threads[q].id == id :: p == q
  }

  ghost predicate SerialRun(s: Sys, events: seq<Event>, id: InvoiceId)
    decreases |events|
  {
    SerialOn(s, id) && (events == [] || SerialRun(Step(s, events[0]), events[1..], id))
  }

  /** A state some run reaches without ever having two threads on the invoice at once. */
  ghost predicate ReachableSerially(s: Sys, id: InvoiceId) {
    exists events :: LegalRun(Init(s.cfg), events) && SerialRun(Init(s.cfg), events, id)
                    && Run(Init(s.cfg), events) == s
  }

  predicate SoloOn(s: Sys, id: InvoiceId) {
    id in s.lanes ==>
      && (forall tid | tid in s.threads && s.threads[tid].id == id ::
            SoloAt(s.cfg.maxRetries, s.lanes[id], s.threads[tid].pc))
      && (Idle(s, id) ==> SoloAt(s.cfg.maxRetries, s.lanes[id], Done))
  }

  lemma SoloAdvance(s: Sys, tid: nat, t: Thread, a: Answer, id: InvoiceId)
    requires Sound(s) && SoloOn(s, id) && SerialOn(s, id)
    requires tid in s.threads && s.threads[tid] == t && t.id in s.lanes
    ensures SoloOn(AdvanceStep(s, tid, t, a), id)
  {
    var s' := AdvanceStep(s, tid, t, a);
    var lane := s.lanes[t.id];
    AdvanceShape(s, tid, t, a);
    assert RowSound(lane.row, s.ledger);
    if t.id == id {
      SoloStep(s.cfg.maxRetries, lane, t.pc, a);
      hide AdvanceStep, ThreadStep, LaneStep, RowSound, Sound, Shape, SoloAt;
      SoloFromShape(s, s', tid, t, LaneStep(s.cfg.maxRetries, lane, t.pc, a),
                    ThreadStep(s.cfg.maxRetries, lane.row, t.pc, a), a);
    } else {
      hide AdvanceStep, SoloAt, ThreadStep, LaneStep, RowSound, Sound;
      SameThreads(s, s', id, tid);
    }
  }

  lemma SoloFromShape(s: Sys, s': Sys, tid: nat, t: Thread, lane: Lane, out: Out, a: Answer)
    requires SerialOn(s, t.id) && tid in s.threads && s.threads[tid] == t && t.id in s.lanes
    requires Shape(s, s', tid, t, lane, out, a) && SoloAt(s.cfg.maxRetries, lane, out.pc)
    ensures SoloOn(s', t.id)
  {
    hide SoloAt, Register;
    assert s'.lanes[t.id] == lane;
    assert forall p | p in s'.threads && p != tid :: p in s.threads && s'.threads[p] == s.threads[p];
    if out.pc != Done {
      assert s'.threads[tid].id == t.id;
    }
  }

  /** Only a thread on another invoice moves. */
  lemma SameThreads(s: Sys, s': Sys, id: InvoiceId, tid: nat)
    requires SoloOn(s, id) && s'.cfg == s.cfg && (id in s'.lanes ==> id in s.lanes && s'.lanes[id] == s.lanes[id])
    requires tid in s.threads ==> s.threads[tid].id != id
    requires tid in s'.threads ==> s'.threads[tid].id != id
    requires forall p | p != tid :: p in s.threads <==> p in s'.threads
    requires forall p | p != tid && p in s.threads :: s'.threads[p] == s.threads[p]
    ensures SoloOn(s', id)
  {
    hide SoloAt;
    if Idle(s', id) {
      assert Idle(s, id);
    }
  }

  lemma SoloKillOn(s: Sys, tid: nat, t: Thread, id: InvoiceId)
    requires SoloOn(s, id) && SerialOn(s, id) && tid in s.threads && s.threads[tid] == t
    ensures SoloOn(KillStep(s, tid, t), id)
  {
    var s' := KillStep(s, tid, t);
    if t.id == id {
      if id in s.lanes {
        SoloKill(s.cfg.maxRetries, s.lanes[id], t.pc);
        hide SoloAt, LaneKill;
      }
    } else {
      hide SoloAt, LaneKill;
      SameThreads(s, s', id, tid);
    }
  }

  /** A thread starts; on the invoice itself it is then the only one. */
  lemma SoloBegin(s: Sys, s': Sys, tid: nat, start: Pc, id: InvoiceId)
    requires SoloOn(s, id) && SerialOn(s', id) && tid !in s.threads && tid in s'.threads
    requires s'.cfg == s.cfg && s'.lanes == s.lanes
    requires s'.threads == s.threads[tid := s'.threads[tid]] && s'.threads[tid].pc == start
    requires start.SubmitRead? || start.HashRead? || (IsJobStart(start) && PastDraft(s, s'.threads[tid].id))
    ensures SoloOn(s', id)
  {
    if s'.threads[tid].id == id {
      assert Idle(s, id) by {
        forall p | p in s.threads ensures s.threads[p].id != id {
          assert s'.threads[p] == s.threads[p];
        }
      }
      if id in s.lanes {
        SoloStart(s.cfg.maxRetries, s.lanes[id], start);
      }
      hide SoloAt;
    } else {
      hide SoloAt;
      SameThreads(s, s', id, tid);
    }
  }

  lemma SoloInsert(s: Sys, row: Invoice, id: InvoiceId)
    requires Sound(s) && SoloOn(s, id) && row.status == Draft && row.externalId.None? && row.retryCount == 0
    requires row.transactionUuid.Some?
    ensures SoloOn(InsertStep(s, row), id)
  {
    var s' := InsertStep(s, row);
    if id in s'.lanes && id !in s.lanes {
      SoloBirth(s.cfg.maxRetries, row);
      forall tid | tid in s'.threads && s'.threads[tid].id == id
        ensures SoloAt(s'.cfg.maxRetries, s'.lanes[id], s'.threads[tid].pc)
      {
        assert ThreadSound(s, s.threads[tid]);
        SoloStart(s.cfg.maxRetries, s'.lanes[id], s'.threads[tid].pc);
      }
    }
  }

  lemma SoloStepOn(s: Sys, e: Event, id: InvoiceId)
    requires Sound(s) && SoloOn(s, id) && Legal(s, e) && SerialOn(s, id) && SerialOn(Step(s, e), id)
    ensures SoloOn(Step(s, e), id)
  {
    hide AdvanceStep, KillStep, InsertStep, TakeStep, PollPushStep, SoloOn, SerialOn, Sound, HonestIssuer;
    match e
    case Create(i, uuid, content, hash, now) => SoloInsert(s, NewInvoice(i, uuid, content, hash, now), id);
    case Call(tid, i, start) => SoloCall(s, tid, i, start, id);
    case Take(tid) => SoloTake(s, tid, id);
    case Advance(tid, a) =>
      if s.threads[tid].id in s.lanes {
        SoloAdvance(s, tid, s.threads[tid], a, id);
      } else {
        SoloGone(s, tid, s.threads[tid], a, id);
      }
    case Kill(tid) => SoloKillOn(s, tid, s.threads[tid], id);
    case PollPush =>
      PushKeepsTables(s);
      SoloQuiet(s, Step(s, e), id);
    case _ => SoloQuiet(s, Step(s, e), id);
  }

  lemma SoloCall(s: Sys, tid: nat, i: InvoiceId, start: Pc, id: InvoiceId)
    requires SoloOn(s, id) && tid !in s.threads && (start.SubmitRead? || start.HashRead?)
    requires SerialOn(Step(s, Call(tid, i, start)), id)
    ensures SoloOn(Step(s, Call(tid, i, start)), id)
  {
    hide SoloOn, SerialOn;
    SoloBegin(s, Step(s, Call(tid, i, start)), tid, start, id);
  }

  lemma SoloTake(s: Sys, tid: nat, id: InvoiceId)
    requires Sound(s) && SoloOn(s, id) && tid !in s.threads && s.queue != [] && SerialOn(TakeStep(s, tid), id)
    ensures SoloOn(TakeStep(s, tid), id)
  {
    hide SoloOn, SerialOn, LanesSound, UuidsDistinct, ThreadsSound, RequestsSound, LedgerSound;
    assert PastDraft(s, s.queue[0].id);
    hide PastDraft;
    SoloBegin(s, TakeStep(s, tid), tid, StartOf(s.queue[0]), id);
  }

  lemma PushKeepsTables(s: Sys)
    requires s.backlog != []
    ensures var s' := PollPushStep(s); s'.cfg == s.cfg && s'.lanes == s.lanes && s'.threads == s.threads
  {
  }

  lemma SoloQuiet(s: Sys, s': Sys, id: InvoiceId)
    requires SoloOn(s, id) && s'.cfg == s.cfg && s'.lanes == s.lanes && s'.threads == s.threads
    ensures SoloOn(s', id)
  {
    hide SoloAt;
  }

  lemma SoloGone(s: Sys, tid: nat, t: Thread, a: Answer, id: InvoiceId)
    requires SoloOn(s, id) && tid in s.threads && s.threads[tid] == t && t.id !in s.lanes
    ensures SoloOn(AdvanceStep(s, tid, t, a), id)
  {
    hide SoloAt;
    var s' := AdvanceStep(s, tid, t, a);
    if t.id != id {
      SameThreads(s, s', id, tid);
    }
  }

  lemma {:induction false} SoloRun(s: Sys, events: seq<Event>, id: InvoiceId)
    requires Sound(s) && SoloOn(s, id) && LegalRun(s, events) && SerialRun(s, events, id)
    ensures Sound(Run(s, events)) && SoloOn(Run(s, events), id) && SerialOn(Run(s, events), id)
    decreases |events|
  {
    hide Step, Legal, Sound, SoloOn, SerialOn, Grows;
    if events != [] {
      SoloStepOn(s, events[0], id);
      SoundStep(s, events[0]);
      SoloRun(Step(s, events[0]), events[1..], id);
    }
  }

  lemma ReachableSolo(s: Sys, id: InvoiceId)
    requires ReachableSerially(s, id)
    ensures Sound(s) && SoloOn(s, id) && SerialOn(s, id)
  {
    var events :| LegalRun(Init(s.cfg), events) && SerialRun(Init(s.cfg), events, id) && Run(Init(s.cfg), events) == s;
    SoloRun(Init(s.cfg), events, id);
  }

  /** The program point of the invoice's thread, `Done` when none is on it. */
  ghost function PcOn(s: Sys, id: InvoiceId): (pc: Pc)
    ensures id in s.lanes && SoloOn(s, id) ==> SoloAt(s.cfg.maxRetries, s.lanes[id], pc)
    ensures pc == Done || exists tid :: tid in s.threads && s.threads[tid].id == id && s.threads[tid].pc == pc
  {
    hide SoloAt;
    if tid: nat :| tid in s.threads && s.threads[tid].id == id then s.threads[tid].pc else Done
  }

  // ---------- The promises ----------

  lemma SoloNow(s: Sys, id: InvoiceId)
    requires ReachableSerially(s, id) && id in s.lanes
    ensures SoloAt(s.cfg.maxRetries, s.lanes[id], PcOn(s, id)) && RowSound(s.lanes[id].row, s.ledger)
  {
    ReachableSolo(s, id);
    hide ReachableSerially, SoloAt, RowSound;
  }

  /** Every status change is one of the nine that `Happens` lists. */
  lemma StatusChanges(s: Sys, id: InvoiceId)
    requires ReachableSerially(s, id) && id in s.lanes
    ensures forall k | 0 <= k < |s.lanes[id].audit.trace| :: Happens(s.lanes[id].audit.trace[k])
  {
    SoloNow(s, id);
    hide ReachableSerially, Happens, HistoryAt, RetriesAt, NumberAt, StatusAt;
  }

  /** What the history shows: submits and completions by publish only, in the true order, and of those
      exactly the ones whose line was stored. It is the full trace exactly when there were no other
      changes, no line was lost and none is still to be written. */
  lemma HistoryShows(s: Sys, id: InvoiceId)
    requires ReachableSerially(s, id) && id in s.lanes
    ensures var lane := s.lanes[id];
            var missing := lane.audit.lostNotes + One(IsNote(PcOn(s, id)));
            && (forall k | 0 <= k < |lane.history| ::
                  Recordable(lane.history[k]) && CanTransitionTo(lane.history[k].from, lane.history[k].to))
            && Subsequence(lane.history, lane.audit.trace)
            && Subsequence(lane.audit.announced, lane.audit.trace)
            && |lane.audit.announced| == |lane.history| + missing
            && (lane.history == lane.audit.announced <==> missing == 0)
            && (lane.history == lane.audit.trace <==> lane.audit.announced == lane.audit.trace && missing == 0)
  {
    SoloNow(s, id);
    var lane, pc := s.lanes[id], PcOn(s, id);
    hide ReachableSerially, Happens, RetriesAt, NumberAt;
    HistoryShown(lane, pc, s.cfg.maxRetries);
  }

  lemma HistoryShown(lane: Lane, pc: Pc, maxRetries: int)
    requires StatusAt(lane.row.status, pc) && HistoryAt(lane, pc)
    ensures forall k | 0 <= k < |lane.history| ::
              Recordable(lane.history[k]) && CanTransitionTo(lane.history[k].from, lane.history[k].to)
    ensures Subsequence(lane.history, lane.audit.trace) && Subsequence(lane.audit.announced, lane.audit.trace)
    ensures |lane.audit.announced| == |lane.history| + lane.audit.lostNotes + One(IsNote(pc))
    ensures lane.history == lane.audit.announced <==> lane.audit.lostNotes + One(IsNote(pc)) == 0
    ensures lane.history == lane.audit.trace
            <==> lane.audit.announced == lane.audit.trace && lane.audit.lostNotes + One(IsNote(pc)) == 0
  {
    var history, announced, trace := lane.history, lane.audit.announced, lane.audit.trace;
    assert IsNote(pc) <==> Unrecorded(pc).Some?;
    SubsequenceTrans(history, announced, trace);
    SubsequenceLength(announced, trace);
    SubsequenceLength(history, announced);
    hide Subsequence, StatusAt, Unrecorded, IsNote;
    forall k | 0 <= k < |history| ensures Recordable(history[k]) && CanTransitionTo(history[k].from, history[k].to) {
      RecordableIsListed(history[k]);
    }
    hide Recordable, CanTransitionTo;
  }

  /** RetryCount is exactly the number of attempts that failed on the retry path, less those whose
      count was not stored and the one being stored; and it stays within the cap, one below it
      while the invoice waits to be published or is being published. */
  lemma RetryCounter(s: Sys, id: InvoiceId)
    requires ReachableSerially(s, id) && id in s.lanes
    ensures var lane, pc := s.lanes[id], PcOn(s, id);
            && lane.row.retryCount == lane.audit.failures - lane.audit.lostRetries - One(pc.SaveRetry?)
            && lane.row.retryCount <= Slack(s.cfg.maxRetries) + lane.audit.submits + lane.audit.lostOutcomes
            && (Pending(lane.row) && !pc.MarkAfterRetry? ==>
                  lane.row.retryCount < Slack(s.cfg.maxRetries) + lane.audit.submits + lane.audit.lostOutcomes)
  {
    ReachableSolo(s, id);
    hide ReachableSerially, Sound, Happens, Subsequence, CanTransitionTo;
    assert SoloAt(s.cfg.maxRetries, s.lanes[id], PcOn(s, id));
  }

  /** An invoice has a number exactly if some write of one was stored, and it is the issuer's number for
      it. A completed invoice has its completion time, and misses the number only if a poll's write of
      it was lost: the publish path, wherever it is cut off, never completes without. */
  lemma CompletedHasNumber(s: Sys, id: InvoiceId)
    requires ReachableSerially(s, id) && id in s.lanes
    ensures var row, audit := s.lanes[id].row, s.lanes[id].audit;
            && (!Blank(row.externalId) <==> audit.numbers > 0)
            && (!Blank(row.externalId) ==>
                  && row.transactionUuid.Some? && row.transactionUuid.value in s.ledger
                  && row.externalId.value == s.ledger[row.transactionUuid.value])
            && (row.status == Completed ==> row.completedAt.Some? && (audit.numbers == 0 ==> audit.lostConfirms > 0))
  {
    SoloNow(s, id);
    hide ReachableSerially, Happens, HistoryAt, RetriesAt, StatusAt;
  }

  // ---------- What completion and a number make final ----------

  predicate Settled(s: Sys, s': Sys, id: InvoiceId) {
    id in s.lanes ==>
      && id in s'.lanes
      && (s.lanes[id].row.status == Completed ==> s'.lanes[id].row.status == Completed)
      && (s.lanes[id].row.externalId.Some? ==> s'.lanes[id].row.externalId == s.lanes[id].row.externalId)
      && (s.lanes[id].row.status != Draft ==>
            s'.lanes[id].row.status != Draft && s'.lanes[id].row.transactionHash == s.lanes[id].row.transactionHash)
  }

  lemma SettledOn(s: Sys, e: Event, id: InvoiceId)
    requires Sound(s) && SoloOn(s, id) && Legal(s, e)
    ensures Settled(s, Step(s, e), id)
  {
    if e.Advance? && s.threads[e.tid].id in s.lanes {
      var t := s.threads[e.tid];
      AdvanceShape(s, e.tid, t, e.a);
      if t.id == id {
        assert ThreadSound(s, t);
        assert SoloAt(s.cfg.maxRetries, s.lanes[id], t.pc) && RowSound(s.lanes[id].row, s.ledger);
        SettledStep(s.cfg.maxRetries, s.lanes[id].row, t.pc, e.a, s.ledger);
      }
      hide ThreadStep, AdvanceStep, LaneStep, SoloAt, Sound, HonestIssuer;
    } else {
      RowsElsewhere(s, e);
      hide Step, Sound, SoloOn, HonestIssuer;
    }
  }

  lemma SettledTrans(s: Sys, s': Sys, s'': Sys, id: InvoiceId)
    requires Settled(s, s', id) && Settled(s', s'', id)
    ensures Settled(s, s'', id)
  {
  }

  lemma {:induction false} SettledRun(s: Sys, events: seq<Event>, id: InvoiceId)
    requires Sound(s) && SoloOn(s, id) && LegalRun(s, events) && SerialRun(s, events, id)
    ensures Settled(s, Run(s, events), id)
    decreases |events|
  {
    if events != [] {
      var s' := Step(s, events[0]);
      SettledOn(s, events[0], id);
      SoloStepOn(s, events[0], id);
      SoundStep(s, events[0]);
      SettledRun(s', events[1..], id);
      SettledTrans(s, s', Run(s, events), id);
    }
  }

  /** Completed is absorbing; an invoice number, once on the row, is never replaced or cleared; and past
      draft the transaction hash is frozen. */
  lemma CompletedIsFinal(s: Sys, events: seq<Event>, id: InvoiceId)
    requires ReachableSerially(s, id) && id in s.lanes && LegalRun(s, events) && SerialRun(s, events, id)
    ensures id in Run(s, events).lanes
    ensures s.lanes[id].row.status == Completed ==> Run(s, events).lanes[id].row.status == Completed
    ensures s.lanes[id].row.externalId.Some? ==> Run(s, events).lanes[id].row.externalId == s.lanes[id].row.externalId
    ensures s.lanes[id].row.status != Draft ==>
              Run(s, events).lanes[id].row.transactionHash == s.lanes[id].row.transactionHash
  {
    ReachableSolo(s, id);
    SettledRun(s, events, id);
  }

  // ---------- Times ----------

  /** The clock readings of a run never go back, also within one step. */
  ghost predicate ClockRun(clock: Time, events: seq<Event>)
    decreases |events|
  {
    events == [] ||
    (if events[0].Advance? then
       clock <= events[0].a.now <= events[0].a.later && ClockRun(events[0].a.later, events[1..])
     else ClockRun(clock, events[1..]))
  }

  predicate TimesOn(s: Sys, id: InvoiceId, clock: Time) {
    id in s.lanes ==> TimesAt(s.lanes[id].row, clock)
  }

  lemma TimesOnStep(s: Sys, e: Event, id: InvoiceId, clock: Time)
    requires Sound(s) && SoloOn(s, id) && Legal(s, e) && TimesOn(s, id, clock)
    requires e.Advance? ==> clock <= e.a.now <= e.a.later
    ensures TimesOn(Step(s, e), id, if e.Advance? then e.a.later else clock)
  {
    if e.Advance? && s.threads[e.tid].id in s.lanes {
      var t := s.threads[e.tid];
      AdvanceShape(s, e.tid, t, e.a);
      if t.id == id {
        assert SoloAt(s.cfg.maxRetries, s.lanes[id], t.pc);
        TimesStep(s.cfg.maxRetries, s.lanes[id].row, t.pc, e.a, clock);
      }
      hide ThreadStep, AdvanceStep, LaneStep, SoloAt, Sound, HonestIssuer;
    } else {
      RowsElsewhere(s, e);
      NewRowsAreDrafts(s, e);
      hide Step, Sound, SoloOn, HonestIssuer;
    }
  }

  lemma {:induction false} TimesRun(s: Sys, events: seq<Event>, id: InvoiceId, clock: Time) returns (latest: Time)
    requires Sound(s) && SoloOn(s, id) && LegalRun(s, events) && SerialRun(s, events, id)
    requires TimesOn(s, id, clock) && ClockRun(clock, events)
    ensures TimesOn(Run(s, events), id, latest)
    decreases |events|
  {
    hide Step, Legal, Sound, SoloOn, SerialOn, TimesOn, Grows;
    latest := clock;
    if events != [] {
      TimesOnStep(s, events[0], id, clock);
      SoloStepOn(s, events[0], id);
      SoundStep(s, events[0]);
      latest := TimesRun(Step(s, events[0]), events[1..], id, if events[0].Advance? then events[0].a.later else clock);
    }
  }

  /** On a clock that does not go back: an invoice past draft has its submission time, and a completed
      one was submitted no later than it was completed, through retries, resubmits and write-backs. */
  lemma TimestampOrder(cfg: Config, events: seq<Event>, id: InvoiceId, clock: Time)
    requires LegalRun(Init(cfg), events) && SerialRun(Init(cfg), events, id) && ClockRun(clock, events)
    requires id in Run(Init(cfg), events).lanes
    ensures var row := Run(Init(cfg), events).lanes[id].row;
            && (row.status != Draft ==> row.submittedAt.Some?)
            && (row.status == Completed ==> row.completedAt.Some? && row.submittedAt.value <= row.completedAt.value)
  {
    var latest := TimesRun(Init(cfg), events, id, clock);
    hide LegalRun, SerialRun, ClockRun, Run;
  }

  // ---------- Recovery after a crash ----------

  /** Whatever was cut off where: polling an idle invoice past draft to the end, with the writes stored
      and the issuer finding the invoice, completes it with the issuer's number, and that is the
      number it had if it had one. */
  lemma PollRecovers(s: Sys, id: InvoiceId, env: nat -> Answer)
    requires ReachableSerially(s, id) && Idle(s, id) && PastDraft(s, id)
    requires env(0).stored && env(2).stored && env(3).stored
    requires var row := s.lanes[id].row;
             HonestIssuer(s.ledger, CallQuery(row), env(1)) && Found(env(1).reply)
    ensures var row, row' := s.lanes[id].row, RunToEnd(s.cfg.maxRetries, s.lanes[id], PollRead, env, 0).row;
            && row'.status == Completed && row'.completedAt.Some?
            && row.transactionUuid.value in s.ledger
            && row'.externalId == Some(s.ledger[row.transactionUuid.value])
            && (row.externalId.Some? ==> row'.externalId == row.externalId)
  {
    ReachableSolo(s, id);
    hide ReachableSerially, SoloOn, SerialOn, Idle, ThreadsSound, JobsSound, RequestsSound, LedgerSound, QueryOutcome,
         RunToEnd, HonestIssuer;
    var row := s.lanes[id].row;
    assert RowSound(row, s.ledger);
    HonestQuery(s.ledger, row, env(1));
    PollEnds(s.cfg.maxRetries, s.lanes[id], env);
  }

  lemma HonestQuery(ledger: map<string, string>, copy: Invoice, a: Answer)
    requires HonestIssuer(ledger, CallQuery(copy), a) && Found(a.reply)
    ensures copy.transactionUuid.Some? && copy.transactionUuid.value in ledger
    ensures ledger[copy.transactionUuid.value] == a.reply.body.asSearch.value.invoiceNos[0]
  {
    QueryAnswered(a.reply);
    hide QueryOutcome, AnswerFor, Success;
  }
}
