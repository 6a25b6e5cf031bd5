/** Poll cycles in runs of the whole service: from the poller's query until its jobs are done, with API
    calls, other jobs and other polls interleaving. The waiting bound holds of these. */
module Cycles {
  import opened Domain
  import opened Viettel
  import opened Rows
  import opened Steps
  import opened System
  import opened Interleaving
  import opened Repository
  import opened Pool
  import opened Fairness

  function RowsOf(s: Sys): map<InvoiceId, Invoice> {
    map id | id in s.lanes :: s.lanes[id].row
  }

  /** No failing statement, no failing search, a clock beyond `now`, nothing cut off, and room in the queue
      for the poller's jobs. Create calls may fail in any way, and everything may interleave. */
  predicate Calm(s: Sys, e: Event, now: Time) {
    match e
    case Advance(tid, a) =>
      && a.stored && now < a.now
      && (tid in s.threads && s.threads[tid].pc.CallQuery? ==> !QueryOutcome(a.reply).QueryFailed?)
    case PollPush => |s.queue| < s.cfg.queueSize
    case Kill(_) => false
    case DropQueue => false
    case _ => true
  }

  predicate CalmRun(s: Sys, events: seq<Event>, now: Time)
    decreases |events|
  {
    events == [] || (Calm(s, events[0], now) && CalmRun(Step(s, events[0]), events[1..], now))
  }

  /** The queue is drained: no job is waiting or being handled. */
  predicate Drained(s: Sys) {
    s.queue == [] && s.backlog == [] && forall tid | tid in s.threads :: !IsJobStart(s.threads[tid].start)
  }

  /** A cycle in a run: the oldest pending rows are queried, and at the end the queue is drained. */
  ghost predicate CycleOf(s: Sys, events: seq<Event>, picked: seq<Invoice>, now: Time) {
    && events != [] && events[0] == PollQuery(JobsFor(picked)) && LegalRun(s, events)
    && OldestPending(RowsOf(s), picked, s.cfg.queueSize)
    && (forall id | id in s.lanes :: s.lanes[id].row.updatedAt <= now)
    && CalmRun(s, events, now) && Drained(Run(s, events))
  }

  // ---------- What a step does to rows and to the picked rows' jobs ----------

  /** A program point of the poller's job for the row before the job has written the row. */
  predicate Serving(pc: Pc, row: Invoice) {
    if row.status == Processing then pc.PollRead? || pc.CallQuery? || pc.SaveConfirmed? || pc.SavePending?
    else pc.PublishRead? || pc.MarkProcessing?
  }

  predicate ServedBy(t: Thread, row: Invoice) {
    t.id == row.id && IsJobStart(t.start) && Serving(t.pc, row)
  }

  predicate OnTheWay(s: Sys, row: Invoice) {
    PollerJob(row) in s.backlog || PollerJob(row) in s.queue
    || exists tid | tid in s.threads :: ServedBy(s.threads[tid], row)
  }

  predicate RowGoesOn(before: map<InvoiceId, Invoice>, id: InvoiceId, row: Invoice, now: Time) {
    Renewed(row, now) || (id in before && row == before[id])
  }

  predicate RowsGoOn(s: Sys, before: map<InvoiceId, Invoice>, now: Time) {
    && before.Keys <= s.lanes.Keys
    && forall id | id in s.lanes :: RowGoesOn(before, id, s.lanes[id].row, now)
  }

  predicate Waiting(s: Sys, row: Invoice, now: Time) {
    row.id in s.lanes && (Renewed(s.lanes[row.id].row, now) || OnTheWay(s, row))
  }

  lemma TouchedOrSame(maxRetries: int, row: Invoice, pc: Pc, a: Answer)
    ensures var row' := ThreadStep(maxRetries, row, pc, a).row; row' == row || row'.updatedAt == a.now
  {
    hide CreateOutcome, QueryOutcome, CanTransitionTo;
  }

  /** A step of a job that has not written yet either writes or brings it closer. */
  lemma ServingStep(maxRetries: int, row: Invoice, pc: Pc, a: Answer)
    requires Serving(pc, row) && Pending(row) && !Blank(row.transactionUuid)
    requires a.stored && (pc.CallQuery? ==> !QueryOutcome(a.reply).QueryFailed?)
    ensures var out := ThreadStep(maxRetries, row, pc, a);
            out.row.updatedAt == a.now || (out.pc != Done && Serving(out.pc, row))
  {
    hide CreateOutcome, QueryOutcome, CanTransitionTo;
  }

  lemma RowsAdvance(s: Sys, s': Sys, tid: nat, t: Thread, lane: Lane, out: Out, a: Answer,
                    before: map<InvoiceId, Invoice>, now: Time)
    requires t.id in s.lanes && RowsGoOn(s, before, now) && now < a.now
    requires Shape(s, s', tid, t, lane, out, a) && lane.row == out.row
    requires out.row == s.lanes[t.id].row || out.row.updatedAt == a.now
    ensures RowsGoOn(s', before, now)
  {
    hide Register;
  }

  lemma ServedAdvance(s: Sys, s': Sys, tid: nat, t: Thread, lane: Lane, out: Out, a: Answer, row: Invoice)
    requires tid in s.threads && s.threads[tid] == t && t.id in s.lanes && Shape(s, s', tid, t, lane, out, a)
    requires OnTheWay(s, row) && (ServedBy(t, row) ==> out.pc != Done && Serving(out.pc, row))
    ensures OnTheWay(s', row)
  {
    hide Register, Serving, IsJobStart;
    if p :| p in s.threads && ServedBy(s.threads[p], row) {
      if p == tid {
        assert ServedBy(s'.threads[tid], row);
      } else {
        assert s'.threads[p] == s.threads[p];
      }
    }
  }

  lemma WaitingAdvance(s: Sys, tid: nat, t: Thread, a: Answer, before: map<InvoiceId, Invoice>, row: Invoice, now: Time)
    requires tid in s.threads && s.threads[tid] == t && t.id in s.lanes && Calm(s, Advance(tid, a), now)
    requires RowsGoOn(s, before, now) && Waiting(s, row, now)
    requires row.id in before && before[row.id] == row && Pending(row) && !Blank(row.transactionUuid)
    ensures Waiting(AdvanceStep(s, tid, t, a), row, now)
  {
    hide ThreadStep, LaneStep, AdvanceStep, Shape, Serving, OnTheWay, Blank;
    var current := s.lanes[t.id].row;
    var lane, out := LaneStep(s.cfg.maxRetries, s.lanes[t.id], t.pc, a), ThreadStep(s.cfg.maxRetries, current, t.pc, a);
    AdvanceShape(s, tid, t, a);
    LaneStepRow(s.cfg.maxRetries, s.lanes[t.id], t.pc, a);
    TouchedOrSame(s.cfg.maxRetries, current, t.pc, a);
    assert RowGoesOn(before, row.id, s.lanes[row.id].row, now);
    if t.id == row.id && ServedBy(t, row) && current == row {
      ServingStep(s.cfg.maxRetries, row, t.pc, a);
    }
    WaitingFromShape(s, AdvanceStep(s, tid, t, a), tid, t, lane, out, a, row, now);
  }

  lemma WaitingFromShape(s: Sys, s': Sys, tid: nat, t: Thread, lane: Lane, out: Out, a: Answer, row: Invoice, now: Time)
    requires tid in s.threads && s.threads[tid] == t && t.id in s.lanes && Shape(s, s', tid, t, lane, out, a)
    requires lane.row == out.row && now < a.now && (out.row == s.lanes[t.id].row || out.row.updatedAt == a.now)
    requires Waiting(s, row, now) && (Renewed(s.lanes[row.id].row, now) || s.lanes[row.id].row == row)
    requires ServedBy(t, row) && s.lanes[t.id].row == row ==>
               out.row.updatedAt == a.now || (out.pc != Done && Serving(out.pc, row))
    ensures Waiting(s', row, now)
  {
    hide OnTheWay, Serving, Register;
    assert s'.lanes[row.id].row == if t.id == row.id then out.row else s.lanes[row.id].row;
    if !Renewed(s'.lanes[row.id].row, now) {
      assert ServedBy(t, row) ==> out.pc != Done && Serving(out.pc, row);
      hide Shape, ServedBy;
      ServedAdvance(s, s', tid, t, lane, out, a, row);
    }
  }

  /** Nothing moves a thread off its way or takes a job back: the rows and the threads in flight stay. */
  lemma WaitingStays(s: Sys, s': Sys, row: Invoice, now: Time)
    requires Waiting(s, row, now) && row.id in s'.lanes && s'.lanes[row.id].row == s.lanes[row.id].row
    requires forall p | p in s.threads :: p in s'.threads && s'.threads[p] == s.threads[p]
    requires PollerJob(row) in s.backlog || PollerJob(row) in s.queue ==> OnTheWay(s', row)
    ensures Waiting(s', row, now)
  {
    hide ServedBy, Renewed;
    if p :| p in s.threads && ServedBy(s.threads[p], row) {
      assert s'.threads[p] == s.threads[p];
    }
  }

  lemma TakenOnTheWay(s: Sys, tid: nat, row: Invoice)
    requires s.queue != [] && Pending(row)
    requires PollerJob(row) in s.backlog || PollerJob(row) in s.queue
    ensures OnTheWay(TakeStep(s, tid), row)
  {
    var s' := TakeStep(s, tid);
    if s.queue[0] == PollerJob(row) {
      assert ServedBy(s'.threads[tid], row);
    } else if PollerJob(row) in s.queue {
      assert PollerJob(row) in s.queue[1..];
    }
  }

  lemma PushedOnTheWay(s: Sys, row: Invoice)
    requires s.backlog != [] && |s.queue| < s.cfg.queueSize
    requires PollerJob(row) in s.backlog || PollerJob(row) in s.queue
    ensures OnTheWay(PollPushStep(s), row)
  {
    assert s.backlog == [s.backlog[0]] + s.backlog[1..];
    hide ServedBy;
  }

  lemma WaitingElsewhere(s: Sys, e: Event, row: Invoice, now: Time)
    requires Elsewhere(s, e) && Calm(s, e, now) && Waiting(s, row, now) && Pending(row)
    requires e.Advance? ==> s.threads[e.tid].id != row.id
    ensures Waiting(Step(s, e), row, now)
  {
    RowsElsewhere(s, e);
    hide HonestIssuer, PendingJob, UuidTaken, NewInvoice, Renewed, Serving, Elsewhere;
    match e
    case Take(tid) =>
      if PollerJob(row) in s.backlog || PollerJob(row) in s.queue {
        TakenOnTheWay(s, tid, row);
      }
      hide OnTheWay;
      WaitingStays(s, Step(s, e), row, now);
    case PollPush =>
      if PollerJob(row) in s.backlog || PollerJob(row) in s.queue {
        PushedOnTheWay(s, row);
      }
      hide OnTheWay;
      WaitingStays(s, Step(s, e), row, now);
    case Advance(tid, _) => WaitingGone(s, tid, row, now);
    case _ => WaitingStays(s, Step(s, e), row, now);
  }

  /** A thread on an unknown invoice ends. */
  lemma WaitingGone(s: Sys, tid: nat, row: Invoice, now: Time)
    requires tid in s.threads && s.threads[tid].id != row.id && Waiting(s, row, now)
    ensures Waiting(End(s, tid, s.threads[tid]), row, now)
  {
    var s' := End(s, tid, s.threads[tid]);
    hide Renewed, Serving;
    if p :| p in s.threads && ServedBy(s.threads[p], row) {
      assert s'.threads[p] == s.threads[p];
    }
  }

  // ---------- The cycle as a whole ----------

  ghost predicate InCycle(s: Sys, before: map<InvoiceId, Invoice>, picked: seq<Invoice>, now: Time) {
    && RowsGoOn(s, before, now)
    && forall k | 0 <= k < |picked| :: Waiting(s, picked[k], now)
  }

  ghost predicate PickedFrom(before: map<InvoiceId, Invoice>, picked: seq<Invoice>) {
    forall k | 0 <= k < |picked| ::
      picked[k].id in before && before[picked[k].id] == picked[k]
      && Pending(picked[k]) && !Blank(picked[k].transactionUuid)
  }

  lemma RowsStep(s: Sys, e: Event, before: map<InvoiceId, Invoice>, now: Time)
    requires RowsGoOn(s, before, now) && Legal(s, e) && Calm(s, e, now)
    ensures RowsGoOn(Step(s, e), before, now)
  {
    if e.Advance? && s.threads[e.tid].id in s.lanes {
      var t := s.threads[e.tid];
      AdvanceShape(s, e.tid, t, e.a);
      LaneStepRow(s.cfg.maxRetries, s.lanes[t.id], t.pc, e.a);
      TouchedOrSame(s.cfg.maxRetries, s.lanes[t.id].row, t.pc, e.a);
      hide ThreadStep, LaneStep, AdvanceStep, Shape, RowsGoOn, HonestIssuer;
      RowsAdvance(s, Step(s, e), e.tid, t, LaneStep(s.cfg.maxRetries, s.lanes[t.id], t.pc, e.a),
                  ThreadStep(s.cfg.maxRetries, s.lanes[t.id].row, t.pc, e.a), e.a, before, now);
    } else {
      RowsElsewhere(s, e);
      NewRowsAreDrafts(s, e);
      hide Step, Legal, Calm;
    }
  }

  lemma InCycleStep(s: Sys, e: Event, before: map<InvoiceId, Invoice>, picked: seq<Invoice>, now: Time)
    requires InCycle(s, before, picked, now) && PickedFrom(before, picked) && Legal(s, e) && Calm(s, e, now)
    ensures InCycle(Step(s, e), before, picked, now)
  {
    RowsStep(s, e, before, now);
    forall k | 0 <= k < |picked| ensures Waiting(Step(s, e), picked[k], now) {
      assert Waiting(s, picked[k], now);
      hide Waiting, RowsGoOn, HonestIssuer, AdvanceStep;
      if e.Advance? && s.threads[e.tid].id in s.lanes {
        WaitingAdvance(s, e.tid, s.threads[e.tid], e.a, before, picked[k], now);
      } else {
        WaitingKnown(s, picked[k], now);
        WaitingElsewhere(s, e, picked[k], now);
      }
    }
    hide Step, Waiting, RowsGoOn;
  }

  lemma WaitingKnown(s: Sys, row: Invoice, now: Time)
    requires Waiting(s, row, now)
    ensures row.id in s.lanes
  {
    hide Renewed, OnTheWay;
  }

  lemma {:induction false} InCycleRun(s: Sys, events: seq<Event>, before: map<InvoiceId, Invoice>,
                                      picked: seq<Invoice>, now: Time)
    requires InCycle(s, before, picked, now) && PickedFrom(before, picked) && LegalRun(s, events)
             && CalmRun(s, events, now)
    ensures InCycle(Run(s, events), before, picked, now)
    decreases |events|
  {
    hide Step, Legal, Calm, InCycle, PickedFrom;
    if events != [] {
      InCycleStep(s, events[0], before, picked, now);
      InCycleRun(Step(s, events[0]), events[1..], before, picked, now);
    }
  }

  lemma CycleBegins(s: Sys, picked: seq<Invoice>, now: Time)
    requires OldestPending(RowsOf(s), picked, s.cfg.queueSize)
    ensures InCycle(Step(s, PollQuery(JobsFor(picked))), RowsOf(s), picked, now)
  {
    var s' := Step(s, PollQuery(JobsFor(picked)));
    hide Renewed, ServedBy;
    forall k | 0 <= k < |picked| ensures Waiting(s', picked[k], now) {
      assert JobsFor(picked)[k] == PollerJob(picked[k]);
    }
  }

  /** When the queue is drained, every picked row has been renewed. */
  lemma CycleEnds(s: Sys, before: map<InvoiceId, Invoice>, picked: seq<Invoice>, now: Time)
    requires InCycle(s, before, picked, now) && Drained(s)
    ensures forall k | 0 <= k < |picked| :: picked[k].id in s.lanes && Renewed(s.lanes[picked[k].id].row, now)
  {
    hide Renewed, Serving, RowsGoOn;
    forall k | 0 <= k < |picked| ensures picked[k].id in s.lanes && Renewed(s.lanes[picked[k].id].row, now) {
      assert Waiting(s, picked[k], now) && !OnTheWay(s, picked[k]);
    }
  }

  /** A cycle in a run of the service is a cycle: picked rows are renewed, all others renewed or unchanged. */
  lemma SystemCycle(s: Sys, events: seq<Event>, picked: seq<Invoice>, now: Time)
    requires Sound(s) && CycleOf(s, events, picked, now)
    ensures Cycle(RowsOf(s), picked, RowsOf(Run(s, events)), now, s.cfg.queueSize)
  {
    var before, s' := RowsOf(s), Run(s, events);
    CycleBegins(s, picked, now);
    assert PickedFrom(before, picked) by {
      PickedRows(s, picked);
    }
    hide Step, Legal, Calm, InCycle, PickedFrom, Sound;
    InCycleRun(Step(s, events[0]), events[1..], before, picked, now);
    CycleEnds(s', before, picked, now);
    CycleFrom(s, s', picked, now);
  }

  lemma PickedRows(s: Sys, picked: seq<Invoice>)
    requires Sound(s) && OldestPending(RowsOf(s), picked, s.cfg.queueSize)
    ensures PickedFrom(RowsOf(s), picked) && KeyedRows(RowsOf(s))
  {
    hide TraceSound, ThreadsSound, JobsSound, RequestsSound, LedgerSound, UuidsDistinct, Pending;
    forall k | 0 <= k < |picked| ensures !Blank(picked[k].transactionUuid) {
      assert RowSound(s.lanes[picked[k].id].row, s.ledger);
    }
  }

  lemma CycleFrom(s: Sys, s': Sys, picked: seq<Invoice>, now: Time)
    requires KeyedRows(RowsOf(s)) && OldestPending(RowsOf(s), picked, s.cfg.queueSize)
    requires forall id | id in s.lanes :: s.lanes[id].row.updatedAt <= now
    requires RowsGoOn(s', RowsOf(s), now)
    requires forall k | 0 <= k < |picked| :: picked[k].id in s'.lanes && Renewed(s'.lanes[picked[k].id].row, now)
    ensures Cycle(RowsOf(s), picked, RowsOf(s'), now, s.cfg.queueSize)
  {
    hide Renewed, OldestPending, KeyedRows;
    forall id | id in s'.lanes
      ensures Renewed(s'.lanes[id].row, now)
              || (id in s.lanes && !In(picked, id) && s'.lanes[id].row == s.lanes[id].row)
    {
      assert RowGoesOn(RowsOf(s), id, s'.lanes[id].row, now);
    }
  }

  // ---------- The bound ----------

  /** A run cut into cycles: `states[n]` is where the n-th begins, at the time `starts[n]`. */
  ghost predicate PollCycles(states: seq<Sys>, cycles: seq<seq<Event>>, picks: seq<seq<Invoice>>, starts: seq<Time>) {
    && |states| == |cycles| + 1 == |picks| + 1 == |starts| + 1
    && forall n | 0 <= n < |cycles| ::
         CycleOf(states[n], cycles[n], picks[n], starts[n]) && states[n + 1] == Run(states[n], cycles[n])
  }

  lemma {:induction false} CyclesSound(states: seq<Sys>, cycles: seq<seq<Event>>, picks: seq<seq<Invoice>>,
                                       starts: seq<Time>, n: nat)
    requires PollCycles(states, cycles, picks, starts) && Reachable(states[0]) && n < |states|
    ensures Sound(states[n]) && states[n].cfg == states[0].cfg
  {
    ReachableSound(states[0]);
    hide Sound, LegalRun, CalmRun, Drained, OldestPending, Run;
    if n > 0 {
      CyclesSound(states, cycles, picks, starts, n - 1);
      assert CycleOf(states[n - 1], cycles[n - 1], picks[n - 1], starts[n - 1])
             && states[n - 1 + 1] == Run(states[n - 1], cycles[n - 1]);
      SoundRun(states[n - 1], cycles[n - 1]);
    }
  }

  function TablesOf(states: seq<Sys>): (tables: seq<map<InvoiceId, Invoice>>)
    ensures |tables| == |states|
  {
    seq(|states|, n requires 0 <= n < |states| => RowsOf(states[n]))
  }

  lemma SystemCycles(states: seq<Sys>, cycles: seq<seq<Event>>, picks: seq<seq<Invoice>>, starts: seq<Time>)
    requires PollCycles(states, cycles, picks, starts) && Reachable(states[0])
    ensures Cycles(TablesOf(states), picks, starts, states[0].cfg.queueSize)
  {
    hide CycleOf, Reachable, Sound, Cycle, Run;
    forall n | 0 <= n < |cycles|
      ensures Cycle(TablesOf(states)[n], picks[n], TablesOf(states)[n + 1], starts[n], states[0].cfg.queueSize)
    {
      CyclesSound(states, cycles, picks, starts, n);
      SystemCycle(states[n], cycles[n], picks[n], starts[n]);
    }
  }

  /** Picked or rewritten in a cycle: renewed by its end. */
  lemma CycleRenews(before: map<InvoiceId, Invoice>, picked: seq<Invoice>, after: map<InvoiceId, Invoice>, now: Time,
                    q: nat, id: InvoiceId)
    requires Cycle(before, picked, after, now, q) && id in before && id in after
    requires In(picked, id) || after[id] != before[id]
    ensures Renewed(after[id], now)
  {
    hide Renewed, In, OldestPending;
  }

  /** In a run of the service, with any interleaving inside the cycles: a pending invoice with p older
      pending ones is off the pending list, or written again, by the end of one of the first p / q + 1
      poll cycles, q being the queue size. */
  lemma ServiceFairness(states: seq<Sys>, cycles: seq<seq<Event>>, picks: seq<seq<Invoice>>, starts: seq<Time>,
                        id: InvoiceId)
    requires PollCycles(states, cycles, picks, starts) && Reachable(states[0]) && states[0].cfg.queueSize >= 1
    requires id in states[0].lanes && Pending(states[0].lanes[id].row)
    requires |cycles| >= |Older(RowsOf(states[0]), id)| / states[0].cfg.queueSize + 1
    ensures exists n | 0 <= n < |cycles| ::
              id in states[n + 1].lanes && Renewed(states[n + 1].lanes[id].row, starts[n])
  {
    hide CycleOf, Reachable, Cycle, Older, Run, Pending, Renewed;
    var q, tables := states[0].cfg.queueSize, TablesOf(states);
    SystemCycles(states, cycles, picks, starts);
    PollFairness(tables, picks, starts, q, id);
    var n :| 0 <= n < |picks| && id in tables[n] && id in tables[n + 1]
             && (In(picks[n], id) || tables[n + 1][id] != tables[n][id]);
    CycleRenews(tables[n], picks[n], tables[n + 1], starts[n], q, id);
  }
}
