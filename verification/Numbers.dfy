/** Two documented promises about external_id, neither of which the code keeps: a completed invoice has it,
    and a processing one does not. When they hold, and when not: for runs with any interleaving, for
    runs without overlap on the invoice, and for single jobs. */
module Numbers {
  import opened Domain
  import opened Viettel
  import opened Rows
  import opened Steps
  import opened System
  import opened Interleaving
  import opened Solo
  import opened Endings
  import opened Serial

  datatype Promise = NumberWhenCompleted | NoNumberWhileProcessing

  predicate Meets(promise: Promise, row: Invoice) {
    match promise
    case NumberWhenCompleted => row.status == Completed ==> !Blank(row.externalId)
    case NoNumberWhileProcessing => row.status == Processing ==> Blank(row.externalId)
  }

  predicate WritesBack(pc: Pc) {
    pc.SavePending? || pc.SaveRetry?
  }

  /** The stored steps that break a promise: a completion of an invoice without a number, or an old
      copy without one written over a completed invoice; a number written while processing, an old copy
      with one written back while processing, or an invoice with a number put in processing. */
  predicate Breaks(promise: Promise, row: Invoice, pc: Pc, a: Answer) {
    a.stored &&
    match promise
    case NumberWhenCompleted =>
      || ((pc.MarkCompleted? || pc.MarkConfirmed?) && Blank(row.externalId))
      || (WritesBack(pc) && row.status == Completed && Blank(pc.copy.externalId))
    case NoNumberWhileProcessing =>
      || ((pc.SaveNumber? || pc.SaveConfirmed?) && row.status == Processing)
      || (WritesBack(pc) && row.status == Processing && !Blank(pc.copy.externalId))
      || (pc.MarkProcessing? && !Blank(row.externalId))
  }

  lemma BreaksExactly(promise: Promise, maxRetries: int, row: Invoice, pc: Pc, a: Answer)
    requires Meets(promise, row) && (NumberOf(pc).Some? ==> NumberOf(pc).value != "")
    ensures Meets(promise, ThreadStep(maxRetries, row, pc, a).row) <==> !Breaks(promise, row, pc, a)
  {
    hide CreateOutcome, QueryOutcome, CanTransitionTo;
  }

  // ---------- In every run ----------

  predicate AllMeet(promise: Promise, s: Sys) {
    forall id | id in s.lanes :: Meets(promise, s.lanes[id].row)
  }

  predicate BreaksAt(promise: Promise, s: Sys, e: Event) {
    && e.Advance? && e.tid in s.threads && s.threads[e.tid].id in s.lanes
    && Breaks(promise, s.lanes[s.threads[e.tid].id].row, s.threads[e.tid].pc, e.a)
  }

  /** In every state of the run, every invoice meets the promise. */
  predicate AlwaysMet(promise: Promise, s: Sys, events: seq<Event>)
    decreases |events|
  {
    AllMeet(promise, s) && (events == [] || AlwaysMet(promise, Step(s, events[0]), events[1..]))
  }

  predicate NeverBroken(promise: Promise, s: Sys, events: seq<Event>)
    decreases |events|
  {
    events == [] || (!BreaksAt(promise, s, events[0]) && NeverBroken(promise, Step(s, events[0]), events[1..]))
  }

  lemma NewRowsMeet(promise: Promise, s: Sys, e: Event)
    requires Elsewhere(s, e) && AllMeet(promise, s)
    ensures AllMeet(promise, Step(s, e))
  {
    RowsElsewhere(s, e);
    NewRowsAreDrafts(s, e);
    hide Step, Elsewhere;
  }

  lemma AllMeetStep(promise: Promise, s: Sys, e: Event)
    requires Sound(s) && Legal(s, e) && AllMeet(promise, s)
    ensures AllMeet(promise, Step(s, e)) <==> !BreaksAt(promise, s, e)
  {
    if e.Advance? && s.threads[e.tid].id in s.lanes {
      var t := s.threads[e.tid];
      assert ThreadSound(s, t);
      BreaksExactly(promise, s.cfg.maxRetries, s.lanes[t.id].row, t.pc, e.a);
      AdvancedRows(s, e.tid, t, e.a);
      hide AdvanceStep, ThreadStep, Breaks, Meets, HonestIssuer, Sound, ThreadSound;
    } else {
      NewRowsMeet(promise, s, e);
      hide Step, Sound, HonestIssuer;
    }
  }

  lemma AdvancedRows(s: Sys, tid: nat, t: Thread, a: Answer)
    requires t.id in s.lanes
    ensures var lanes' := AdvanceStep(s, tid, t, a).lanes;
            && lanes'.Keys == s.lanes.Keys
            && lanes'[t.id].row == ThreadStep(s.cfg.maxRetries, s.lanes[t.id].row, t.pc, a).row
            && forall id | id in s.lanes && id != t.id :: lanes'[id].row == s.lanes[id].row
  {
    AdvanceShape(s, tid, t, a);
    hide AdvanceStep, ThreadStep, Register;
  }

  lemma {:induction false} PromiseRun(promise: Promise, s: Sys, events: seq<Event>)
    requires Sound(s) && LegalRun(s, events) && AllMeet(promise, s)
    ensures AlwaysMet(promise, s, events) <==> NeverBroken(promise, s, events)
    decreases |events|
  {
    hide Step, Legal, Sound, AllMeet, BreaksAt, Grows;
    if events != [] {
      AllMeetStep(promise, s, events[0]);
      SoundStep(s, events[0]);
      if AllMeet(promise, Step(s, events[0])) {
        PromiseRun(promise, Step(s, events[0]), events[1..]);
      }
    }
  }

  /** Under every interleaving, a promise holds in every state of a run if and only if no stored step of
      the run is one of those that break it. */
  lemma PromiseExactly(cfg: Config, promise: Promise, events: seq<Event>)
    requires LegalRun(Init(cfg), events)
    ensures AlwaysMet(promise, Init(cfg), events) <==> NeverBroken(promise, Init(cfg), events)
  {
    PromiseRun(promise, Init(cfg), events);
  }

  // ---------- Without overlap on the invoice ----------

  predicate MeetsOn(promise: Promise, s: Sys, id: InvoiceId) {
    id in s.lanes ==> Meets(promise, s.lanes[id].row)
  }

  /** What is left of the breaking steps: a poll completes the invoice after its write of the number, and
      so every such write ever, was lost; a number is written while processing, or an invoice that has
      one is put in processing again. Copies written back are not among them. */
  predicate BreaksAlone(promise: Promise, lane: Lane, pc: Pc, a: Answer) {
    a.stored &&
    match promise
    case NumberWhenCompleted => pc.MarkConfirmed? && lane.audit.numbers == 0
    case NoNumberWhileProcessing =>
      || ((pc.SaveNumber? || pc.SaveConfirmed?) && lane.row.status == Processing)
      || (pc.MarkProcessing? && lane.audit.numbers > 0)
  }

  lemma AloneExactly(promise: Promise, maxRetries: int, lane: Lane, pc: Pc, a: Answer)
    requires SoloAt(maxRetries, lane, pc) && Meets(promise, lane.row)
    ensures Breaks(promise, lane.row, pc, a) <==> BreaksAlone(promise, lane, pc, a)
    ensures promise.NumberWhenCompleted? && BreaksAlone(promise, lane, pc, a) ==> lane.audit.lostConfirms > 0
    ensures NumberOf(pc).Some? ==> NumberOf(pc).value != ""
  {
    hide HistoryAt, RetriesAt, TraceHappens;
  }

  predicate BreaksAloneAt(promise: Promise, s: Sys, e: Event, id: InvoiceId) {
    && e.Advance? && e.tid in s.threads && s.threads[e.tid].id == id && id in s.lanes
    && BreaksAlone(promise, s.lanes[id], s.threads[e.tid].pc, e.a)
  }

  predicate AlwaysMetOn(promise: Promise, s: Sys, events: seq<Event>, id: InvoiceId)
    decreases |events|
  {
    MeetsOn(promise, s, id) && (events == [] || AlwaysMetOn(promise, Step(s, events[0]), events[1..], id))
  }

  predicate NeverBrokenOn(promise: Promise, s: Sys, events: seq<Event>, id: InvoiceId)
    decreases |events|
  {
    events == []
    || (!BreaksAloneAt(promise, s, events[0], id) && NeverBrokenOn(promise, Step(s, events[0]), events[1..], id))
  }

  lemma MeetsOnStep(promise: Promise, s: Sys, e: Event, id: InvoiceId)
    requires SoloOn(s, id) && Legal(s, e) && MeetsOn(promise, s, id)
    ensures MeetsOn(promise, Step(s, e), id) <==> !BreaksAloneAt(promise, s, e, id)
  {
    if e.Advance? && s.threads[e.tid].id in s.lanes {
      var t := s.threads[e.tid];
      AdvancedRows(s, e.tid, t, e.a);
      if t.id == id {
        AloneExactly(promise, s.cfg.maxRetries, s.lanes[id], t.pc, e.a);
        BreaksExactly(promise, s.cfg.maxRetries, s.lanes[id].row, t.pc, e.a);
      }
      hide AdvanceStep, ThreadStep, Breaks, BreaksAlone, Meets, HonestIssuer, SoloAt;
    } else {
      RowsElsewhere(s, e);
      NewRowsAreDrafts(s, e);
      hide Step, SoloOn, HonestIssuer;
    }
  }

  lemma {:induction false} PromiseRunOn(promise: Promise, s: Sys, events: seq<Event>, id: InvoiceId)
    requires Sound(s) && SoloOn(s, id) && LegalRun(s, events) && SerialRun(s, events, id) && MeetsOn(promise, s, id)
    ensures AlwaysMetOn(promise, s, events, id) <==> NeverBrokenOn(promise, s, events, id)
    decreases |events|
  {
    hide Step, Legal, Sound, SoloOn, SerialOn, MeetsOn, BreaksAloneAt, Grows;
    if events != [] {
      MeetsOnStep(promise, s, events[0], id);
      SoloStepOn(s, events[0], id);
      SoundStep(s, events[0]);
      if MeetsOn(promise, Step(s, events[0]), id) {
        PromiseRunOn(promise, Step(s, events[0]), events[1..], id);
      }
    }
  }

  /** Where threads on the invoice do not overlap, it meets the promise in every state if and only if none
      of the few steps left breaks it. */
  lemma PromiseExactlyAlone(cfg: Config, promise: Promise, events: seq<Event>, id: InvoiceId)
    requires LegalRun(Init(cfg), events) && SerialRun(Init(cfg), events, id)
    ensures AlwaysMetOn(promise, Init(cfg), events, id) <==> NeverBrokenOn(promise, Init(cfg), events, id)
  {
    PromiseRunOn(promise, Init(cfg), events, id);
  }

  // ---------- Single jobs ----------

  /** Exactly when a poll job turns an open invoice without a number into a completed one without a
      number: the issuer tells the number, the discarded error was that of writing it, and the status
      write succeeds. */
  lemma NumberLostExactly(maxRetries: int, lane: Lane, env: nat -> Answer)
    requires lane.row.status != Completed && Blank(lane.row.externalId)
    ensures var row' := RunToEnd(maxRetries, lane, PollRead, env, 0).row;
            row'.status == Completed && Blank(row'.externalId)
            <==> && env(0).stored && !Blank(lane.row.transactionUuid) && Found(env(1).reply)
                 && !env(2).stored && env(3).stored
  {
    PollEnds(maxRetries, lane, env);
    hide RunToEnd;
  }

  predicate NumberedProcessing(row: Invoice) {
    row.status == Processing && !Blank(row.externalId)
  }

  /** Exactly when a poll job leaves a processing invoice that had no number processing with one. */
  lemma PollLeavesNumber(maxRetries: int, lane: Lane, env: nat -> Answer)
    requires lane.row.status == Processing && Blank(lane.row.externalId)
    ensures NumberedProcessing(RunToEnd(maxRetries, lane, PollRead, env, 0).row)
            <==> && env(0).stored && !Blank(lane.row.transactionUuid) && Found(env(1).reply)
                 && env(2).stored && !env(3).stored
  {
    PollEnds(maxRetries, lane, env);
    hide RunToEnd;
  }

  /** Exactly when a publish job leaves a pending invoice that had no number processing with one: it gets
      as far as storing the number the issuer told it, and the status write fails. */
  lemma PublishLeavesNumber(maxRetries: int, lane: Lane, env: nat -> Answer)
    requires Pending(lane.row) && Blank(lane.row.externalId)
    ensures var k := LoadCall(lane.row);
            NumberedProcessing(RunToEnd(maxRetries, lane, PublishRead, env, 0).row)
            <==> && (forall j: nat | j <= k :: env(j).stored) && Numbered(env(k + 1))
                 && env(k + 2).stored && !env(k + 3).stored
  {
    PublishEnds(maxRetries, lane, env);
    hide RunToEnd, FinalAnswer, AttemptError, ParseViettelError, Success;
    if lane.row.status == Submitted {
      assert (forall j: nat | j <= 2 :: env(j).stored) <==> env(0).stored && env(1).stored && env(2).stored;
    } else {
      assert (forall j: nat | j <= 1 :: env(j).stored) <==> env(0).stored && env(1).stored;
    }
  }
}
