/** How concrete runs are put together: one invoice, at most two threads, step by step. */
module Scenario {
  import opened Domain
  import opened Viettel
  import opened Rows
  import opened Steps
  import opened System
  import opened Interleaving
  import opened Solo
  import opened Serial

  const ID: InvoiceId := "I"

  /** A step at which everything works, with an answer from the issuer. */
  function Fine(reply: Reply, issued: Option<string>): Answer {
    Answer(0, 0, true, true, "", reply, issued)
  }

  function Quiet(): Answer {
    Fine(NoReply(ThirdParty, ""), None)
  }

  /** The issuer knows the number: as the answer to a create request or to a search. */
  function WithNumber(no: string): Reply {
    Http(200, Body("", None, Some(CreatePayload("", "", no)), Some(SearchPayload("", "", [no], ""))))
  }

  /** The issuer's search does not show the invoice. */
  function NotFoundYet(): Reply {
    Http(200, Body("", None, None, Some(SearchPayload("", "", [], ""))))
  }

  /** A run leads to `s`; a serial one, if asked for, never has two threads on the invoice. */
  ghost predicate Via(s: Sys, serial: bool) {
    exists events :: LegalRun(Init(s.cfg), events) && (serial ==> SerialRun(Init(s.cfg), events, ID))
                     && Run(Init(s.cfg), events) == s
  }

  lemma {:induction false} Extend(s: Sys, events: seq<Event>, e: Event, serial: bool)
    requires LegalRun(s, events) && Legal(Run(s, events), e)
    requires serial ==> SerialRun(s, events, ID) && SerialOn(Step(Run(s, events), e), ID)
    ensures LegalRun(s, events + [e]) && Run(s, events + [e]) == Step(Run(s, events), e)
    ensures serial ==> SerialRun(s, events + [e], ID)
    decreases |events|
  {
    hide Step, Legal, SerialOn;
    if events == [] {
      assert events + [e] == [e];
      assert [e][1..] == [];
    } else {
      Extend(Step(s, events[0]), events[1..], e, serial);
      assert (events + [e])[0] == events[0] && (events + [e])[1..] == events[1..] + [e];
    }
  }

  lemma ViaStep(s: Sys, e: Event, serial: bool)
    requires Via(s, serial) && Legal(s, e) && Step(s, e).cfg == s.cfg && (serial ==> SerialOn(Step(s, e), ID))
    ensures Via(Step(s, e), serial)
  {
    var events :| LegalRun(Init(s.cfg), events) && (serial ==> SerialRun(Init(s.cfg), events, ID))
                  && Run(Init(s.cfg), events) == s;
    Extend(Init(s.cfg), events, e, serial);
    hide LegalRun, SerialRun, Run, Step, Legal, SerialOn;
  }

  // ---------- One invoice, at most two threads ----------

  /** What the runs below look at: the invoice with its records, the threads (number 1 and 2, `Done`
      standing for none), the queue and the ledger. */
  datatype View = View(lane: Lane, p1: Pc, p2: Pc, queue: seq<Job>, ledger: map<string, string>)

  function AtIn(threads: map<nat, Thread>, tid: nat): Pc {
    if tid in threads then threads[tid].pc else Done
  }

  predicate OnOne(threads: map<nat, Thread>) {
    threads.Keys <= {1, 2} && forall tid | tid in threads :: threads[tid].id == ID && threads[tid].pc != Done
  }

  predicate Shows(s: Sys, v: View) {
    && ID in s.lanes && s.lanes[ID] == v.lane
    && OnOne(s.threads) && AtIn(s.threads, 1) == v.p1 && AtIn(s.threads, 2) == v.p2
    && s.queue == v.queue && s.backlog == [] && s.ledger == v.ledger && s.cfg.queueSize == 1
  }

  function Advanced(maxRetries: int, v: View, first: bool, a: Answer): View {
    var out := ThreadStep(maxRetries, v.lane.row, if first then v.p1 else v.p2, a);
    View(LaneStep(maxRetries, v.lane, if first then v.p1 else v.p2, a),
         if first then out.pc else v.p1, if first then v.p2 else out.pc,
         if out.push then v.queue + [Job(PublishInvoice, ID)] else v.queue,
         Register(v.ledger, out.sent, a.issued))
  }

  lemma Turn(s: Sys, v: View, first: bool, a: Answer, serial: bool) returns (s': Sys, v': View)
    requires Shows(s, v) && Via(s, serial) && (serial ==> (if first then v.p2 else v.p1) == Done)
    requires var pc := if first then v.p1 else v.p2; pc != Done && HonestIssuer(v.ledger, pc, a)
    requires ThreadStep(s.cfg.maxRetries, v.lane.row, if first then v.p1 else v.p2, a).push ==> v.queue == []
    ensures v' == Advanced(s.cfg.maxRetries, v, first, a)
    ensures s'.cfg == s.cfg && Via(s', serial) && Shows(s', v')
  {
    var tid := if first then 1 else 2;
    var t := s.threads[tid];
    s' := Step(s, Advance(tid, a));
    v' := Advanced(s.cfg.maxRetries, v, first, a);
    AdvanceShape(s, tid, t, a);
    TurnShows(s, s', v, v', first, t, a);
    hide ThreadStep, LaneStep, HonestIssuer, Via, AdvanceStep, Shape, Advanced;
    ViaStep(s, Advance(tid, a), serial);
  }

  lemma TurnShows(s: Sys, s': Sys, v: View, v': View, first: bool, t: Thread, a: Answer)
    requires Shows(s, v) && v' == Advanced(s.cfg.maxRetries, v, first, a)
    requires var tid := if first then 1 else 2;
             tid in s.threads && s.threads[tid] == t && s' == AdvanceStep(s, tid, t, a)
    requires ThreadStep(s.cfg.maxRetries, v.lane.row, t.pc, a).push ==> v.queue == []
    ensures s'.cfg == s.cfg && Shows(s', v') && (v.p1 == Done || v.p2 == Done ==> SerialOn(s', ID))
  {
    hide ThreadStep, Register;
    var tid := if first then 1 else 2;
    assert t.id == ID && t.pc == AtIn(s.threads, tid);
    TurnTables(s, v, tid, t, a);
    hide AdvanceStep, LaneStep, OnOne, AtIn;
    TurnThreads(s.threads, s'.threads, tid,
                Moved(t, v.lane.row, a, ThreadStep(s.cfg.maxRetries, v.lane.row, t.pc, a).pc));
  }

  lemma TurnTables(s: Sys, v: View, tid: nat, t: Thread, a: Answer)
    requires Shows(s, v) && t.id == ID
    requires ThreadStep(s.cfg.maxRetries, v.lane.row, t.pc, a).push ==> v.queue == []
    ensures var s', out := AdvanceStep(s, tid, t, a), ThreadStep(s.cfg.maxRetries, v.lane.row, t.pc, a);
            && ID in s'.lanes && s'.lanes[ID] == LaneStep(s.cfg.maxRetries, v.lane, t.pc, a)
            && s'.queue == (if out.push then v.queue + [Job(PublishInvoice, ID)] else v.queue)
            && s'.backlog == [] && s'.ledger == Register(v.ledger, out.sent, a.issued) && s'.cfg == s.cfg
            && s'.threads == (if out.pc == Done then s.threads - {tid}
                              else s.threads[tid := Moved(t, v.lane.row, a, out.pc)])
  {
    hide ThreadStep, Register, OnOne, AtIn;
  }

  lemma TurnThreads(threads: map<nat, Thread>, threads': map<nat, Thread>, tid: nat, t: Thread)
    requires OnOne(threads) && tid in threads && t.id == ID
    requires threads' == if t.pc == Done then threads - {tid} else threads[tid := t]
    ensures OnOne(threads') && AtIn(threads', tid) == t.pc && AtIn(threads', 3 - tid) == AtIn(threads, 3 - tid)
    ensures AtIn(threads, 3 - tid) == Done ==> threads'.Keys <= {tid}
  {
  }

  lemma Receive(s: Sys, v: View, job: Job, first: bool, serial: bool) returns (s': Sys, v': View)
    requires Shows(s, v) && Via(s, serial) && v.queue == [job] && job.id == ID
    requires (if first then v.p1 else v.p2) == Done && (serial ==> v.p1 == v.p2 == Done)
    ensures v' == (if first then v.(p1 := StartOf(job), queue := []) else v.(p2 := StartOf(job), queue := []))
    ensures s'.cfg == s.cfg && Via(s', serial) && Shows(s', v')
  {
    var tid := if first then 1 else 2;
    s' := Step(s, Take(tid));
    v' := if first then v.(p1 := StartOf(job), queue := []) else v.(p2 := StartOf(job), queue := []);
    TakeShows(s, v, job, first);
    hide Via, Shows, Legal, SerialOn, Step;
    ViaStep(s, Take(tid), serial);
  }

  lemma TakeShows(s: Sys, v: View, job: Job, first: bool)
    requires Shows(s, v) && v.queue == [job] && job.id == ID && (if first then v.p1 else v.p2) == Done
    ensures var e, s' := Take(if first then 1 else 2), Step(s, Take(if first then 1 else 2));
            && Legal(s, e) && s'.cfg == s.cfg && (v.p1 == v.p2 == Done ==> SerialOn(s', ID))
            && Shows(s', if first then v.(p1 := StartOf(job), queue := []) else v.(p2 := StartOf(job), queue := []))
  {
    hide HonestIssuer;
  }

  /** The poller reads the processing invoice and queues a poll job. */
  lemma QueuePoll(s: Sys, v: View, serial: bool) returns (s': Sys)
    requires Shows(s, v) && Via(s, serial) && v.queue == [] && v.lane.row.status == Processing
             && (serial ==> SerialOn(s, ID))
    ensures s'.cfg == s.cfg && Via(s', serial) && Shows(s', v.(queue := [Job(PollStatus, ID)]))
    ensures serial ==> SerialOn(s', ID)
  {
    hide Via;
    var e := PollQuery([Job(PollStatus, ID)]);
    var s1 := Step(s, e);
    ViaStep(s, e, serial);
    s' := Step(s1, PollPush);
    ViaStep(s1, PollPush, serial);
  }

  lemma Start(cfg: Config, content: Content, call: Pc, serial: bool) returns (s: Sys, v: View)
    requires cfg.queueSize == 1 && (call.SubmitRead? || call.HashRead?)
    ensures v == View(Lane(NewInvoice(ID, "U", content, "", 0), [], NO_AUDIT), call, Done, [], map[])
    ensures s.cfg == cfg && Via(s, serial) && Shows(s, v)
  {
    v := View(Lane(NewInvoice(ID, "U", content, "", 0), [], NO_AUDIT), call, Done, [], map[]);
    var s0 := Init(cfg);
    ViaInit(s0, serial);
    hide Via, Shows, NewInvoice;
    var s1 := Drafted(s0, content, serial);
    s := FirstCall(s1, v.(p1 := Done), call, serial);
  }

  lemma Drafted(s: Sys, content: Content, serial: bool) returns (s': Sys)
    requires s == Init(s.cfg) && Via(s, serial) && s.cfg.queueSize == 1
    ensures s'.cfg == s.cfg && Via(s', serial)
    ensures Shows(s', View(Lane(NewInvoice(ID, "U", content, "", 0), [], NO_AUDIT), Done, Done, [], map[]))
  {
    hide Via;
    var e := Create(ID, "U", content, "", 0);
    s' := Step(s, e);
    ViaStep(s, e, serial);
  }

  lemma FirstCall(s: Sys, v: View, call: Pc, serial: bool) returns (s': Sys)
    requires Shows(s, v) && Via(s, serial) && v.p1 == v.p2 == Done && (call.SubmitRead? || call.HashRead?)
    ensures s'.cfg == s.cfg && Via(s', serial) && Shows(s', v.(p1 := call))
  {
    hide Via;
    var e := Call(1, ID, call);
    s' := Step(s, e);
    assert s'.threads == map[1 := Thread(ID, call, [], call, None)];
    ViaStep(s, e, serial);
  }

  /** Thread 1 is cut off where it stands. */
  lemma CutOff(s: Sys, v: View, serial: bool) returns (s': Sys, v': View)
    requires Shows(s, v) && Via(s, serial) && v.p1 != Done && v.p2 == Done
    ensures v' == v.(lane := LaneKill(v.lane, v.p1), p1 := Done)
    ensures s'.cfg == s.cfg && Via(s', serial) && Shows(s', v') && s'.threads == map[]
  {
    hide Via, LaneKill;
    s' := Step(s, Kill(1));
    v' := v.(lane := LaneKill(v.lane, v.p1), p1 := Done);
    ViaStep(s, Kill(1), serial);
  }

  lemma ViaInit(s: Sys, serial: bool)
    requires s == Init(s.cfg)
    ensures Via(s, serial)
  {
    assert LegalRun(s, []) && SerialRun(s, [], ID) && Run(s, []) == s;
  }

  // ---------- Common beginnings ----------

  /** A fresh row: no number, no retries, transactionUuid U. */
  predicate FreshRow(row: Invoice, status: Status) {
    row.externalId.None? && row.transactionUuid == Some("U") && row.retryCount == 0 && row.status == status
  }

  lemma Submitting(cfg: Config, content: Content, serial: bool) returns (s: Sys, v: View)
    requires cfg.queueSize == 1
    ensures s.cfg == cfg && Via(s, serial) && Shows(s, v) && FreshRow(v.lane.row, Submitted) && v.p1 == v.p2 == Done
    ensures v.lane.audit.trace == v.lane.history == [Change(Draft, Submitted)] && v.lane.audit.lostNotes == 0
    ensures v.queue == [Job(PublishInvoice, ID)] && v.ledger == map[]
  {
    hide Via, Shows;
    s, v := Start(cfg, content, SubmitRead, serial);
    s, v := Turn(s, v, true, Quiet(), serial);
    s, v := SubmittingOn(s, v, serial);
  }

  lemma SubmittingOn(s0: Sys, v0: View, serial: bool) returns (s: Sys, v: View)
    requires Via(s0, serial) && Shows(s0, v0) && FreshRow(v0.lane.row, Draft) && v0.p1 == MarkSubmitted(Draft)
             && v0.p2 == Done
    requires v0.lane.audit.trace == v0.lane.history == [] && v0.lane.audit.lostNotes == 0 && v0.queue == []
    ensures s.cfg == s0.cfg && Via(s, serial) && Shows(s, v) && FreshRow(v.lane.row, Submitted) && v.p1 == v.p2 == Done
    ensures v.lane.audit.trace == v.lane.history == [Change(Draft, Submitted)] && v.lane.audit.lostNotes == 0
    ensures v.queue == [Job(PublishInvoice, ID)] && v.ledger == v0.ledger
  {
    hide Via, Shows;
    s, v := Turn(s0, v0, true, Quiet(), serial);
    s, v := Recording(s, v, serial);
  }

  lemma Recording(s0: Sys, v0: View, serial: bool) returns (s: Sys, v: View)
    requires Via(s0, serial) && Shows(s0, v0) && v0.p1.RecordSubmitted? && v0.p2 == Done && v0.queue == []
    ensures s.cfg == s0.cfg && Via(s, serial) && Shows(s, v)
    ensures v == v0.(lane := v.lane, p1 := Done, queue := [Job(PublishInvoice, ID)])
    ensures v.lane == v0.lane.(history := v0.lane.history + [Change(v0.p1.from, Submitted)])
  {
    hide Via, Shows;
    s, v := Turn(s0, v0, true, Quiet(), serial);
    s, v := Turn(s, v, true, Quiet(), serial);
  }

  /** A worker has marked the invoice processing; meanwhile the poller has queued a poll job for it. */
  lemma Publishing(cfg: Config, content: Content, serial: bool) returns (s: Sys, v: View)
    requires cfg.queueSize == 1
    ensures s.cfg == cfg && Via(s, serial) && Shows(s, v) && FreshRow(v.lane.row, Processing)
    ensures v.p1.CallCreate? && v.p1.copy.transactionUuid == Some("U") && v.p1.copy.retryCount == 0 && v.p2 == Done
    ensures v.lane.audit.trace == [Change(Draft, Submitted), Change(Submitted, Processing)]
    ensures v.lane.history == [Change(Draft, Submitted)] && v.lane.audit.lostNotes == 0
    ensures v.queue == [Job(PollStatus, ID)] && v.ledger == map[]
  {
    hide Via, Shows;
    s, v := Submitting(cfg, content, serial);
    s, v := Receive(s, v, Job(PublishInvoice, ID), true, serial);
    s, v := Turn(s, v, true, Quiet(), serial);
    s, v := Turn(s, v, true, Quiet(), serial);
    s := AloneQueuePoll(s, v, serial);
    v := v.(queue := [Job(PollStatus, ID)]);
    s, v := Turn(s, v, true, Quiet(), serial);
  }

  lemma AloneQueuePoll(s: Sys, v: View, serial: bool) returns (s': Sys)
    requires Shows(s, v) && Via(s, serial) && v.queue == [] && v.lane.row.status == Processing && v.p2 == Done
    ensures s'.cfg == s.cfg && Via(s', serial) && Shows(s', v.(queue := [Job(PollStatus, ID)]))
  {
    hide Via;
    assert s.threads.Keys <= {1};
    s' := QueuePoll(s, v, serial);
  }

  /** The issuer assigns N, but its answer to the create request is lost. */
  lemma AnswerLost(cfg: Config, content: Content) returns (s: Sys, v: View)
    requires cfg.queueSize == 1
    ensures s.cfg == cfg && Via(s, true) && Shows(s, v) && v.p1 == v.p2 == Done
    ensures v.lane.row.transactionUuid == Some("U")
            && v.lane.row.status == (if cfg.maxRetries > 1 then Submitted else Failed)
    ensures v.lane.audit.trace == [Change(Draft, Submitted), Change(Submitted, Processing),
                                        Change(Processing, v.lane.row.status)]
    ensures v.queue == [Job(PollStatus, ID)] && v.ledger == map["U" := "N"]
  {
    hide Via, Shows;
    s, v := Publishing(cfg, content, true);
    s, v := Turn(s, v, true, Fine(NoReply(ThirdParty, ""), Some("N")), true);
    s, v := Turn(s, v, true, Quiet(), true);
    s, v := Turn(s, v, true, Quiet(), true);
  }

  /** The create request succeeds at once. */
  lemma Published(s0: Sys, v0: View, serial: bool) returns (s: Sys, v: View)
    requires Via(s0, serial) && Shows(s0, v0) && FreshRow(v0.lane.row, Processing) && (serial ==> v0.p2 == Done)
    requires v0.p1.CallCreate? && v0.p1.copy.transactionUuid == Some("U") && v0.ledger == map[]
    ensures s.cfg == s0.cfg && Via(s, serial) && Shows(s, v) && v.p1 == Done && v.p2 == v0.p2
    ensures v.lane.row.externalId == Some("N") && v.lane.row.transactionUuid == Some("U")
            && v.lane.row.status == Completed
    ensures v.lane.audit.trace == v0.lane.audit.trace + [Change(Processing, Completed)] && v.queue == v0.queue
            && v.ledger == map["U" := "N"]
  {
    hide Via, Shows;
    s, v := Turn(s0, v0, true, Fine(WithNumber("N"), Some("N")), serial);
    s, v := Turn(s, v, true, Quiet(), serial);
    s, v := Completing(s, v, serial);
  }

  lemma Completing(s0: Sys, v0: View, serial: bool) returns (s: Sys, v: View)
    requires Via(s0, serial) && Shows(s0, v0) && v0.p1.MarkCompleted? && (serial ==> v0.p2 == Done)
    ensures s.cfg == s0.cfg && Via(s, serial) && Shows(s, v)
    ensures v == v0.(lane := v.lane, p1 := Done) && v.lane.row.status == Completed
    ensures v.lane.row.externalId == v0.lane.row.externalId && v.lane.row.transactionUuid == v0.lane.row.transactionUuid
    ensures v.lane.audit.trace == v0.lane.audit.trace + [Change(v0.lane.row.status, Completed)]
  {
    hide Via, Shows;
    s, v := Turn(s0, v0, true, Quiet(), serial);
    s, v := Turn(s, v, true, Quiet(), serial);
  }

  /** A worker starts a queued poll job. */
  lemma PollBegun(s0: Sys, v0: View, first: bool, serial: bool) returns (s: Sys, v: View)
    requires Via(s0, serial) && Shows(s0, v0) && v0.queue == [Job(PollStatus, ID)]
             && v0.lane.row.transactionUuid == Some("U")
    requires (if first then v0.p1 else v0.p2) == Done && (serial ==> v0.p1 == v0.p2 == Done)
    ensures s.cfg == s0.cfg && Via(s, serial) && Shows(s, v)
    ensures v == if first then v0.(p1 := CallQuery(v0.lane.row), queue := [])
                 else v0.(p2 := CallQuery(v0.lane.row), queue := [])
  {
    hide Via, Shows;
    s, v := Receive(s0, v0, Job(PollStatus, ID), first, serial);
    s, v := Turn(s, v, first, Quiet(), serial);
  }

  /** A poll job that finds the invoice completes it, whatever its status. */
  lemma PolledToCompletion(s0: Sys, v0: View) returns (s: Sys, v: View)
    requires Via(s0, true) && Shows(s0, v0) && v0.p1 == v0.p2 == Done && v0.queue == [Job(PollStatus, ID)]
    requires v0.lane.row.transactionUuid == Some("U") && v0.ledger == map["U" := "N"]
    ensures s.cfg == s0.cfg && Via(s, true) && Shows(s, v)
    ensures v.lane.audit.trace == v0.lane.audit.trace + [Change(v0.lane.row.status, Completed)]
  {
    hide Via, Shows;
    s, v := PollBegun(s0, v0, true, true);
    s, v := Turn(s, v, true, Fine(WithNumber("N"), None), true);
    s, v := Confirming(s, v);
  }

  lemma Confirming(s0: Sys, v0: View) returns (s: Sys, v: View)
    requires Via(s0, true) && Shows(s0, v0) && v0.p1.SaveConfirmed? && v0.p2 == Done
    ensures s.cfg == s0.cfg && Via(s, true) && Shows(s, v) && v.lane.row.status == Completed
    ensures v.lane.audit.trace == v0.lane.audit.trace + [Change(v0.lane.row.status, Completed)]
    ensures v.lane.history == v0.lane.history && v.lane.audit.lostNotes == v0.lane.audit.lostNotes
  {
    hide Via, Shows;
    s, v := Turn(s0, v0, true, Quiet(), true);
    s, v := Turn(s, v, true, Quiet(), true);
  }

  lemma SeriallyReached(s: Sys)
    requires Via(s, true)
    ensures ReachableSerially(s, ID)
  {
  }

  lemma Reached(s: Sys)
    requires Via(s, false)
    ensures Reachable(s)
  {
  }

  lemma ShownRow(s: Sys, v: View)
    requires Shows(s, v)
    ensures ID in s.lanes && s.lanes[ID] == v.lane && s.ledger == v.ledger
    ensures v.p1 == v.p2 == Done ==> s.threads == map[]
  {
  }

  lemma SecondCall(s: Sys, v: View) returns (s': Sys, v': View)
    requires Shows(s, v) && Via(s, false) && v.p2 == Done
    ensures v' == v.(p2 := SubmitRead) && s'.cfg == s.cfg && Via(s', false) && Shows(s', v')
  {
    hide Via;
    ViaStep(s, Call(2, ID, SubmitRead), false);
    s' := Step(s, Call(2, ID, SubmitRead));
    v' := v.(p2 := SubmitRead);
  }
}
