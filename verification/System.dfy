/** The whole service: any number of invoices, threads on them, the job queue and its poller, and
    the issuer's ledger. A run is a sequence of events; nothing restricts how they interleave. */
module System {
  import opened Domain
  import opened Viettel
  import opened Rows
  import opened Steps

  datatype Config = Config(maxRetries: int, queueSize: nat)

  /** A job or API call on its way; `log` holds the answers it has consumed since `start`, `seen` the row
      at its first step. */
  datatype Thread = Thread(id: InvoiceId, start: Pc, log: seq<Answer>, pc: Pc, seen: Option<Invoice>)

  function Moved(t: Thread, row: Invoice, a: Answer, pc: Pc): Thread {
    Thread(t.id, t.start, t.log + [a], pc, if t.log == [] then Some(row) else t.seen)
  }

  datatype Request = Request(id: InvoiceId, uuid: string)

  datatype Sys = Sys(
    cfg: Config,
    lanes: map<InvoiceId, Lane>,       // the tables, one lane per invoice
    threads: map<nat, Thread>,         // workers and API calls in flight
    ledger: map<string, string>,       // the issuer's numbers by transactionUuid, append-only
    requests: set<Request>,            // create requests ever sent
    queue: seq<Job>,
    backlog: seq<Job>,                 // what the poller has read and not yet offered
    accepted: seq<Job>,                // every job the queue ever took in, in order
    removed: seq<Job>,                 // every job that left the queue, in order
    finished: nat,                     // jobs whose handler returned
    lost: nat)                         // jobs cut off or dropped at shutdown

  datatype Event =
    | Create(id: InvoiceId, uuid: string, content: Content, hash: string, now: Time)
    | Call(tid: nat, id: InvoiceId, start: Pc)     // an API call arrives
    | Take(tid: nat)                               // a worker receives from the queue
    | Advance(tid: nat, a: Answer)                 // one step of a thread
    | Issue(uuid: string, no: string)              // the issuer assigns a number on its own time
    | PollQuery(jobs: seq<Job>)                    // the poller reads the pending list
    | PollPush                                     // the poller offers its next job
    | Kill(tid: nat)                               // a thread is cut off
    | DropQueue                                    // the queue and the poller's list are lost

  function Init(cfg: Config): Sys {
    Sys(cfg, map[], map[], map[], {}, [], [], [], [], 0, 0)
  }

  predicate IsJobStart(pc: Pc) {
    pc.PublishRead? || pc.PollRead?
  }

  function Register(ledger: map<string, string>, sent: Option<string>, issued: Option<string>): map<string, string> {
    if sent.Some? && issued.Some? then ledger[sent.value := issued.value] else ledger
  }

  /** The two things assumed of the issuer: it assigns at most one number, not the empty one, to a
      transactionUuid, and a number in an answer is the one it assigned. */
  predicate HonestIssuer(ledger: map<string, string>, pc: Pc, a: Answer) {
    match pc
    case CallCreate(copy) =>
      a.valid ==>
        var uuid := ChooseUuid(copy, a.fallback);
        var outcome := CreateOutcome(a.reply);
        var ledger' := Register(ledger, Some(uuid), a.issued);
        && (a.issued.Some? ==> uuid !in ledger && a.issued.value != "")
        && (outcome.Ok? && outcome.value != "" ==> uuid in ledger' && ledger'[uuid] == outcome.value)
    case CallQuery(copy) =>
      var outcome := QueryOutcome(a.reply);
      outcome.Confirmed? ==>
        copy.transactionUuid.Some? && copy.transactionUuid.value in ledger
        && ledger[copy.transactionUuid.value] == outcome.no
    case _ => true
  }

  /** What the poller reads: submitted rows to publish, processing rows to poll. */
  predicate PendingJob(s: Sys, job: Job) {
    && job.id in s.lanes
    && Pending(s.lanes[job.id].row)
    && job.kind == PollerJob(s.lanes[job.id].row).kind
  }

  ghost predicate Legal(s: Sys, e: Event) {
    match e
    case Create(id, uuid, _, _, _) => uuid != ""
    case Call(tid, id, start) => tid !in s.threads && (start.SubmitRead? || start.HashRead?)
    case Take(tid) => tid !in s.threads && s.queue != []
    case Advance(tid, a) => tid in s.threads && HonestIssuer(s.ledger, s.threads[tid].pc, a)
    case Issue(uuid, no) => uuid !in s.ledger && no != "" && exists r :: r in s.requests && r.uuid == uuid
    case PollQuery(jobs) => s.backlog == [] && forall j | 0 <= j < |jobs| :: PendingJob(s, jobs[j])
    case PollPush => s.backlog != []
    case Kill(tid) => tid in s.threads
    case DropQueue => true
  }

  predicate UuidTaken(s: Sys, uuid: string) {
    exists id | id in s.lanes :: s.lanes[id].row.transactionUuid == Some(uuid)
  }

  /** Enqueue: a full queue refuses the job. */
  function Offer(s: Sys, job: Job): Sys {
    if |s.queue| < s.cfg.queueSize then
      s.(queue := s.queue + [job], accepted := s.accepted + [job])
    else s
  }

  /** The primary key and the unique index on transaction_uuid refuse a clash. */
  function InsertStep(s: Sys, row: Invoice): Sys
    requires row.transactionUuid.Some?
  {
    if row.id in s.lanes || UuidTaken(s, row.transactionUuid.value) then s
    else s.(lanes := s.lanes[row.id := Lane(row, [], NO_AUDIT)])
  }

  function End(s: Sys, tid: nat, t: Thread): Sys {
    s.(threads := s.threads - {tid}, finished := s.finished + One(IsJobStart(t.start)))
  }

  function AdvanceStep(s: Sys, tid: nat, t: Thread, a: Answer): Sys {
    if t.id !in s.lanes then
      End(s, tid, t)
    else
      var lane := s.lanes[t.id];
      var out := ThreadStep(s.cfg.maxRetries, lane.row, t.pc, a);
      var s1 := s.(lanes := s.lanes[t.id := LaneStep(s.cfg.maxRetries, lane, t.pc, a)],
                   ledger := Register(s.ledger, out.sent, a.issued),
                   requests := if out.sent.Some? then s.requests + {Request(t.id, out.sent.value)} else s.requests);
      var s2 := if out.push then Offer(s1, Job(PublishInvoice, t.id)) else s1;
      if out.pc == Done then End(s2, tid, t)
      else s2.(threads := s2.threads[tid := Moved(t, lane.row, a, out.pc)])
  }

  function TakeStep(s: Sys, tid: nat): Sys
    requires s.queue != []
  {
    var job := s.queue[0];
    s.(threads := s.threads[tid := Thread(job.id, StartOf(job), [], StartOf(job), None)],
       queue := s.queue[1..], removed := s.removed + [job])
  }

  function PollPushStep(s: Sys): Sys
    requires s.backlog != []
  {
    if |s.queue| < s.cfg.queueSize then Offer(s, s.backlog[0]).(backlog := s.backlog[1..])
    else s.(backlog := [])
  }

  function KillStep(s: Sys, tid: nat, t: Thread): Sys {
    s.(threads := s.threads - {tid},
       lanes := if t.id in s.lanes then s.lanes[t.id := LaneKill(s.lanes[t.id], t.pc)] else s.lanes,
       lost := s.lost + One(IsJobStart(t.start)))
  }

  function Step(s: Sys, e: Event): Sys {
    match e
    case Create(id, uuid, content, hash, now) => InsertStep(s, NewInvoice(id, uuid, content, hash, now))
    case Call(tid, id, start) => s.(threads := s.threads[tid := Thread(id, start, [], start, None)])
    case Take(tid) => if s.queue == [] then s else TakeStep(s, tid)
    case Advance(tid, a) => if tid in s.threads then AdvanceStep(s, tid, s.threads[tid], a) else s
    case Issue(uuid, no) => s.(ledger := s.ledger[uuid := no])
    case PollQuery(jobs) => s.(backlog := jobs)
    case PollPush => if s.backlog == [] then s else PollPushStep(s)
    case Kill(tid) => if tid in s.threads then KillStep(s, tid, s.threads[tid]) else s
    case DropQueue =>
      s.(queue := [], backlog := [], removed := s.removed + s.queue, lost := s.lost + |s.queue|)
  }

  ghost predicate LegalRun(s: Sys, events: seq<Event>)
    decreases |events|
  {
    events == [] || (Legal(s, events[0]) && LegalRun(Step(s, events[0]), events[1..]))
  }

  function Run(s: Sys, events: seq<Event>): Sys
    decreases |events|
  {
    if events == [] then s else Run(Step(s, events[0]), events[1..])
  }

  ghost predicate Reachable(s: Sys) {
    exists events :: LegalRun(Init(s.cfg), events) && Run(Init(s.cfg), events) == s
  }

  predicate Idle(s: Sys, id: InvoiceId) {
    forall tid | tid in s.threads :: s.threads[tid].id != id
  }

  // ---------- Events other than the step of a thread on a row ----------

  ghost predicate Elsewhere(s: Sys, e: Event) {
    Legal(s, e) && (e.Advance? ==> s.threads[e.tid].id !in s.lanes)
  }

  lemma RowsElsewhere(s: Sys, e: Event)
    requires Elsewhere(s, e)
    ensures forall id | id in s.lanes :: id in Step(s, e).lanes && Step(s, e).lanes[id].row == s.lanes[id].row
  {
    hide HonestIssuer, ThreadStep, LaneStep;
  }

  lemma NewRowsAreDrafts(s: Sys, e: Event)
    requires Elsewhere(s, e)
    ensures forall id | id in Step(s, e).lanes && id !in s.lanes :: Step(s, e).lanes[id].row.status == Draft
  {
    hide HonestIssuer, ThreadStep, LaneStep;
  }

  lemma ThreadsElsewhere(s: Sys, e: Event)
    requires Elsewhere(s, e)
    ensures forall p | p in Step(s, e).threads ::
              (p in s.threads && Step(s, e).threads[p] == s.threads[p])
              || (p !in s.threads && Step(s, e).threads[p].pc == Step(s, e).threads[p].start
                  && (e.Call? || e.Take?) && p == e.tid
                  && (if e.Call? then Step(s, e).threads[p].pc.SubmitRead? || Step(s, e).threads[p].pc.HashRead?
                      else IsJobStart(Step(s, e).threads[p].pc)))
  {
    hide HonestIssuer, ThreadStep, LaneStep, LaneKill;
  }
}
