/** One job or API call as a sequence of steps. A step is one database statement or one call to the
    issuer together with the local computation up to the next one; between two steps of a thread any
    other thread may run. Everything the code does not decide itself (clock readings, failing
    statements, the validator's verdict, the issuer's answers) comes in as an `Answer`. */
module Steps {
  import opened Domain
  import opened Viettel
  import opened Rows

  datatype JobKind = PublishInvoice | PollStatus
  datatype Job = Job(kind: JobKind, id: InvoiceId)

  datatype Answer = Answer(
    now: Time, later: Time,      // the clock readings of the step
    stored: bool,                // the database statement succeeds
    valid: bool,                 // the validator accepts the request
    fallback: string,            // the uuid the step makes up, if it makes one up
    reply: Reply,                // what the issuer answers
    issued: Option<string>)      // the number the issuer assigns while handling a create request

  /** The job the poller makes for a pending row: publish what is submitted, ask about what is processing. */
  function PollerJob(row: Invoice): Job {
    Job(if row.status == Processing then PollStatus else PublishInvoice, row.id)
  }

  /** Where a thread stands, with the local variables it still needs. */
  datatype Pc =
    // handlePublish
    | PublishRead
    | MarkProcessing(copy: Invoice)
    | LoadItems(copy: Invoice)
    | MarkUnloadable
    | CallCreate(copy: Invoice)
    | SaveNumber(copy: Invoice, no: string)
    | MarkCompleted
    | RecordCompleted
    // handlePublishError
    | MarkRejected(rejection: ViettelError)
    | SaveRetry(copy: Invoice, error: AppError)
    | MarkAfterRetry(count: int, error: AppError)
    // handlePoll
    | PollRead
    | CallQuery(copy: Invoice)
    | SaveConfirmed(copy: Invoice, no: string, raw: string)
    | MarkConfirmed(no: string)
    | SavePending(copy: Invoice, raw: string)
    // SubmitInvoice
    | SubmitRead
    | MarkSubmitted(from: Status)
    | RecordSubmitted(from: Status)
    | EnqueueSubmitted
    // UpdateTransactionHash
    | HashRead(hash: string)
    | HashWrite(hash: string)
    | Done

  function StartOf(job: Job): Pc {
    if job.kind == PublishInvoice then PublishRead else PollRead
  }

  /** The effect of one step: the row afterwards, where the thread goes, and what it left behind. */
  datatype Out = Out(
    row: Invoice,
    pc: Pc,
    wrote: Option<Status>,       // the status a stored UpdateStatus wrote
    change: Option<Change>,      // a stored history line
    sent: Option<string>,        // the transactionUuid of a create request
    push: bool)                  // a publish job is offered to the queue

  function Go(row: Invoice, pc: Pc): Out {
    Out(row, pc, None, None, None, false)
  }

  function SetStatus(row: Invoice, a: Answer, status: Status, reason: Reason, stored: Pc, failed: Pc): Out {
    if a.stored then
      Go(WriteStatus(row, status, reason, a.now, a.later), stored).(wrote := Some(status))
    else
      Go(row, failed)
  }

  function Save(row: Invoice, a: Answer, copy: Invoice, stored: Pc, failed: Pc): Out {
    if a.stored then Go(Overwrite(row, copy), stored) else Go(row, failed)
  }

  function Note(row: Invoice, a: Answer, from: Status, to: Status, next: Pc): Out {
    Go(row, next).(change := if a.stored then Some(Change(from, to)) else None)
  }

  /** The transactionUuid of a create request: the invoice's own, else a fresh one. */
  function ChooseUuid(copy: Invoice, fallback: string): string {
    if Blank(copy.transactionUuid) then fallback else copy.transactionUuid.value
  }

  /** handlePublishError up to its first statement. */
  function AfterError(copy: Invoice, error: AppError): Pc {
    if error.viettel.Some? && !error.viettel.value.retryable then
      MarkRejected(error.viettel.value)
    else
      SaveRetry(copy.(retryCount := copy.retryCount + 1, lastError := Some(PublishError(error))), error)
  }

  const INVALID_REQUEST := AppError(Validation, "", None)

  function CreateStep(row: Invoice, copy: Invoice, a: Answer): Out {
    if !a.valid then
      Go(row, AfterError(copy, INVALID_REQUEST))
    else
      var uuid := ChooseUuid(copy, a.fallback);
      var copy' := copy.(transactionUuid := Some(uuid));
      var next :=
        match CreateOutcome(a.reply)
        case Err(e) => AfterError(copy', e)
        case Ok(no) => if no != "" then SaveNumber(copy', no) else Done;
      Go(row, next).(sent := Some(uuid))
  }

  function QueryStep(row: Invoice, copy: Invoice, a: Answer): Out {
    match QueryOutcome(a.reply)
    case QueryFailed(_) => Go(row, Done)
    case StillPending(raw) => Go(row, SavePending(copy, raw))
    case Confirmed(no, raw) => Go(row, SaveConfirmed(copy, no, raw))
  }

  function ThreadStep(maxRetries: int, row: Invoice, pc: Pc, a: Answer): Out {
    match pc
    case PublishRead =>
      if !a.stored then Go(row, Done)
      else if row.status == Submitted then Go(row, MarkProcessing(row))
      else if row.status == Processing && Blank(row.externalId) then Go(row, LoadItems(row))
      else Go(row, Done)
    case MarkProcessing(copy) =>
      SetStatus(row, a, Processing, SendingToViettel, LoadItems(copy), Done)
    case LoadItems(copy) =>
      Go(row, if a.stored then CallCreate(copy) else MarkUnloadable)
    case MarkUnloadable =>
      SetStatus(row, a, Failed, ItemsNotLoaded, Done, Done)
    case CallCreate(copy) =>
      CreateStep(row, copy, a)
    case SaveNumber(copy, no) =>
      Save(row, a, copy.(externalId := Some(no), completedAt := Some(a.now), updatedAt := a.now), MarkCompleted, Done)
    case MarkCompleted =>
      SetStatus(row, a, Completed, PublishedToViettel, RecordCompleted, Done)
    case RecordCompleted =>
      Note(row, a, Processing, Completed, Done)
    case MarkRejected(v) =>
      SetStatus(row, a, Failed, NonRetryable(v), Done, Done)
    case SaveRetry(copy, error) =>
      var next := MarkAfterRetry(copy.retryCount, error);
      Save(row, a, copy.(updatedAt := a.now), next, next)
    case MarkAfterRetry(count, error) =>
      if count >= maxRetries then
        SetStatus(row, a, Failed, MaxRetriesExceeded(error), Done, Done)
      else
        SetStatus(row, a, Submitted, RetryPending(error), Done, Done)
    case PollRead =>
      if !a.stored || Blank(row.transactionUuid) then Go(row, Done) else Go(row, CallQuery(row))
    case CallQuery(copy) =>
      QueryStep(row, copy, a)
    case SaveConfirmed(copy, no, raw) =>
      Save(row, a,
           copy.(externalId := Some(no), completedAt := Some(a.now), metadata := Some(raw), updatedAt := a.now),
           MarkConfirmed(no), MarkConfirmed(no))
    case MarkConfirmed(no) =>
      SetStatus(row, a, Completed, ViettelConfirmed(no), Done, Done)
    case SavePending(copy, raw) =>
      Save(row, a, copy.(metadata := Some(raw), updatedAt := a.now), Done, Done)
    case SubmitRead =>
      Go(row, if a.stored && CanTransitionTo(row.status, Submitted) then MarkSubmitted(row.status) else Done)
    case MarkSubmitted(from) =>
      SetStatus(row, a, Submitted, SubmittedViaApi, RecordSubmitted(from), Done)
    case RecordSubmitted(from) =>
      Note(row, a, from, Submitted, EnqueueSubmitted)
    case EnqueueSubmitted =>
      Go(row, Done).(push := true)
    case HashRead(hash) =>
      Go(row, if a.stored && row.status == Draft then HashWrite(hash) else Done)
    case HashWrite(hash) =>
      Go(if a.stored then WriteHash(row, hash, a.now) else row, Done)
    case Done =>
      Go(row, Done)
  }

  /** How far a thread is from its end; every step gets closer, so a job has at most eight steps. */
  function Rank(pc: Pc): nat {
    match pc
    case PublishRead => 8 case MarkProcessing(_) => 7 case LoadItems(_) => 6
    case CallCreate(_) => 5 case SaveNumber(_, _) => 3 case MarkCompleted => 2 case RecordCompleted => 1
    case MarkUnloadable => 1 case MarkRejected(_) => 1
    case SaveRetry(_, _) => 2 case MarkAfterRetry(_, _) => 1
    case PollRead => 4 case CallQuery(_) => 3 case SaveConfirmed(_, _, _) => 2
    case MarkConfirmed(_) => 1 case SavePending(_, _) => 1
    case SubmitRead => 4 case MarkSubmitted(_) => 3 case RecordSubmitted(_) => 2 case EnqueueSubmitted => 1
    case HashRead(_) => 2 case HashWrite(_) => 1
    case Done => 0
  }

  lemma StepsGetCloser(maxRetries: int, row: Invoice, pc: Pc, a: Answer)
    requires pc != Done
    ensures Rank(ThreadStep(maxRetries, row, pc, a).pc) < Rank(pc)
  {
    match pc case _ =>
  }

  // ---------- An invoice with its records ----------

  /** Bookkeeping about one invoice that the service itself does not keep. */
  datatype Audit = Audit(
    trace: seq<Change>,          // every stored status write, from the status it replaced
    announced: seq<Change>,      // of these, the writes the code follows up with a history line
    submits: nat,                // submits that were accepted
    failures: nat,               // publish attempts that failed on the retry path
    lostRetries: nat,            // of these, the ones whose new RetryCount was not stored
    lostOutcomes: nat,           // of these, the ones whose submitted/failed status was not stored
    numbers: nat,                // writes that stored an invoice number
    lostConfirms: nat,           // confirmations by poll whose number was not stored
    lostNotes: nat)              // announced changes whose history line was not stored

  datatype Lane = Lane(row: Invoice, history: seq<Change>, audit: Audit)

  const NO_AUDIT := Audit([], [], 0, 0, 0, 0, 0, 0, 0)

  function One(b: bool): nat {
    if b then 1 else 0
  }

  /** The status writes of a submit and of a publish that got its number. */
  predicate Announces(pc: Pc) {
    pc.MarkSubmitted? || pc.MarkCompleted?
  }

  predicate IsNote(pc: Pc) {
    pc.RecordSubmitted? || pc.RecordCompleted?
  }

  function AuditStep(audit: Audit, from: Status, pc: Pc, stored: bool, out: Out): Audit {
    Audit(if out.wrote.Some? then audit.trace + [Change(from, out.wrote.value)] else audit.trace,
          if out.wrote.Some? && Announces(pc) then audit.announced + [Change(from, out.wrote.value)]
          else audit.announced,
          audit.submits + One(pc.MarkSubmitted? && stored),
          audit.failures + One(out.pc.SaveRetry?),
          audit.lostRetries + One(pc.SaveRetry? && !stored),
          audit.lostOutcomes + One(pc.MarkAfterRetry? && !stored),
          audit.numbers + One((pc.SaveNumber? || pc.SaveConfirmed?) && stored),
          audit.lostConfirms + One(pc.SaveConfirmed? && !stored),
          audit.lostNotes + One(IsNote(pc) && !stored))
  }

  function LaneStep(maxRetries: int, lane: Lane, pc: Pc, a: Answer): Lane {
    var out := ThreadStep(maxRetries, lane.row, pc, a);
    Lane(out.row,
         if out.change.Some? then lane.history + [out.change.value] else lane.history,
         AuditStep(lane.audit, lane.row.status, pc, a.stored, out))
  }

  lemma LaneStepRow(maxRetries: int, lane: Lane, pc: Pc, a: Answer)
    ensures LaneStep(maxRetries, lane, pc, a).row == ThreadStep(maxRetries, lane.row, pc, a).row
  {
    hide ThreadStep;
  }

  /** A thread that is cut off leaves its pending writes undone. */
  function LaneKill(lane: Lane, pc: Pc): Lane {
    lane.(audit := lane.audit.(
            lostRetries := lane.audit.lostRetries + One(pc.SaveRetry?),
            lostOutcomes := lane.audit.lostOutcomes + One(pc.MarkAfterRetry?),
            lostNotes := lane.audit.lostNotes + One(IsNote(pc))))
  }

  /** A thread run to its end without interference, the k-th step of all getting the k-th answer. */
  function RunToEnd(maxRetries: int, lane: Lane, pc: Pc, env: nat -> Answer, k: nat): Lane
    decreases Rank(pc)
  {
    if pc == Done then lane
    else
      StepsGetCloser(maxRetries, lane.row, pc, env(k));
      RunToEnd(maxRetries, LaneStep(maxRetries, lane, pc, env(k)),
               ThreadStep(maxRetries, lane.row, pc, env(k)).pc, env, k + 1)
  }

  /** One unfolding of a run to the end. */
  lemma Unroll(maxRetries: int, lane: Lane, pc: Pc, env: nat -> Answer, k: nat)
    requires pc != Done
    ensures RunToEnd(maxRetries, lane, pc, env, k)
            == RunToEnd(maxRetries, LaneStep(maxRetries, lane, pc, env(k)),
                        ThreadStep(maxRetries, lane.row, pc, env(k)).pc, env, k + 1)
    ensures ThreadStep(maxRetries, lane.row, pc, env(k)).pc == Done ==>
              RunToEnd(maxRetries, lane, pc, env, k) == LaneStep(maxRetries, lane, pc, env(k))
    ensures LaneStep(maxRetries, lane, pc, env(k)).row == ThreadStep(maxRetries, lane.row, pc, env(k)).row
    ensures var change := ThreadStep(maxRetries, lane.row, pc, env(k)).change;
            LaneStep(maxRetries, lane, pc, env(k)).history
            == if change.Some? then lane.history + [change.value] else lane.history
  {
    hide ThreadStep;
  }
}
