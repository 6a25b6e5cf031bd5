/** internal/worker/pool.go, with the publisher it calls (internal/integration/viettel_publisher.go).
    Every handler is proved to end where its steps, taken without interference, end. The k-th call
    of a handler into the database or to the issuer gets the k-th answer of `env`. */
module Pool {
  import opened Domain
  import opened Viettel
  import opened Rows
  import opened Steps
  import opened System
  import opened Repository
  import opened Mapper
  import opened Endings

  const QUEUE_FULL := AppError(QueueFull, "job queue is full, try again later", None)

  /** The call a job makes to the issuer. */
  datatype IssuerCall =
    NoCall | CreateCall(request: ViettelRequest) | QueryCall(transactionUuid: string, supplierCode: string)

  /** Maps, validates and sends; the caller's invoice gets the request's transactionUuid. */
  method CreateInvoice(inv: Invoice, items: seq<InvoiceItem>, cfg: IssuerConfig, seller: SellerInfo, a: Answer)
    returns (r: Result<string, AppError>, inv': Invoice, call: IssuerCall)
    ensures call.CreateCall? <==> a.valid
    ensures call.NoCall? <==> !a.valid
    ensures call.CreateCall? ==> RequestFor(call.request, inv, items, cfg, seller, a.now, a.fallback)
    ensures !a.valid ==> r == Err(INVALID_REQUEST) && inv' == inv
    ensures a.valid ==> CreateResultFor(a.reply, r) && r == CreateOutcome(a.reply)
    ensures a.valid ==> inv' == inv.(transactionUuid := Some(call.request.general.transactionUuid))
  {
    hide RequestFor, AnswerFor;
    var request := MapInvoiceToViettel(inv, items, cfg, seller, a.now, a.fallback);
    if !a.valid {
      return Err(INVALID_REQUEST), inv, NoCall;
    }
    inv' := inv.(transactionUuid := Some(request.general.transactionUuid));
    call := CreateCall(request);
    CreateAnswered(a.reply);
    match Interpret(a.reply)
    case Err(e) => r := Err(e);
    case Ok(body) =>
      match body.asCreate
      case None => r := Err(AppError(ThirdParty, body.raw, None));
      case Some(resp) =>
        if resp.errorCode != "" {
          r := Err(AppError(ThirdParty, resp.description, None));
        } else if resp.invoiceNo != "" {
          r := Ok(resp.invoiceNo);
        } else {
          r := Ok("");
        }
  }

  /** Asks the issuer for the invoice with this transactionUuid. */
  method QueryStatus(transactionUuid: string, cfg: IssuerConfig, a: Answer) returns (q: QueryAnswer, call: IssuerCall)
    ensures call == QueryCall(transactionUuid, cfg.supplierCode)
    ensures QueryResultFor(a.reply, q) && q == QueryOutcome(a.reply)
  {
    hide AnswerFor;
    call := QueryCall(transactionUuid, cfg.supplierCode);
    QueryAnswered(a.reply);
    match Interpret(a.reply)
    case Err(e) => q := QueryFailed(e);
    case Ok(body) =>
      match body.asSearch
      case None => q := QueryFailed(AppError(ThirdParty, body.raw, None));
      case Some(resp) =>
        if resp.errorCode != "" {
          q := QueryFailed(AppError(ThirdParty, resp.description, None));
        } else if resp.invoiceNos == [] {
          q := StillPending(resp.encoded);
        } else if resp.invoiceNos[0] != "" {
          q := Confirmed(resp.invoiceNos[0], resp.encoded);
        } else {
          q := StillPending(resp.encoded);
        }
  }

  /** The history line of a publish that got its number, dated when the number was saved. */
  function CompletionLine(lineId: string, no: string, savedAt: Time): HistoryLine {
    HistoryLine(lineId, Change(Processing, Completed), "published to viettel, invoiceNo=" + no, "worker", savedAt)
  }

  /** The new history lines, if any, are by the worker and name the number that is on the row. */
  predicate WorkerNotes(before: seq<HistoryLine>, after: seq<HistoryLine>, row: Invoice) {
    forall k | |before| <= k < |after| ::
      && row.externalId.Some? && after[k].changedBy == "worker"
      && after[k].reason == "published to viettel, invoiceNo=" + row.externalId.value
  }

  class WorkerPool {
    const cfg: Config
    const issuer: IssuerConfig
    const seller: SellerInfo
    const repo: InvoiceRepo
    var queue: seq<Job>

    constructor (cfg: Config, issuer: IssuerConfig, seller: SellerInfo, repo: InvoiceRepo)
      ensures this.cfg == cfg && this.issuer == issuer && this.seller == seller && this.repo == repo && queue == []
    {
      this.cfg, this.issuer, this.seller, this.repo, queue := cfg, issuer, seller, repo, [];
    }

    ghost predicate Valid()
      reads this, repo
    {
      repo.Keyed() && |queue| <= cfg.queueSize
    }

    method Enqueue(job: Job) returns (err: Option<AppError>)
      requires Valid()
      modifies this`queue
      ensures Valid()
      ensures err == if |old(queue)| < cfg.queueSize then None else Some(QUEUE_FULL)
      ensures queue == if err.None? then old(queue) + [job] else old(queue)
    {
      if |queue| < cfg.queueSize {
        queue := queue + [job];
        return None;
      }
      return Some(QUEUE_FULL);
    }

    /** What a job does: all its steps in a row; nothing when there is no such invoice. */
    twostate predicate Handled(id: InvoiceId, start: Pc, env: nat -> Answer)
      reads this, repo
    {
      if id in old(repo.rows) then repo.EndsAs(id, RunToEnd(cfg.maxRetries, old(repo.LaneOf(id)), start, env, 0))
      else repo.rows == old(repo.rows) && repo.items == old(repo.items) && repo.history == old(repo.history)
    }

    /** A create request for the invoice as it was read, with all its items in line order. */
    ghost predicate Sends(call: IssuerCall, inv: Invoice, items: seq<InvoiceItem>, a: Answer) {
      && call.CreateCall?
      && exists loaded ::
           && multiset(loaded) == multiset(items) && InLineOrder(loaded)
           && RequestFor(call.request, inv, loaded, issuer, seller, a.now, a.fallback)
    }

    /** A worker receives the oldest job and handles it. */
    method Work(env: nat -> Answer) returns (job: Job, call: IssuerCall)
      requires Valid() && queue != []
      modifies this`queue, repo
      ensures Valid() && job == old(queue)[0] && queue == old(queue)[1..]
      ensures Handled(job.id, StartOf(job), env)
      ensures job.kind == PublishInvoice ==> !call.QueryCall?
      ensures call.CreateCall? ==>
                job.id in old(repo.rows)
                && Sends(call, old(repo.rows[job.id]), old(repo.ItemsOf(job.id)),
                         env(LoadCall(old(repo.rows[job.id])) + 1))
    {
      job := queue[0];
      queue := queue[1..];
      call := ProcessJob(job, env);
    }

    method ProcessJob(job: Job, env: nat -> Answer) returns (call: IssuerCall)
      requires Valid()
      modifies repo
      ensures Valid() && Handled(job.id, StartOf(job), env)
      ensures job.kind == PublishInvoice ==> !call.QueryCall?
      ensures call.CreateCall? ==>
                job.id in old(repo.rows)
                && Sends(call, old(repo.rows[job.id]), old(repo.ItemsOf(job.id)),
                         env(LoadCall(old(repo.rows[job.id])) + 1))
    {
      hide Sends;
      match job.kind
      case PublishInvoice => call := HandlePublish(job.id, env);
      case PollStatus => call := HandlePoll(job.id, env);
    }

    /** The row ends as `AfterPublish` says; a create request is sent exactly if the job gets that far with a
        valid request, and it is for this invoice. */
    method HandlePublish(id: InvoiceId, env: nat -> Answer) returns (call: IssuerCall)
      requires Valid()
      modifies repo
      ensures Valid() && Handled(id, PublishRead, env)
      ensures id in old(repo.rows) ==>
                repo.rows == old(repo.rows)[id := AfterPublish(cfg.maxRetries, old(repo.rows[id]), env)]
      ensures !call.QueryCall?
      ensures id in repo.rows ==> WorkerNotes(old(repo.LinesOf(id)), repo.LinesOf(id), repo.rows[id])
      ensures call.CreateCall? <==>
                && id in old(repo.rows)
                && var row := old(repo.rows[id]);
                   Begins(row, env) && env(LoadCall(row)).stored && env(LoadCall(row) + 1).valid
      ensures call.CreateCall? ==>
                Sends(call, old(repo.rows[id]), old(repo.ItemsOf(id)), env(LoadCall(old(repo.rows[id])) + 1))
    {
      hide StatusWritten, WrittenBack, ThreadStep, RunToEnd, QueryOutcome, CreateOutcome, LaneStep, ChangesOf, Sends,
           AfterPublish, AttemptNoted, WithNote;
      call := NoCall;
      if id in repo.rows {
        PublishReads(cfg.maxRetries, repo.LaneOf(id), env);
        PublishEnds(cfg.maxRetries, repo.LaneOf(id), env);
      }
      var read := repo.GetByID(id, env(0).stored);
      if read.Err? {
        return;
      }
      var inv := read.value;
      var isSubmitted := inv.status == Submitted;
      var isRecoverable := inv.status == Processing && (inv.externalId.None? || inv.externalId.value == "");
      if !isSubmitted && !isRecoverable {
        return;
      }
      ghost var lane := LaneStep(cfg.maxRetries, repo.LaneOf(id), PublishRead, env(0));
      call := PublishRow(id, inv, env, lane);
    }

    method PublishRow(id: InvoiceId, inv: Invoice, env: nat -> Answer, ghost lane: Lane) returns (call: IssuerCall)
      requires Valid() && repo.Stands(id, lane) && inv.id == id
      modifies repo
      ensures Valid()
      ensures repo.EndsAs(id, RunToEnd(cfg.maxRetries, lane,
                                       if inv.status == Submitted then MarkProcessing(inv) else LoadItems(inv), env, 1))
      ensures !call.QueryCall? && WorkerNotes(old(repo.LinesOf(id)), repo.LinesOf(id), repo.rows[id])
      ensures inv.status == Submitted ==>
                && (call.CreateCall? <==> env(1).stored && env(2).stored && env(3).valid)
                && (call.CreateCall? ==> Sends(call, inv, old(repo.ItemsOf(id)), env(3)))
      ensures inv.status != Submitted ==>
                && (call.CreateCall? <==> env(1).stored && env(2).valid)
                && (call.CreateCall? ==> Sends(call, inv, old(repo.ItemsOf(id)), env(2)))
    {
      hide StatusWritten, WrittenBack, RunToEnd, LaneStep, ChangesOf, Sends, WorkerNotes;
      if inv.status == Submitted {
        call := StartProcessing(id, inv, env, lane);
      } else {
        call := SendInvoice(id, inv, env, 1, lane);
      }
    }

    method StartProcessing(id: InvoiceId, inv: Invoice, env: nat -> Answer, ghost lane: Lane) returns (call: IssuerCall)
      requires Valid() && repo.Stands(id, lane) && inv.id == id
      modifies repo
      ensures Valid() && repo.EndsAs(id, RunToEnd(cfg.maxRetries, lane, MarkProcessing(inv), env, 1))
      ensures !call.QueryCall? && WorkerNotes(old(repo.LinesOf(id)), repo.LinesOf(id), repo.rows[id])
      ensures call.CreateCall? <==> env(1).stored && env(2).stored && env(3).valid
      ensures call.CreateCall? ==> Sends(call, inv, old(repo.ItemsOf(id)), env(3))
    {
      hide StatusWritten, WrittenBack, RunToEnd, QueryOutcome, CreateOutcome, LaneStep, ChangesOf, Sends;
      call := NoCall;
      var a := env(1);
      Unroll(cfg.maxRetries, lane, MarkProcessing(inv), env, 1);
      var err := repo.UpdateStatus(id, Processing, SendingToViettel, a.now, a.later, a.stored);
      if err.None? {
        call := SendInvoice(id, inv, env, 2, LaneStep(cfg.maxRetries, lane, MarkProcessing(inv), a));
      }
    }

    /** The rest of handlePublish once the invoice is processing. */
    method SendInvoice(id: InvoiceId, inv: Invoice, env: nat -> Answer, k: nat,
                       ghost lane: Lane) returns (call: IssuerCall)
      requires Valid() && repo.Stands(id, lane) && inv.id == id
      modifies repo
      ensures Valid() && repo.EndsAs(id, RunToEnd(cfg.maxRetries, lane, LoadItems(inv), env, k))
      ensures !call.QueryCall? && WorkerNotes(old(repo.LinesOf(id)), repo.LinesOf(id), repo.rows[id])
      ensures call.CreateCall? <==> env(k).stored && env(k + 1).valid
      ensures call.CreateCall? ==> Sends(call, inv, old(repo.ItemsOf(id)), env(k + 1))
    {
      hide StatusWritten, WrittenBack, RunToEnd, QueryOutcome, CreateOutcome, LaneStep, ChangesOf, RequestFor,
           InLineOrder;
      call := NoCall;
      var a := env(k);
      Unroll(cfg.maxRetries, lane, LoadItems(inv), env, k);
      ghost var lane1 := LaneStep(cfg.maxRetries, lane, LoadItems(inv), a);
      var loaded := repo.GetItemsByInvoiceID(id, a.stored);
      if loaded.Err? {
        FailUnloadable(id, env, k + 1, lane1);
        return;
      }
      call := CallPublisher(id, inv, loaded.value, env, k + 1, lane1);
    }

    method FailUnloadable(id: InvoiceId, env: nat -> Answer, k: nat, ghost lane: Lane)
      requires Valid() && repo.Stands(id, lane)
      modifies repo
      ensures Valid() && repo.EndsAs(id, RunToEnd(cfg.maxRetries, lane, MarkUnloadable, env, k))
      ensures repo.history == old(repo.history)
    {
      hide StatusWritten, WrittenBack, RunToEnd, QueryOutcome, CreateOutcome, LaneStep, ChangesOf;
      var a := env(k);
      Unroll(cfg.maxRetries, lane, MarkUnloadable, env, k);
      var _ := repo.UpdateStatus(id, Failed, ItemsNotLoaded, a.now, a.later, a.stored);
    }

    method CallPublisher(id: InvoiceId, inv: Invoice, items: seq<InvoiceItem>, env: nat -> Answer, k: nat,
                         ghost lane: Lane) returns (call: IssuerCall)
      requires Valid() && repo.Stands(id, lane) && inv.id == id
      modifies repo
      ensures Valid() && repo.EndsAs(id, RunToEnd(cfg.maxRetries, lane, CallCreate(inv), env, k))
      ensures !call.QueryCall? && WorkerNotes(old(repo.LinesOf(id)), repo.LinesOf(id), repo.rows[id])
      ensures call.CreateCall? <==> env(k).valid
      ensures call.CreateCall? ==> RequestFor(call.request, inv, items, issuer, seller, env(k).now, env(k).fallback)
    {
      hide StatusWritten, WrittenBack, ThreadStep, RunToEnd, QueryOutcome, CreateOutcome, LaneStep, AfterError,
           ChangesOf, CreateResultFor;
      var a := env(k);
      AttemptCalls(cfg.maxRetries, lane, inv, env, k);
      ghost var lane1 := LaneStep(cfg.maxRetries, lane, CallCreate(inv), a);
      var r, inv';
      r, inv', call := CreateInvoice(inv, items, issuer, seller, a);
      assert call.CreateCall? ==> call.request.general.transactionUuid == ChooseUuid(inv, a.fallback);
      hide RequestFor;
      if r.Err? {
        HandlePublishError(inv', r.error, env, k + 1, lane1);
        return;
      }
      if r.value != "" {
        SaveInvoiceNumber(id, inv', r.value, env, k + 1, lane1);
      }
    }

    method SaveInvoiceNumber(id: InvoiceId, copy: Invoice, no: string, env: nat -> Answer, k: nat, ghost lane: Lane)
      requires Valid() && repo.Stands(id, lane) && copy.id == id
      modifies repo
      ensures Valid() && repo.EndsAs(id, RunToEnd(cfg.maxRetries, lane, SaveNumber(copy, no), env, k))
      ensures repo.LinesOf(id) == old(repo.LinesOf(id))
                + if env(k).stored && env(k + 1).stored && env(k + 2).stored
                  then [HistoryLine(env(k + 2).fallback, Change(Processing, Completed),
                                    "published to viettel, invoiceNo=" + no, "worker", env(k).now)]
                  else []
      ensures env(k).stored ==> repo.rows[id].externalId == Some(no)
    {
      hide StatusWritten, WrittenBack, RunToEnd, QueryOutcome, CreateOutcome, LaneStep, ChangesOf;
      var a := env(k);
      Unroll(cfg.maxRetries, lane, SaveNumber(copy, no), env, k);
      var inv := copy.(externalId := Some(no));
      inv := inv.(completedAt := Some(a.now));
      inv := inv.(updatedAt := a.now);
      var err := repo.Update(inv, a.stored);
      if err.None? {
        CompleteInvoice(id, no, a.now, env, k + 1, LaneStep(cfg.maxRetries, lane, SaveNumber(copy, no), a));
      }
    }

    method CompleteInvoice(id: InvoiceId, no: string, savedAt: Time, env: nat -> Answer, k: nat, ghost lane: Lane)
      requires Valid() && repo.Stands(id, lane)
      modifies repo
      ensures Valid() && repo.EndsAs(id, RunToEnd(cfg.maxRetries, lane, MarkCompleted, env, k))
      ensures repo.LinesOf(id) == old(repo.LinesOf(id))
                + if env(k).stored && env(k + 1).stored then [CompletionLine(env(k + 1).fallback, no, savedAt)] else []
      ensures repo.rows[id].externalId == old(repo.rows[id].externalId)
    {
      hide StatusWritten, WrittenBack, ThreadStep, RunToEnd, QueryOutcome, CreateOutcome, LaneStep, ChangesOf;
      var a, a1 := env(k), env(k + 1);
      CompletionEnds(cfg.maxRetries, lane, env, k);
      var err := repo.UpdateStatus(id, Completed, PublishedToViettel, a.now, a.later, a.stored);
      if err.None? {
        var _ := repo.AddStatusHistory(id, CompletionLine(a1.fallback, no, savedAt), a1.stored);
      }
    }

    /** A failed attempt on the retry path: the copy is written back with the attempt counted, then the status
        is submitted again, or failed at the limit. Either write may be lost. */
    predicate Retried(failed: Invoice, error: AppError, before: Invoice, after: Invoice, a: Answer, b: Answer) {
      var last, kept := failed.retryCount + 1 >= cfg.maxRetries, if a.stored then failed else before;
      && after.retryCount == (if a.stored then failed.retryCount + 1 else before.retryCount)
      && after.status == (if !b.stored then before.status else if last then Failed else Submitted)
      && after.lastError == (if b.stored then Some(if last then MaxRetriesExceeded(error) else RetryPending(error))
                             else if a.stored then Some(PublishError(error)) else before.lastError)
      && after.updatedAt == (if b.stored then b.now else if a.stored then a.now else before.updatedAt)
      && after.submittedAt == (if b.stored && !last then Some(b.later) else kept.submittedAt)
      && after.externalId == kept.externalId && after.transactionUuid == kept.transactionUuid
      && after.content == kept.content && after.transactionHash == kept.transactionHash
      && after.completedAt == kept.completedAt && after.metadata == kept.metadata
      && after.id == before.id && after.createdAt == before.createdAt
    }

    /** The results of the writes are discarded. */
    method HandlePublishError(failed: Invoice, error: AppError, env: nat -> Answer, k: nat, ghost lane: Lane)
      requires Valid() && repo.Stands(failed.id, lane)
      modifies repo
      ensures Valid() && repo.EndsAs(failed.id, RunToEnd(cfg.maxRetries, lane, AfterError(failed, error), env, k))
      ensures repo.history == old(repo.history)
      ensures error.viettel.Some? && !error.viettel.value.retryable ==>
                if env(k).stored then
                  StatusWritten(repo.rows[failed.id], old(repo.rows[failed.id]), Failed,
                                NonRetryable(error.viettel.value),
                                env(k).now, env(k).later)
                else repo.rows == old(repo.rows)
      ensures error.viettel.None? || error.viettel.value.retryable ==>
                Retried(failed, error, old(repo.rows[failed.id]), repo.rows[failed.id], env(k), env(k + 1))
    {
      hide RunToEnd, QueryOutcome, CreateOutcome, LaneStep, ChangesOf, CreateStep, QueryStep;
      if error.viettel.Some? && !error.viettel.value.retryable {
        var a := env(k);
        Unroll(cfg.maxRetries, lane, MarkRejected(error.viettel.value), env, k);
        var _ := repo.UpdateStatus(failed.id, Failed, NonRetryable(error.viettel.value), a.now, a.later, a.stored);
      } else {
        CountRetry(failed, error, env, k, lane);
      }
    }

    method CountRetry(failed: Invoice, error: AppError, env: nat -> Answer, k: nat, ghost lane: Lane)
      requires Valid() && repo.Stands(failed.id, lane)
      requires error.viettel.Some? ==> error.viettel.value.retryable
      modifies repo
      ensures Valid() && repo.EndsAs(failed.id, RunToEnd(cfg.maxRetries, lane, AfterError(failed, error), env, k))
      ensures repo.history == old(repo.history)
      ensures Retried(failed, error, old(repo.rows[failed.id]), repo.rows[failed.id], env(k), env(k + 1))
    {
      hide RunToEnd, QueryOutcome, CreateOutcome, LaneStep, ChangesOf, CreateStep, QueryStep;
      var a := env(k);
      Unroll(cfg.maxRetries, lane, AfterError(failed, error), env, k);
      var inv := failed.(retryCount := failed.retryCount + 1);
      inv := inv.(lastError := Some(PublishError(error)));
      inv := inv.(updatedAt := a.now);
      var _ := repo.Update(inv, a.stored);
      RetryOrFail(inv, error, env, k + 1, LaneStep(cfg.maxRetries, lane, AfterError(failed, error), a));
    }

    method RetryOrFail(inv: Invoice, error: AppError, env: nat -> Answer, k: nat, ghost lane: Lane)
      requires Valid() && repo.Stands(inv.id, lane)
      modifies repo
      ensures Valid() && repo.EndsAs(inv.id, RunToEnd(cfg.maxRetries, lane,
                                                                   MarkAfterRetry(inv.retryCount, error), env, k))
      ensures repo.history == old(repo.history)
      ensures var failed := inv.retryCount >= cfg.maxRetries;
              if env(k).stored then
                StatusWritten(repo.rows[inv.id], old(repo.rows[inv.id]), if failed then Failed else Submitted,
                              if failed then MaxRetriesExceeded(error) else RetryPending(error),
                              env(k).now, env(k).later)
              else repo.rows == old(repo.rows)
    {
      hide RunToEnd, QueryOutcome, CreateOutcome, LaneStep, ChangesOf, CreateStep, QueryStep;
      var a := env(k);
      Unroll(cfg.maxRetries, lane, MarkAfterRetry(inv.retryCount, error), env, k);
      var status, reason := Submitted, RetryPending(error);
      if inv.retryCount >= cfg.maxRetries {
        status, reason := Failed, MaxRetriesExceeded(error);
      }
      var _ := repo.UpdateStatus(inv.id, status, reason, a.now, a.later, a.stored);
    }

    /** The row ends as `AfterPoll` says; the issuer is asked about this invoice's transactionUuid. */
    method HandlePoll(id: InvoiceId, env: nat -> Answer) returns (call: IssuerCall)
      requires Valid()
      modifies repo
      ensures Valid() && Handled(id, PollRead, env)
      ensures id in old(repo.rows) ==> repo.rows == old(repo.rows)[id := AfterPoll(old(repo.rows[id]), env)]
      ensures repo.history == old(repo.history)
      ensures call == if id in old(repo.rows) && env(0).stored && !Blank(old(repo.rows[id]).transactionUuid)
                      then QueryCall(old(repo.rows[id]).transactionUuid.value, issuer.supplierCode) else NoCall
    {
      hide StatusWritten, WrittenBack, ThreadStep, RunToEnd, QueryOutcome, CreateOutcome, LaneStep, ChangesOf;
      call := NoCall;
      if id in repo.rows {
        PollReads(cfg.maxRetries, repo.LaneOf(id), env);
        PollEnds(cfg.maxRetries, repo.LaneOf(id), env);
      }
      hide AfterPoll;
      var read := repo.GetByID(id, env(0).stored);
      if read.Err? {
        return;
      }
      var inv := read.value;
      if inv.transactionUuid.None? || inv.transactionUuid.value == "" {
        return;
      }
      call := AskIssuer(id, inv, env, LaneStep(cfg.maxRetries, repo.LaneOf(id), PollRead, env(0)));
    }

    method AskIssuer(id: InvoiceId, inv: Invoice, env: nat -> Answer, ghost lane: Lane) returns (call: IssuerCall)
      requires Valid() && repo.Stands(id, lane) && inv.id == id && inv.transactionUuid.Some?
      modifies repo
      ensures Valid() && repo.EndsAs(id, RunToEnd(cfg.maxRetries, lane, CallQuery(inv), env, 1))
      ensures repo.history == old(repo.history) && call == QueryCall(inv.transactionUuid.value, issuer.supplierCode)
    {
      hide StatusWritten, WrittenBack, ThreadStep, RunToEnd, QueryOutcome, CreateOutcome, LaneStep, ChangesOf,
           QueryResultFor;
      QueryCalls(cfg.maxRetries, lane, inv, env);
      ghost var lane1 := LaneStep(cfg.maxRetries, lane, CallQuery(inv), env(1));
      var q;
      q, call := QueryStatus(inv.transactionUuid.value, issuer, env(1));
      match q
      case QueryFailed(_) => return;
      case Confirmed(no, raw) =>
        ConfirmInvoice(id, inv, no, raw, env, 2, lane1);
      case StillPending(raw) =>
        RefreshInvoice(id, inv, raw, env, 2, lane1);
    }

    method ConfirmInvoice(id: InvoiceId, copy: Invoice, no: string, raw: string, env: nat -> Answer, k: nat,
                          ghost lane: Lane)
      requires Valid() && repo.Stands(id, lane) && copy.id == id
      modifies repo
      ensures Valid() && repo.EndsAs(id, RunToEnd(cfg.maxRetries, lane, SaveConfirmed(copy, no, raw), env, k))
      ensures repo.history == old(repo.history)
    {
      hide StatusWritten, WrittenBack, RunToEnd, QueryOutcome, CreateOutcome, LaneStep, ChangesOf;
      var a := env(k);
      Unroll(cfg.maxRetries, lane, SaveConfirmed(copy, no, raw), env, k);
      ghost var lane1 := LaneStep(cfg.maxRetries, lane, SaveConfirmed(copy, no, raw), a);
      var inv := copy.(externalId := Some(no));
      inv := inv.(completedAt := Some(a.now));
      inv := inv.(metadata := Some(raw));
      inv := inv.(updatedAt := a.now);
      var _ := repo.Update(inv, a.stored);
      CompletePolled(id, no, env, k + 1, lane1);
    }

    method CompletePolled(id: InvoiceId, no: string, env: nat -> Answer, k: nat, ghost lane: Lane)
      requires Valid() && repo.Stands(id, lane)
      modifies repo
      ensures Valid() && repo.EndsAs(id, RunToEnd(cfg.maxRetries, lane, MarkConfirmed(no), env, k))
      ensures repo.history == old(repo.history)
    {
      hide StatusWritten, WrittenBack, RunToEnd, QueryOutcome, CreateOutcome, LaneStep, ChangesOf;
      var a := env(k);
      Unroll(cfg.maxRetries, lane, MarkConfirmed(no), env, k);
      var _ := repo.UpdateStatus(id, Completed, ViettelConfirmed(no), a.now, a.later, a.stored);
    }

    method RefreshInvoice(id: InvoiceId, copy: Invoice, raw: string, env: nat -> Answer, k: nat, ghost lane: Lane)
      requires Valid() && repo.Stands(id, lane) && copy.id == id
      modifies repo
      ensures Valid() && repo.EndsAs(id, RunToEnd(cfg.maxRetries, lane, SavePending(copy, raw), env, k))
      ensures repo.history == old(repo.history)
    {
      hide StatusWritten, WrittenBack, RunToEnd, QueryOutcome, CreateOutcome, LaneStep, ChangesOf;
      var a := env(k);
      Unroll(cfg.maxRetries, lane, SavePending(copy, raw), env, k);
      var inv := copy.(metadata := Some(raw));
      inv := inv.(updatedAt := a.now);
      var _ := repo.Update(inv, a.stored);
    }

    /** The jobs for the pending rows in order, until the queue is full. */
    method PollPendingInvoices(stored: bool)
      requires Valid()
      modifies this`queue
      ensures Valid()
      ensures exists picked ::
                (if stored then OldestPending(repo.rows, picked, cfg.queueSize) else picked == [])
                && queue == old(queue) + JobsFor(picked)[..Min(|picked|, cfg.queueSize - |old(queue)|)]
    {
      var read := repo.GetPendingPolling(cfg.queueSize, stored);
      if read.Err? {
        assert queue == queue + JobsFor([])[..Min(0, cfg.queueSize - |queue|)];
        return;
      }
      var picked := read.value;
      var k := 0;
      while k < |picked|
        invariant Valid() && 0 <= k <= |picked| && k <= cfg.queueSize - |old(queue)|
        invariant queue == old(queue) + JobsFor(picked)[..k]
      {
        var kind := PublishInvoice;
        if picked[k].status == Processing {
          kind := PollStatus;
        }
        var err := Enqueue(Job(kind, picked[k].id));
        if err.Some? {
          break;
        }
        k := k + 1;
      }
      assert k == Min(|picked|, cfg.queueSize - |old(queue)|);
    }
  }

  function Min(a: int, b: int): int {
    if a < b then a else b
  }

  /** submitted: still to be published; processing: ask for the number. */
  function JobsFor(picked: seq<Invoice>): (jobs: seq<Job>)
    ensures |jobs| == |picked|
  {
    seq(|picked|, k requires 0 <= k < |picked| => PollerJob(picked[k]))
  }
}
