/** internal/service/invoice_service.go: the API calls that write. */
module Service {
  import opened Domain
  import opened Rows
  import opened Steps
  import opened Solo
  import opened Endings
  import opened Repository
  import opened Pool

  const NOT_DRAFT := AppError(Validation, "transaction hash can only be updated on draft invoices", None)

  /** The items as they are stored: the caller's, in order, with new ids, owned by the invoice, created now. */
  predicate OwnedBy(items: seq<InvoiceItem>, lines: seq<InvoiceItem>, id: InvoiceId, itemIds: nat -> string,
                    now: Time) {
    && |items| == |lines|
    && forall k: nat | k < |items| ::
         && items[k].id == itemIds(k) && items[k].invoiceId == id && items[k].createdAt == now
         && lines[k] == items[k].(id := lines[k].id, invoiceId := lines[k].invoiceId, createdAt := lines[k].createdAt)
  }

  /** The history line of an accepted submit. */
  function SubmissionLine(lineId: string, from: Status, now: Time): HistoryLine {
    HistoryLine(lineId, Change(from, Submitted), "submitted via API", "api", now)
  }

  class InvoiceService {
    const repo: InvoiceRepo
    const pool: WorkerPool

    constructor (repo: InvoiceRepo, pool: WorkerPool)
      ensures this.repo == repo && this.pool == pool
    {
      this.repo, this.pool := repo, pool;
    }

    /** Saves a draft with its items, or nothing. What the handler passes in becomes the row the runs
        start from. */
    method CreateInvoice(draft: Invoice, lines: seq<InvoiceItem>, id: InvoiceId, uuid: string, itemIds: nat -> string,
                         now: Time, env: InsertEnv) returns (err: Option<AppError>)
      modifies repo
      ensures err.None? <==>
                && env.begun && env.inserted && env.committed && (forall k: nat | k < |lines| :: env.itemInserted(k))
                && id !in old(repo.rows)
                && (forall other | other in old(repo.rows) :: old(repo.rows[other]).transactionUuid != Some(uuid))
      ensures err.Some? ==> repo.rows == old(repo.rows) && repo.items == old(repo.items)
      ensures err.None? ==>
                && id in repo.rows && repo.rows == old(repo.rows)[id := repo.rows[id]]
                && id in repo.items && repo.items == old(repo.items)[id := repo.items[id]]
      ensures err.None? ==>
                var row := repo.rows[id];
                && row.id == id && row.status == Draft && row.transactionUuid == Some(uuid)
                && row.content == draft.content && row.transactionHash == draft.transactionHash
                && row.externalId == draft.externalId && row.metadata == draft.metadata
                && row.createdAt == now && row.updatedAt == now
                && row.submittedAt.None? && row.completedAt.None? && row.retryCount == 0 && row.lastError.None?
      ensures err.None? ==> OwnedBy(repo.items[id], lines, id, itemIds, now)
      ensures err.None? && draft.externalId.None? && draft.metadata.None? ==>
                repo.rows[id] == NewInvoice(id, uuid, draft.content, draft.transactionHash, now)
    {
      var inv := draft.(id := id, status := Draft, createdAt := now, updatedAt := now);
      inv := inv.(transactionUuid := Some(uuid));
      var owned: seq<InvoiceItem> := [];
      for k := 0 to |lines|
        invariant OwnedBy(owned, lines[..k], id, itemIds, now)
      {
        var item := lines[k].(id := itemIds(k));
        item := item.(invoiceId := id);
        item := item.(createdAt := now);
        owned := owned + [item];
      }
      assert lines[..|lines|] == lines;
      err := repo.CreateWithItems(inv, owned, env);
    }

    method UpdateTransactionHash(id: InvoiceId, hash: string, env: nat -> Answer) returns (err: Option<AppError>)
      requires repo.Keyed()
      modifies repo
      ensures repo.Keyed()
      ensures if id in old(repo.rows) then repo.EndsAs(id, RunToEnd(0, old(repo.LaneOf(id)), HashRead(hash), env, 0))
              else repo.rows == old(repo.rows) && repo.history == old(repo.history)
      ensures err.None? <==>
                env(0).stored && id in old(repo.rows) && old(repo.rows[id]).status == Draft && env(1).stored
      ensures err.None? ==> repo.rows[id].transactionHash == hash
      ensures id in old(repo.rows) ==> repo.rows == old(repo.rows)[id := AfterHashUpdate(old(repo.rows[id]), hash, env)]
      ensures repo.history == old(repo.history)
    {
      hide StatusWritten, HashWritten, ChangesOf, ThreadStep, RunToEnd, LaneStep, CreateStep, QueryStep,
           CanTransitionTo;
      ghost var known := id in repo.rows;
      if known {
        HashUpdateEnds(0, repo.LaneOf(id), hash, env);
        HashReads(0, repo.LaneOf(id), hash, env);
      }
      var read := repo.GetByID(id, env(0).stored);
      if read.Err? {
        return Some(read.error);
      }
      if read.value.status != Draft {
        return Some(NOT_DRAFT);
      }
      err := WriteHashOf(id, hash, env, LaneStep(0, repo.LaneOf(id), HashRead(hash), env(0)));
    }

    method WriteHashOf(id: InvoiceId, hash: string, env: nat -> Answer,
                       ghost lane: Lane) returns (err: Option<AppError>)
      requires repo.Keyed() && repo.Stands(id, lane)
      modifies repo
      ensures repo.Keyed() && repo.EndsAs(id, RunToEnd(0, lane, HashWrite(hash), env, 1))
      ensures (err.None? <==> env(1).stored) && (err.None? ==> repo.rows[id].transactionHash == hash)
      ensures repo.history == old(repo.history)
    {
      hide StatusWritten, HashWritten, ChangesOf, RunToEnd, LaneStep, CreateStep, QueryStep, CanTransitionTo;
      Unroll(0, lane, HashWrite(hash), env, 1);
      err := repo.UpdateTransactionHash(id, hash, env(1).now, env(1).stored);
    }

    /** Accepts draft and failed invoices only; a queue that is full is not reported. */
    method SubmitInvoice(id: InvoiceId, env: nat -> Answer) returns (err: Option<AppError>)
      requires pool.Valid() && pool.repo == repo
      modifies repo, pool`queue
      ensures pool.Valid()
      ensures if id in old(repo.rows) then repo.EndsAs(id, RunToEnd(0, old(repo.LaneOf(id)), SubmitRead, env, 0))
              else repo.rows == old(repo.rows) && repo.history == old(repo.history)
      ensures err.None? <==>
                env(0).stored && id in old(repo.rows) && FromDraftOrFailed(old(repo.rows[id]).status) && env(1).stored
      ensures env(0).stored && id in old(repo.rows) && !FromDraftOrFailed(old(repo.rows[id]).status) ==>
                err.Some? && err.value.code == InvalidTransition
      ensures err.Some? ==> err.value.code != QueueFull
      ensures id in old(repo.rows) ==> repo.rows == old(repo.rows)[id := AfterSubmit(old(repo.rows[id]), env)]
      ensures repo.LinesOf(id) == old(repo.LinesOf(id))
                + if err.None? && env(2).stored
                  then [HistoryLine(env(2).fallback, Change(old(repo.rows[id]).status, Submitted), "submitted via API",
                                    "api", env(2).now)]
                  else []
      ensures pool.queue == if err.None? && |old(pool.queue)| < pool.cfg.queueSize
                            then old(pool.queue) + [Job(PublishInvoice, id)] else old(pool.queue)
    {
      hide StatusWritten, HashWritten, ChangesOf, ThreadStep, RunToEnd, LaneStep, CreateStep, QueryStep;
      if id in repo.rows {
        SubmitReads(0, repo.LaneOf(id), env);
        SubmitEnds(0, repo.LaneOf(id), env);
        CanSubmit(repo.rows[id].status);
      }
      hide CanTransitionTo;
      var read := repo.GetByID(id, env(0).stored);
      if read.Err? {
        return Some(read.error);
      }
      var from := read.value.status;
      if !CanTransitionTo(from, Submitted) {
        return Some(AppError(InvalidTransition, "", None));
      }
      ghost var lane1 := LaneStep(0, repo.LaneOf(id), SubmitRead, env(0));
      err := WriteSubmitted(id, from, env, lane1);
      if err.Some? {
        return;
      }
      var full := pool.Enqueue(Job(PublishInvoice, id));
      return None;
    }

    method WriteSubmitted(id: InvoiceId, from: Status, env: nat -> Answer,
                          ghost lane: Lane) returns (err: Option<AppError>)
      requires repo.Keyed() && repo.Stands(id, lane)
      modifies repo
      ensures repo.Keyed() && repo.EndsAs(id, RunToEnd(0, lane, MarkSubmitted(from), env, 1))
      ensures err.None? <==> env(1).stored
      ensures err.Some? ==> err.value == DB_ERROR
      ensures repo.LinesOf(id) == old(repo.LinesOf(id))
                + if env(1).stored && env(2).stored then [SubmissionLine(env(2).fallback, from, env(2).now)] else []
    {
      hide StatusWritten, HashWritten, ChangesOf, RunToEnd, LaneStep, CreateStep, QueryStep, CanTransitionTo;
      var a := env(1);
      Unroll(0, lane, MarkSubmitted(from), env, 1);
      ghost var lane2 := LaneStep(0, lane, MarkSubmitted(from), a);
      err := repo.UpdateStatus(id, Submitted, SubmittedViaApi, a.now, a.later, a.stored);
      if err.Some? {
        return;
      }
      RecordSubmission(id, from, env, lane2);
      return None;
    }

    method RecordSubmission(id: InvoiceId, from: Status, env: nat -> Answer, ghost lane: Lane)
      requires repo.Keyed() && repo.Stands(id, lane)
      modifies repo
      ensures repo.Keyed() && repo.EndsAs(id, RunToEnd(0, lane, RecordSubmitted(from), env, 2))
      ensures repo.LinesOf(id) == old(repo.LinesOf(id))
                + if env(2).stored then [SubmissionLine(env(2).fallback, from, env(2).now)] else []
    {
      hide StatusWritten, HashWritten, ChangesOf, ThreadStep, RunToEnd, LaneStep, CreateStep, QueryStep,
           CanTransitionTo;
      NoteEnds(0, lane, from, env);
      var _ := repo.AddStatusHistory(id, SubmissionLine(env(2).fallback, from, env(2).now), env(2).stored);
    }
  }
}
