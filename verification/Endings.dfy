/** What each job and API call leaves behind when nothing interferes with it: row and history as a function of
    the answers, written down without reference to the steps, and proved to be where the steps end. */
module Endings {
  import opened Domain
  import opened Viettel
  import opened Rows
  import opened Steps
  import opened System
  import opened Interleaving
  import opened Solo

  // ---------- What is left behind ----------

  predicate Publishable(row: Invoice) {
    row.status == Submitted || (row.status == Processing && Blank(row.externalId))
  }

  function AttemptError(a: Answer): AppError {
    if a.valid && CreateOutcome(a.reply).Err? then CreateOutcome(a.reply).error else INVALID_REQUEST
  }

  /** The number of an attempt that got one. */
  predicate Numbered(a: Answer) {
    a.valid && Created(a.reply) && a.reply.body.asCreate.value.invoiceNo != ""
  }

  predicate Rejected(a: Answer) {
    a.valid && FinalAnswer(a.reply)
  }

  /** The attempt goes to the retry path. */
  predicate Retries(a: Answer) {
    !a.valid || (!Created(a.reply) && !FinalAnswer(a.reply))
  }

  function UuidAfter(row: Invoice, a: Answer): Option<string> {
    if a.valid && Blank(row.transactionUuid) then Some(a.fallback) else row.transactionUuid
  }

  /** The row after a create attempt, with the answers to it and to the two writes that follow; `lastError`
      is the one in the caller's copy. */
  function AfterAttempt(maxRetries: int, row: Invoice, lastError: Option<Reason>, a: Answer, b: Answer,
                        c: Answer): Invoice {
    if Numbered(a) then
      if !b.stored then row
      else
        var saved := row.(externalId := Some(a.reply.body.asCreate.value.invoiceNo), completedAt := Some(b.now),
                          transactionUuid := UuidAfter(row, a), lastError := lastError, updatedAt := b.now);
        if !c.stored then saved
        else saved.(status := Completed, completedAt := Some(c.later), lastError := Some(PublishedToViettel),
                   updatedAt := c.now)
    else if Rejected(a) then
      if !b.stored then row
      else row.(status := Failed, lastError := Some(NonRetryable(ParseViettelError(a.reply.body))), updatedAt := b.now)
    else if Retries(a) then
      var counted :=
        if !b.stored then row
        else row.(retryCount := row.retryCount + 1, transactionUuid := UuidAfter(row, a),
                  lastError := Some(PublishError(AttemptError(a))), updatedAt := b.now);
      if !c.stored then counted
      else if row.retryCount + 1 >= maxRetries then
        counted.(status := Failed, lastError := Some(MaxRetriesExceeded(AttemptError(a))), updatedAt := c.now)
      else
        counted.(status := Submitted, submittedAt := Some(c.later), lastError := Some(RetryPending(AttemptError(a))),
                 updatedAt := c.now)
    else row
  }

  /** The row after the items have been asked for, by the k-th call. */
  function AfterLoad(maxRetries: int, row: Invoice, lastError: Option<Reason>, env: nat -> Answer, k: nat): Invoice {
    if env(k).stored then AfterAttempt(maxRetries, row, lastError, env(k + 1), env(k + 2), env(k + 3))
    else if env(k + 1).stored then
      row.(status := Failed, lastError := Some(ItemsNotLoaded), updatedAt := env(k + 1).now)
    else row
  }

  function AfterPublish(maxRetries: int, row: Invoice, env: nat -> Answer): Invoice {
    if !env(0).stored || !Publishable(row) then row
    else if row.status == Processing then AfterLoad(maxRetries, row, row.lastError, env, 1)
    else if !env(1).stored then row
    else
      AfterLoad(maxRetries, row.(status := Processing, lastError := Some(SendingToViettel), updatedAt := env(1).now),
                row.lastError, env, 2)
  }

  function AfterPoll(row: Invoice, env: nat -> Answer): Invoice {
    if !env(0).stored || Blank(row.transactionUuid) || !Searched(env(1).reply) then row
    else
      var found := env(1).reply.body.asSearch.value;
      var seen := if env(2).stored then row.(metadata := Some(found.encoded), updatedAt := env(2).now) else row;
      if !Found(env(1).reply) then seen
      else
        var no := found.invoiceNos[0];
        var saved := if env(2).stored then seen.(externalId := Some(no), completedAt := Some(env(2).now)) else seen;
        if !env(3).stored then saved
        else
          saved.(status := Completed, completedAt := Some(env(3).later), lastError := Some(ViettelConfirmed(no)),
                 updatedAt := env(3).now)
  }

  function AfterSubmit(row: Invoice, env: nat -> Answer): Invoice {
    if env(0).stored && (row.status == Draft || row.status == Failed) && env(1).stored then
      row.(status := Submitted, submittedAt := Some(env(1).later), lastError := Some(SubmittedViaApi),
           updatedAt := env(1).now)
    else row
  }

  function AfterHashUpdate(row: Invoice, hash: string, env: nat -> Answer): Invoice {
    if env(0).stored && row.status == Draft && env(1).stored then row.(transactionHash := hash, updatedAt := env(1).now)
    else row
  }

  // ---------- How the jobs begin ----------

  predicate Stays(lane: Lane, lane': Lane) {
    lane'.row == lane.row && lane'.history == lane.history
  }

  /** The program point after a publish job has read the row. */
  function AfterPublishRead(row: Invoice, a: Answer): Pc {
    if !a.stored || !Publishable(row) then Done
    else if row.status == Submitted then MarkProcessing(row) else LoadItems(row)
  }

  lemma PublishReads(maxRetries: int, lane: Lane, env: nat -> Answer)
    ensures var lane1, pc := LaneStep(maxRetries, lane, PublishRead, env(0)), AfterPublishRead(lane.row, env(0));
            && Stays(lane, lane1)
            && RunToEnd(maxRetries, lane, PublishRead, env, 0)
               == if pc == Done then lane1 else RunToEnd(maxRetries, lane1, pc, env, 1)
  {
    hide LaneStep, RunToEnd, CreateStep, QueryStep;
    Unroll(maxRetries, lane, PublishRead, env, 0);
  }

  lemma PollReads(maxRetries: int, lane: Lane, env: nat -> Answer)
    ensures var lane1 := LaneStep(maxRetries, lane, PollRead, env(0));
            && Stays(lane, lane1)
            && RunToEnd(maxRetries, lane, PollRead, env, 0)
               == if !env(0).stored || Blank(lane.row.transactionUuid) then lane1
                  else RunToEnd(maxRetries, lane1, CallQuery(lane.row), env, 1)
  {
    hide LaneStep, RunToEnd, CreateStep, QueryStep;
    Unroll(maxRetries, lane, PollRead, env, 0);
  }

  lemma SubmitReads(maxRetries: int, lane: Lane, env: nat -> Answer)
    ensures var lane1 := LaneStep(maxRetries, lane, SubmitRead, env(0));
            && Stays(lane, lane1)
            && RunToEnd(maxRetries, lane, SubmitRead, env, 0)
               == if env(0).stored && FromDraftOrFailed(lane.row.status)
                  then RunToEnd(maxRetries, lane1, MarkSubmitted(lane.row.status), env, 1) else lane1
  {
    hide LaneStep, RunToEnd, CreateStep, QueryStep, CanTransitionTo;
    CanSubmit(lane.row.status);
    Unroll(maxRetries, lane, SubmitRead, env, 0);
  }

  lemma HashReads(maxRetries: int, lane: Lane, hash: string, env: nat -> Answer)
    ensures var lane1 := LaneStep(maxRetries, lane, HashRead(hash), env(0));
            && Stays(lane, lane1)
            && RunToEnd(maxRetries, lane, HashRead(hash), env, 0)
               == if env(0).stored && lane.row.status == Draft then RunToEnd(maxRetries, lane1, HashWrite(hash), env, 1)
                  else lane1
  {
    hide LaneStep, RunToEnd, CreateStep, QueryStep;
    Unroll(maxRetries, lane, HashRead(hash), env, 0);
  }

  /** The program point after a create attempt. */
  function AfterCall(copy: Invoice, a: Answer): Pc {
    if !a.valid then AfterError(copy, INVALID_REQUEST)
    else
      var copy' := copy.(transactionUuid := Some(ChooseUuid(copy, a.fallback)));
      match CreateOutcome(a.reply)
      case Err(e) => AfterError(copy', e)
      case Ok(no) => if no == "" then Done else SaveNumber(copy', no)
  }

  lemma AttemptCalls(maxRetries: int, lane: Lane, copy: Invoice, env: nat -> Answer, k: nat)
    ensures var lane1, end := LaneStep(maxRetries, lane, CallCreate(copy), env(k)),
                            RunToEnd(maxRetries, lane, CallCreate(copy), env, k);
            && Stays(lane, lane1)
            && end == RunToEnd(maxRetries, lane1, AfterCall(copy, env(k)), env, k + 1)
            && (AfterCall(copy, env(k)) == Done ==> end == lane1)
  {
    hide LaneStep, CreateOutcome;
    Unroll(maxRetries, lane, CallCreate(copy), env, k);
  }

  lemma QueryCalls(maxRetries: int, lane: Lane, copy: Invoice, env: nat -> Answer)
    ensures var lane1, q := LaneStep(maxRetries, lane, CallQuery(copy), env(1)), QueryOutcome(env(1).reply);
            && Stays(lane, lane1)
            && RunToEnd(maxRetries, lane, CallQuery(copy), env, 1)
               == match q
                  case QueryFailed(_) => lane1
                  case StillPending(raw) => RunToEnd(maxRetries, lane1, SavePending(copy, raw), env, 2)
                  case Confirmed(no, raw) => RunToEnd(maxRetries, lane1, SaveConfirmed(copy, no, raw), env, 2)
  {
    hide LaneStep, RunToEnd, QueryOutcome;
    Unroll(maxRetries, lane, CallQuery(copy), env, 1);
  }

  // ---------- The steps end there ----------

  lemma OutcomesAre(a: Answer)
    ensures CreateOutcome(a.reply).Ok? <==> Created(a.reply)
    ensures CreateOutcome(a.reply).Ok? ==> CreateOutcome(a.reply).value == a.reply.body.asCreate.value.invoiceNo
    ensures CreateOutcome(a.reply).Err? ==>
              var v := CreateOutcome(a.reply).error.viettel;
              && (v.Some? && !v.value.retryable <==> FinalAnswer(a.reply))
              && (FinalAnswer(a.reply) ==> v == Some(ParseViettelError(a.reply.body)))
    ensures FinalAnswer(a.reply) ==> !Created(a.reply)
  {
    CreateAnswered(a.reply);
    FinalRejections(a.reply);
    hide FINAL_MESSAGES, ParseViettelError, ParsedFrom;
  }

  /** The copy is the row as it was read, before its status changed. */
  predicate CopyFor(copy: Invoice, row: Invoice, uuid: Option<string>, lastError: Option<Reason>) {
    copy == row.(status := copy.status, lastError := lastError, updatedAt := copy.updatedAt, transactionUuid := uuid)
  }

  lemma SaveEnds(maxRetries: int, lane: Lane, copy: Invoice, lastError: Option<Reason>, no: string, env: nat -> Answer,
                 k: nat)
    requires CopyFor(copy, lane.row, copy.transactionUuid, lastError)
    ensures var lane' := RunToEnd(maxRetries, lane, SaveNumber(copy, no), env, k);
            if !env(k).stored then Stays(lane, lane')
            else
              var saved := lane.row.(externalId := Some(no), completedAt := Some(env(k).now),
                                     transactionUuid := copy.transactionUuid, lastError := lastError,
                                     updatedAt := env(k).now);
              && lane'.row == (if !env(k + 1).stored then saved
                               else saved.(status := Completed, completedAt := Some(env(k + 1).later),
                                           lastError := Some(PublishedToViettel), updatedAt := env(k + 1).now))
              && lane'.history == if env(k + 1).stored
              && env(k + 2).stored then lane.history + [Change(Processing, Completed)]
                                  else lane.history
  {
    hide LaneStep, RunToEnd, CreateStep, QueryStep;
    Unroll(maxRetries, lane, SaveNumber(copy, no), env, k);
    if env(k).stored {
      CompletionEnds(maxRetries, LaneStep(maxRetries, lane, SaveNumber(copy, no), env(k)), env, k + 1);
    }
  }

  lemma CompletionEnds(maxRetries: int, lane: Lane, env: nat -> Answer, k: nat)
    ensures var lane' := RunToEnd(maxRetries, lane, MarkCompleted, env, k);
            && lane'.row == (if !env(k).stored then lane.row
                             else lane.row.(status := Completed, completedAt := Some(env(k).later),
                                            lastError := Some(PublishedToViettel), updatedAt := env(k).now))
            && lane'.history == if env(k).stored
            && env(k + 1).stored then lane.history + [Change(Processing, Completed)]
                                else lane.history
  {
    hide LaneStep, RunToEnd, CreateStep, QueryStep;
    Unroll(maxRetries, lane, MarkCompleted, env, k);
    if env(k).stored {
      Unroll(maxRetries, LaneStep(maxRetries, lane, MarkCompleted, env(k)), RecordCompleted, env, k + 1);
    }
  }

  lemma RejectionEnds(maxRetries: int, lane: Lane, v: ViettelError, env: nat -> Answer, k: nat)
    ensures var lane' := RunToEnd(maxRetries, lane, MarkRejected(v), env, k);
            && lane'.history == lane.history
            && lane'.row == if !env(k).stored then lane.row
                            else lane.row.(status := Failed, lastError := Some(NonRetryable(v)),
                                            updatedAt := env(k).now)
  {
    hide LaneStep, RunToEnd, CreateStep, QueryStep;
    Unroll(maxRetries, lane, MarkRejected(v), env, k);
  }

  lemma RetryEnds(maxRetries: int, lane: Lane, copy: Invoice, error: AppError, env: nat -> Answer, k: nat)
    requires CopyFor(copy, lane.row.(retryCount := lane.row.retryCount + 1), copy.transactionUuid, copy.lastError)
    ensures var lane' := RunToEnd(maxRetries, lane, SaveRetry(copy, error), env, k);
            && lane'.history == lane.history
            && var counted :=
                 if !env(k).stored then lane.row
                 else lane.row.(retryCount := lane.row.retryCount + 1, transactionUuid := copy.transactionUuid,
                                lastError := copy.lastError, updatedAt := env(k).now);
               lane'.row ==
               if !env(k + 1).stored then counted
               else if lane.row.retryCount + 1 >= maxRetries then
                 counted.(status := Failed, lastError := Some(MaxRetriesExceeded(error)), updatedAt := env(k + 1).now)
               else
                 counted.(status := Submitted, submittedAt := Some(env(k + 1).later),
                          lastError := Some(RetryPending(error)),
                          updatedAt := env(k + 1).now)
  {
    hide LaneStep, RunToEnd, CreateStep, QueryStep;
    Unroll(maxRetries, lane, SaveRetry(copy, error), env, k);
    Unroll(maxRetries, LaneStep(maxRetries, lane, SaveRetry(copy, error), env(k)),
           MarkAfterRetry(copy.retryCount, error),
           env, k + 1);
  }

  /** The create attempt made by the k-th call is noted in the history. */
  predicate AttemptNoted(env: nat -> Answer, k: nat) {
    Numbered(env(k)) && env(k + 1).stored && env(k + 2).stored && env(k + 3).stored
  }

  function WithNote(history: seq<Change>, noted: bool): seq<Change> {
    if noted then history + [Change(Processing, Completed)] else history
  }

  /** Where a create attempt leads, by what became of it. */
  lemma AttemptGoes(copy: Invoice, a: Answer)
    ensures var uuid := if a.valid then Some(ChooseUuid(copy, a.fallback)) else copy.transactionUuid;
            var copy', pc := copy.(transactionUuid := uuid), AfterCall(copy, a);
            && (Numbered(a) ==> pc == SaveNumber(copy', a.reply.body.asCreate.value.invoiceNo))
            && (Rejected(a) ==> a.reply.Http? && pc == MarkRejected(ParseViettelError(a.reply.body)))
            && (Retries(a) ==>
                  pc == SaveRetry(copy'.(retryCount := copy.retryCount + 1,
                                          lastError := Some(PublishError(AttemptError(a)))),
                                  AttemptError(a)))
            && (!Numbered(a) && !Rejected(a) && !Retries(a) ==> pc == Done)
  {
    OutcomesAre(a);
    hide CreateOutcome, ParseViettelError, FINAL_MESSAGES;
  }

  lemma AttemptEnds(maxRetries: int, lane: Lane, copy: Invoice, lastError: Option<Reason>, env: nat -> Answer, k: nat)
    requires CopyFor(copy, lane.row, lane.row.transactionUuid, lastError)
    ensures var lane' := RunToEnd(maxRetries, lane, CallCreate(copy), env, k);
            && lane'.row == AfterAttempt(maxRetries, lane.row, lastError, env(k), env(k + 1), env(k + 2))
            && lane'.history == WithNote(lane.history, AttemptNoted(env, k))
  {
    var a := env(k);
    AttemptGoes(copy, a);
    AttemptCalls(maxRetries, lane, copy, env, k);
    hide LaneStep, RunToEnd, ThreadStep, FinalAnswer, Created, ParseViettelError, AttemptError, AfterCall;
    var lane1, pc := LaneStep(maxRetries, lane, CallCreate(copy), a), AfterCall(copy, a);
    if Numbered(a) {
      SaveEnds(maxRetries, lane1, pc.copy, lastError, pc.no, env, k + 1);
    } else if Rejected(a) {
      RejectionEnds(maxRetries, lane1, pc.rejection, env, k + 1);
    } else if Retries(a) {
      RetryEnds(maxRetries, lane1, pc.copy, pc.error, env, k + 1);
    }
  }

  lemma LoadEnds(maxRetries: int, lane: Lane, copy: Invoice, lastError: Option<Reason>, env: nat -> Answer, k: nat)
    requires CopyFor(copy, lane.row, lane.row.transactionUuid, lastError)
    ensures var lane' := RunToEnd(maxRetries, lane, LoadItems(copy), env, k);
            && lane'.row == AfterLoad(maxRetries, lane.row, lastError, env, k)
            && lane'.history == WithNote(lane.history, env(k).stored && AttemptNoted(env, k + 1))
  {
    hide LaneStep, RunToEnd, CreateStep, QueryStep, AfterAttempt, AttemptNoted;
    Unroll(maxRetries, lane, LoadItems(copy), env, k);
    var lane1 := LaneStep(maxRetries, lane, LoadItems(copy), env(k));
    if env(k).stored {
      AttemptEnds(maxRetries, lane1, copy, lastError, env, k + 1);
    } else {
      Unroll(maxRetries, lane1, MarkUnloadable, env, k + 1);
    }
  }

  /** The call of a publish job that asks for the items. */
  function LoadCall(row: Invoice): nat {
    if row.status == Processing then 1 else 2
  }

  /** The publish job gets as far as asking for the items. */
  predicate Begins(row: Invoice, env: nat -> Answer) {
    env(0).stored && Publishable(row) && (row.status == Processing || env(1).stored)
  }

  /** A whole publish job: the row in every column, and the history. */
  lemma PublishEnds(maxRetries: int, lane: Lane, env: nat -> Answer)
    ensures var lane', k := RunToEnd(maxRetries, lane, PublishRead, env, 0), LoadCall(lane.row);
            && lane'.row == AfterPublish(maxRetries, lane.row, env)
            && lane'.history == WithNote(lane.history,
                                        Begins(lane.row, env) && env(k).stored && AttemptNoted(env, k + 1))
  {
    PublishReads(maxRetries, lane, env);
    hide LaneStep, RunToEnd, CreateStep, QueryStep, AfterLoad, AttemptNoted;
    if env(0).stored && Publishable(lane.row) {
      var lane1 := LaneStep(maxRetries, lane, PublishRead, env(0));
      if lane.row.status == Processing {
        LoadEnds(maxRetries, lane1, lane.row, lane.row.lastError, env, 1);
      } else {
        Unroll(maxRetries, lane1, MarkProcessing(lane.row), env, 1);
        if env(1).stored {
          LoadEnds(maxRetries, LaneStep(maxRetries, lane1, MarkProcessing(lane.row), env(1)),
                   lane.row, lane.row.lastError, env, 2);
        }
      }
    }
  }

  /** Exactly which answers leave a publishable invoice with which status, and when the retry counter moves.
      A finally rejected invoice fails and is not counted. */
  lemma PublishStatus(maxRetries: int, lane: Lane, env: nat -> Answer)
    requires Publishable(lane.row)
    ensures var row, row', k := lane.row, RunToEnd(maxRetries, lane, PublishRead, env, 0).row, LoadCall(lane.row);
            var begins, loaded, a, b, c := Begins(row, env), env(k).stored, env(k + 1), env(k + 2), env(k + 3);
            && (row'.status == Completed <==> begins && loaded && Numbered(a) && b.stored && c.stored)
            && (row'.status == Failed <==>
                  begins && if !loaded then a.stored
                            else (Rejected(a) && b.stored)
                                 || (Retries(a) && c.stored && row.retryCount + 1 >= maxRetries))
            && (row'.status == Submitted <==>
                  || (row.status == Submitted && !begins)
                  || (begins && loaded && Retries(a) && c.stored && row.retryCount + 1 < maxRetries))
            && (row'.status == Completed || row'.status == Failed
                || row'.status == Submitted || row'.status == Processing)
            && row'.retryCount == row.retryCount + One(begins && loaded && Retries(a) && b.stored)
  {
    PublishEnds(maxRetries, lane, env);
    hide RunToEnd, FinalAnswer, ParseViettelError, AttemptError, UuidAfter;
    FinalIsNoSuccess(env(LoadCall(lane.row) + 1).reply);
  }

  lemma FinalIsNoSuccess(reply: Reply)
    ensures FinalAnswer(reply) ==> !Created(reply)
  {
  }

  // ---------- Polls, submits and hash updates ----------

  lemma ConfirmationEnds(maxRetries: int, lane: Lane, copy: Invoice, no: string, raw: string, env: nat -> Answer)
    requires copy == lane.row
    ensures var lane' := RunToEnd(maxRetries, lane, SaveConfirmed(copy, no, raw), env, 2);
            && lane'.history == lane.history
            && var saved :=
                 if !env(2).stored then lane.row
                 else lane.row.(externalId := Some(no), completedAt := Some(env(2).now), metadata := Some(raw),
                                updatedAt := env(2).now);
               lane'.row == if !env(3).stored then saved
                            else saved.(status := Completed, completedAt := Some(env(3).later),
                                        lastError := Some(ViettelConfirmed(no)), updatedAt := env(3).now)
  {
    hide LaneStep, RunToEnd, CreateStep, QueryStep;
    Unroll(maxRetries, lane, SaveConfirmed(copy, no, raw), env, 2);
    Unroll(maxRetries, LaneStep(maxRetries, lane, SaveConfirmed(copy, no, raw), env(2)), MarkConfirmed(no), env, 3);
  }

  lemma RefreshEnds(maxRetries: int, lane: Lane, raw: string, env: nat -> Answer)
    ensures var lane' := RunToEnd(maxRetries, lane, SavePending(lane.row, raw), env, 2);
            && lane'.history == lane.history
            && lane'.row == if env(2).stored then lane.row.(metadata := Some(raw), updatedAt := env(2).now)
                            else lane.row
  {
    hide LaneStep, RunToEnd, CreateStep, QueryStep;
    Unroll(maxRetries, lane, SavePending(lane.row, raw), env, 2);
  }

  lemma QueryEnds(maxRetries: int, lane: Lane, env: nat -> Answer)
    requires env(0).stored && !Blank(lane.row.transactionUuid)
    ensures var lane' := RunToEnd(maxRetries, lane, CallQuery(lane.row), env, 1);
            lane'.row == AfterPoll(lane.row, env) && lane'.history == lane.history
  {
    QueryAnswered(env(1).reply);
    QueryCalls(maxRetries, lane, lane.row, env);
    hide LaneStep, RunToEnd, ThreadStep, QueryOutcome, Success, AnswerFor;
    var lane1 := LaneStep(maxRetries, lane, CallQuery(lane.row), env(1));
    match QueryOutcome(env(1).reply)
    case QueryFailed(_) =>
    case StillPending(raw) => RefreshEnds(maxRetries, lane1, raw, env);
    case Confirmed(no, raw) => ConfirmationEnds(maxRetries, lane1, lane1.row, no, raw, env);
  }

  /** A whole poll job. */
  lemma PollEnds(maxRetries: int, lane: Lane, env: nat -> Answer)
    ensures var lane' := RunToEnd(maxRetries, lane, PollRead, env, 0);
            lane'.row == AfterPoll(lane.row, env) && lane'.history == lane.history
  {
    PollReads(maxRetries, lane, env);
    hide LaneStep, RunToEnd, ThreadStep;
    if env(0).stored && !Blank(lane.row.transactionUuid) {
      QueryEnds(maxRetries, LaneStep(maxRetries, lane, PollRead, env(0)), env);
    }
  }

  /** A whole submit. */
  lemma SubmitEnds(maxRetries: int, lane: Lane, env: nat -> Answer)
    ensures var lane', accepted := RunToEnd(maxRetries, lane, SubmitRead, env, 0),
                                   env(0).stored && FromDraftOrFailed(lane.row.status) && env(1).stored;
            && lane'.row == AfterSubmit(lane.row, env)
            && lane'.history == if accepted && env(2).stored then lane.history + [Change(lane.row.status, Submitted)]
                                else lane.history
  {
    SubmitReads(maxRetries, lane, env);
    hide LaneStep, RunToEnd, CreateStep, QueryStep;
    var from, lane1 := lane.row.status, LaneStep(maxRetries, lane, SubmitRead, env(0));
    if env(0).stored && FromDraftOrFailed(from) {
      Unroll(maxRetries, lane1, MarkSubmitted(from), env, 1);
      if env(1).stored {
        NoteEnds(maxRetries, LaneStep(maxRetries, lane1, MarkSubmitted(from), env(1)), from, env);
      }
    }
  }

  lemma NoteEnds(maxRetries: int, lane: Lane, from: Status, env: nat -> Answer)
    ensures var lane' := RunToEnd(maxRetries, lane, RecordSubmitted(from), env, 2);
            && lane'.row == lane.row
            && lane'.history == if env(2).stored then lane.history + [Change(from, Submitted)] else lane.history
  {
    hide LaneStep, RunToEnd, CreateStep, QueryStep;
    Unroll(maxRetries, lane, RecordSubmitted(from), env, 2);
    Unroll(maxRetries, LaneStep(maxRetries, lane, RecordSubmitted(from), env(2)), EnqueueSubmitted, env, 3);
  }

  /** A whole hash update. */
  lemma HashUpdateEnds(maxRetries: int, lane: Lane, hash: string, env: nat -> Answer)
    ensures var lane' := RunToEnd(maxRetries, lane, HashRead(hash), env, 0);
            lane'.row == AfterHashUpdate(lane.row, hash, env) && lane'.history == lane.history
  {
    HashReads(maxRetries, lane, hash, env);
    hide LaneStep, RunToEnd, CreateStep, QueryStep;
    if env(0).stored && lane.row.status == Draft {
      Unroll(maxRetries, LaneStep(maxRetries, lane, HashRead(hash), env(0)), HashWrite(hash), env, 1);
    }
  }
}
