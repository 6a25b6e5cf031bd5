/** One invoice on which threads do not overlap, step by step: what holds at every program point,
    with any statement failing and any thread cut off at any point. */
module Solo {
  import opened Domain
  import opened Viettel
  import opened Rows
  import opened Steps
  import opened Interleaving

  // ---------- The status at each program point ----------

  predicate FromDraftOrFailed(from: Status) {
    from == Draft || from == Failed
  }

  predicate StatusAt(status: Status, pc: Pc) {
    match pc
    case MarkProcessing(_) => status == Submitted
    case LoadItems(_) => status == Processing
    case MarkUnloadable => status == Processing
    case CallCreate(_) => status == Processing
    case SaveNumber(_, _) => status == Processing
    case MarkCompleted => status == Processing
    case RecordCompleted => status == Completed
    case MarkRejected(_) => status == Processing
    case SaveRetry(_, _) => status == Processing
    case MarkAfterRetry(_, _) => status == Processing
    case MarkSubmitted(from) => status == from && FromDraftOrFailed(from)
    case RecordSubmitted(from) => status == Submitted && FromDraftOrFailed(from)
    case EnqueueSubmitted => status == Submitted
    case HashWrite(_) => status == Draft
    case SubmitRead => true
    case HashRead(_) => true
    case Done => true
    case _ => status != Draft
  }

  /** The status changes that happen when jobs on an invoice do not overlap: those of the transition
      table (without `cancelled` and submitted -> failed), and four more. */
  predicate Happens(c: Change) {
    || (c.from == Draft && c.to == Submitted)
    || (c.from == Submitted && c.to == Processing)
    || (c.from == Processing && (c.to == Completed || c.to == Failed))
    || (c.from == Failed && c.to == Submitted)
    || ExtraPair(c)
  }

  /** Changes the transition table does not list. */
  predicate ExtraPair(c: Change) {
    || (c.from == Processing && c.to == Submitted)
    || (c.to == Completed && (c.from == Submitted || c.from == Failed || c.from == Completed))
  }

  lemma HappensByTable(c: Change)
    ensures ExtraPair(c) ==> !CanTransitionTo(c.from, c.to)
    ensures Happens(c) <==> (ExtraPair(c) || (CanTransitionTo(c.from, c.to) && c.to != Cancelled
                                              && !(c.from == Submitted && c.to == Failed)))
  {
  }

  lemma CanSubmit(from: Status)
    ensures CanTransitionTo(from, Submitted) <==> FromDraftOrFailed(from)
  {
  }

  lemma StatusStep(maxRetries: int, row: Invoice, pc: Pc, a: Answer)
    requires StatusAt(row.status, pc) && row.status != Cancelled
    ensures var out := ThreadStep(maxRetries, row, pc, a);
            && StatusAt(out.row.status, out.pc)
            && (out.wrote.Some? ==> out.wrote.value == out.row.status && Happens(Change(row.status, out.wrote.value)))
            && (out.wrote.None? ==> out.row.status == row.status)
            && (row.status == Completed ==> out.row.status == Completed)
  {
    CanSubmit(row.status);
    hide CreateOutcome, QueryOutcome, CanTransitionTo;
  }

  predicate TraceHappens(lane: Lane) {
    forall k | 0 <= k < |lane.audit.trace| :: Happens(lane.audit.trace[k])
  }

  // ---------- Copies are up to date ----------

  /** A copy differs from its row at most in the columns `Update` does not write, in those every
      write sets anew, and by the retries counted but not yet stored. */
  predicate Synced(copy: Invoice, row: Invoice, counted: int) {
    copy == row.(status := copy.status, lastError := copy.lastError, updatedAt := copy.updatedAt,
                 retryCount := row.retryCount + counted)
  }

  predicate CopySynced(row: Invoice, pc: Pc) {
    CopyOf(pc).Some? ==> Synced(CopyOf(pc).value, row, One(pc.SaveRetry?))
  }

  lemma CreateSynced(row: Invoice, copy: Invoice, a: Answer)
    requires Synced(copy, row, 0) && !Blank(row.transactionUuid)
    ensures CreateStep(row, copy, a).row == row && CopySynced(row, CreateStep(row, copy, a).pc)
  {
    hide CreateOutcome;
    assert copy.(transactionUuid := Some(ChooseUuid(copy, a.fallback))) == copy;
  }

  lemma SyncStep(maxRetries: int, row: Invoice, pc: Pc, a: Answer)
    requires CopySynced(row, pc) && !Blank(row.transactionUuid)
    ensures var out := ThreadStep(maxRetries, row, pc, a); CopySynced(out.row, out.pc)
  {
    hide QueryOutcome, CreateStep;
    if pc.CallCreate? {
      CreateSynced(row, pc.copy, a);
    }
  }

  // ---------- The number ----------

  predicate NumberAt(lane: Lane, pc: Pc) {
    && (pc.SaveNumber? || pc.SaveConfirmed? ==> pc.no != "")
    && (!Blank(lane.row.externalId) <==> lane.audit.numbers > 0)
    && (pc.MarkCompleted? || pc.RecordCompleted? ==> lane.audit.numbers > 0)
    && (pc.MarkConfirmed? ==> lane.audit.numbers > 0 || lane.audit.lostConfirms > 0)
    && (lane.row.status == Completed ==>
          lane.row.completedAt.Some? && (lane.audit.numbers > 0 || lane.audit.lostConfirms > 0))
  }

  lemma NumberStep(maxRetries: int, lane: Lane, pc: Pc, a: Answer)
    requires StatusAt(lane.row.status, pc) && CopySynced(lane.row, pc) && NumberAt(lane, pc)
    ensures NumberAt(LaneStep(maxRetries, lane, pc, a), ThreadStep(maxRetries, lane.row, pc, a).pc)
  {
    ConfirmedNumber(a.reply);
    hide QueryOutcome, CreateOutcome, CanTransitionTo;
  }

  // ---------- The retry counter ----------

  function Slack(maxRetries: int): nat {
    if maxRetries > 1 then maxRetries - 1 else 0
  }

  /** What the counter may have reached: the limit less one, plus one for every accepted submit, plus
      one for every retry whose outcome was never written. */
  function RetryCap(maxRetries: int, audit: Audit): nat {
    Slack(maxRetries) + audit.submits + audit.lostOutcomes
  }

  predicate RetriesAt(maxRetries: int, lane: Lane, pc: Pc) {
    var count, cap := lane.row.retryCount, RetryCap(maxRetries, lane.audit);
    && count + lane.audit.lostRetries + One(pc.SaveRetry?) == lane.audit.failures
    && (lane.row.status != Draft ==> lane.audit.submits >= 1)
    && count <= cap
    && (Pending(lane.row) && !pc.MarkAfterRetry? ==> count <= cap - 1)
    && (pc.MarkAfterRetry? ==> count <= pc.count <= cap)
  }

  lemma RetriesStep(maxRetries: int, lane: Lane, pc: Pc, a: Answer)
    requires StatusAt(lane.row.status, pc) && CopySynced(lane.row, pc) && RetriesAt(maxRetries, lane, pc)
    ensures RetriesAt(maxRetries, LaneStep(maxRetries, lane, pc, a), ThreadStep(maxRetries, lane.row, pc, a).pc)
  {
    hide QueryOutcome, CreateOutcome, CanTransitionTo;
  }

  lemma RetriesKill(maxRetries: int, lane: Lane, pc: Pc)
    requires StatusAt(lane.row.status, pc) && RetriesAt(maxRetries, lane, pc)
    ensures RetriesAt(maxRetries, LaneKill(lane, pc), Done)
  {
  }

  // ---------- The history ----------

  /** `part` is a subsequence of `whole`. */
  predicate Subsequence(part: seq<Change>, whole: seq<Change>)
    decreases |whole|
  {
    part == [] ||
    (whole != [] &&
     var last := |whole| - 1;
     || (part[|part| - 1] == whole[last] && Subsequence(part[..|part| - 1], whole[..last]))
     || Subsequence(part, whole[..last]))
  }

  lemma SubsequenceGrows(part: seq<Change>, whole: seq<Change>, c: Change)
    requires Subsequence(part, whole)
    ensures Subsequence(part, whole + [c]) && Subsequence(part + [c], whole + [c])
  {
    assert (whole + [c])[..|whole|] == whole && (part + [c])[..|part|] == part;
  }

  /** The change a thread has written and will record next. */
  function Unrecorded(pc: Pc): Option<Change> {
    match pc
    case RecordCompleted => Some(Change(Processing, Completed))
    case RecordSubmitted(from) => Some(Change(from, Submitted))
    case _ => None
  }

  /** The changes the history can show: submits, and completions of a publish in progress. */
  predicate Recordable(c: Change) {
    (FromDraftOrFailed(c.from) && c.to == Submitted) || (c.from == Processing && c.to == Completed)
  }

  lemma RecordableIsListed(c: Change)
    requires Recordable(c)
    ensures CanTransitionTo(c.from, c.to)
  {
  }

  /** The history shows the announced changes in order, except lost lines and the pending one, which
      is the last. */
  predicate HistorySound(history: seq<Change>, announced: seq<Change>, trace: seq<Change>, lost: nat,
                         pending: Option<Change>) {
    && (forall k | 0 <= k < |history| :: Recordable(history[k]))
    && Subsequence(announced, trace)
    && Subsequence(history, announced)
    && |announced| == |history| + lost + One(pending.Some?)
    && (pending.Some? ==>
          announced[|announced| - 1] == pending.value && Subsequence(history, announced[..|announced| - 1]))
  }

  predicate HistoryAt(lane: Lane, pc: Pc) {
    HistorySound(lane.history, lane.audit.announced, lane.audit.trace, lane.audit.lostNotes, Unrecorded(pc))
  }

  lemma Unannounced(history: seq<Change>, announced: seq<Change>, trace: seq<Change>, lost: nat, c: Change)
    requires HistorySound(history, announced, trace, lost, None)
    ensures HistorySound(history, announced, trace + [c], lost, None)
  {
    hide Subsequence, Recordable;
    SubsequenceGrows(announced, trace, c);
  }

  lemma Announced(history: seq<Change>, announced: seq<Change>, trace: seq<Change>, lost: nat, c: Change)
    requires HistorySound(history, announced, trace, lost, None)
    ensures HistorySound(history, announced + [c], trace + [c], lost, Some(c))
  {
    hide Subsequence, Recordable;
    SubsequenceGrows(announced, trace, c);
    SubsequenceGrows(history, announced, c);
    assert (announced + [c])[..|announced|] == announced;
  }

  lemma Noted(history: seq<Change>, announced: seq<Change>, trace: seq<Change>, lost: nat, c: Change)
    requires HistorySound(history, announced, trace, lost, Some(c)) && Recordable(c)
    ensures HistorySound(history + [c], announced, trace, lost, None)
  {
    hide Subsequence, Recordable;
    SubsequenceGrows(history, announced[..|announced| - 1], c);
    assert announced[..|announced| - 1] + [c] == announced;
  }

  lemma NotNoted(history: seq<Change>, announced: seq<Change>, trace: seq<Change>, lost: nat, c: Change)
    requires HistorySound(history, announced, trace, lost, Some(c))
    ensures HistorySound(history, announced, trace, lost + 1, None)
  {
    hide Subsequence, Recordable;
  }

  lemma HistoryEffects(maxRetries: int, row: Invoice, pc: Pc, a: Answer)
    requires StatusAt(row.status, pc)
    ensures IsNote(pc) <==> Unrecorded(pc).Some?
    ensures Unrecorded(pc).Some? ==> Recordable(Unrecorded(pc).value)
    ensures var out := ThreadStep(maxRetries, row, pc, a);
            && Unrecorded(out.pc) ==
                  (if out.wrote.Some? && Announces(pc) then Some(Change(row.status, out.wrote.value)) else None)
            && out.change == (if a.stored then Unrecorded(pc) else None)
            && (IsNote(pc) ==> out.wrote.None? && !Announces(pc))
  {
    hide QueryOutcome, CreateOutcome, CanTransitionTo;
  }

  lemma AuditEffects(maxRetries: int, lane: Lane, pc: Pc, a: Answer)
    ensures var out, lane' := ThreadStep(maxRetries, lane.row, pc, a), LaneStep(maxRetries, lane, pc, a);
            && lane'.history == (if out.change.Some? then lane.history + [out.change.value] else lane.history)
            && lane'.audit.lostNotes == lane.audit.lostNotes + One(IsNote(pc) && !a.stored)
            && (out.wrote.None? ==>
                  lane'.audit.trace == lane.audit.trace && lane'.audit.announced == lane.audit.announced)
            && (out.wrote.Some? ==>
                  var c := Change(lane.row.status, out.wrote.value);
                  && lane'.audit.trace == lane.audit.trace + [c]
                  && lane'.audit.announced ==
                        (if Announces(pc) then lane.audit.announced + [c] else lane.audit.announced))
  {
    hide ThreadStep;
  }

  lemma HistoryStep(maxRetries: int, lane: Lane, pc: Pc, a: Answer)
    requires StatusAt(lane.row.status, pc) && HistoryAt(lane, pc)
    ensures HistoryAt(LaneStep(maxRetries, lane, pc, a), ThreadStep(maxRetries, lane.row, pc, a).pc)
  {
    HistoryEffects(maxRetries, lane.row, pc, a);
    AuditEffects(maxRetries, lane, pc, a);
    hide ThreadStep, LaneStep, HistorySound, Unrecorded, Recordable, StatusAt, IsNote, Announces;
    var out := ThreadStep(maxRetries, lane.row, pc, a);
    var history, announced, trace, lost := lane.history, lane.audit.announced, lane.audit.trace, lane.audit.lostNotes;
    if Unrecorded(pc).Some? {
      Noted(history, announced, trace, lost, Unrecorded(pc).value);
      NotNoted(history, announced, trace, lost, Unrecorded(pc).value);
    } else if out.wrote.Some? {
      Unannounced(history, announced, trace, lost, Change(lane.row.status, out.wrote.value));
      Announced(history, announced, trace, lost, Change(lane.row.status, out.wrote.value));
    }
  }

  lemma HistoryKill(lane: Lane, pc: Pc)
    requires StatusAt(lane.row.status, pc) && HistoryAt(lane, pc)
    ensures HistoryAt(LaneKill(lane, pc), Done)
  {
    hide HistorySound;
    if IsNote(pc) {
      NotNoted(lane.history, lane.audit.announced, lane.audit.trace, lane.audit.lostNotes, Unrecorded(pc).value);
    }
  }

  /** The history is complete exactly if it is as long as what it is a subsequence of. */
  lemma {:induction false} SubsequenceLength(part: seq<Change>, whole: seq<Change>)
    requires Subsequence(part, whole)
    ensures |part| <= |whole| && (|part| == |whole| ==> part == whole)
    decreases |whole|
  {
    if part != [] {
      var last := |whole| - 1;
      if part[|part| - 1] == whole[last] && Subsequence(part[..|part| - 1], whole[..last]) {
        SubsequenceLength(part[..|part| - 1], whole[..last]);
        assert part == part[..|part| - 1] + [part[|part| - 1]] && whole == whole[..last] + [whole[last]];
      } else {
        SubsequenceLength(part, whole[..last]);
      }
    }
  }

  lemma {:induction false} SubsequenceTrans(a: seq<Change>, b: seq<Change>, c: seq<Change>)
    requires Subsequence(a, b) && Subsequence(b, c)
    ensures Subsequence(a, c)
    decreases |c|
  {
    if a != [] {
      var last := |c| - 1;
      if Subsequence(b, c[..last]) {
        SubsequenceTrans(a, b, c[..last]);
      } else {
        var m := |b| - 1;
        if Subsequence(a, b[..m]) {
          SubsequenceTrans(a, b[..m], c[..last]);
        } else {
          SubsequenceTrans(a[..|a| - 1], b[..m], c[..last]);
        }
      }
    }
  }

  // ---------- Times ----------

  predicate TimesAt(row: Invoice, clock: Time) {
    && (row.status != Draft ==> row.submittedAt.Some? && row.submittedAt.value <= clock)
    && (row.status == Completed ==> row.completedAt.Some? && row.submittedAt.value <= row.completedAt.value)
  }

  lemma TimesStep(maxRetries: int, row: Invoice, pc: Pc, a: Answer, clock: Time)
    requires StatusAt(row.status, pc) && CopySynced(row, pc) && TimesAt(row, clock)
    requires clock <= a.now <= a.later
    ensures TimesAt(ThreadStep(maxRetries, row, pc, a).row, a.later)
  {
    hide QueryOutcome, CreateOutcome, CanTransitionTo;
  }

  // ---------- All of it ----------

  predicate SoloAt(maxRetries: int, lane: Lane, pc: Pc) {
    && StatusAt(lane.row.status, pc) && TraceHappens(lane) && CopySynced(lane.row, pc)
    && NumberAt(lane, pc) && RetriesAt(maxRetries, lane, pc) && HistoryAt(lane, pc)
  }

  lemma SoloStep(maxRetries: int, lane: Lane, pc: Pc, a: Answer)
    requires SoloAt(maxRetries, lane, pc) && !Blank(lane.row.transactionUuid) && lane.row.status != Cancelled
    ensures SoloAt(maxRetries, LaneStep(maxRetries, lane, pc, a), ThreadStep(maxRetries, lane.row, pc, a).pc)
  {
    StatusStep(maxRetries, lane.row, pc, a);
    SyncStep(maxRetries, lane.row, pc, a);
    NumberStep(maxRetries, lane, pc, a);
    RetriesStep(maxRetries, lane, pc, a);
    HistoryStep(maxRetries, lane, pc, a);
    hide ThreadStep, StatusAt, CopySynced, NumberAt, RetriesAt, HistoryAt, Happens;
  }

  lemma SoloKill(maxRetries: int, lane: Lane, pc: Pc)
    requires SoloAt(maxRetries, lane, pc)
    ensures SoloAt(maxRetries, LaneKill(lane, pc), Done)
  {
    RetriesKill(maxRetries, lane, pc);
    HistoryKill(lane, pc);
    hide RetriesAt, HistoryAt, Happens;
  }

  /** A thread starts on an invoice no other thread is working on. */
  lemma SoloStart(maxRetries: int, lane: Lane, start: Pc)
    requires SoloAt(maxRetries, lane, Done)
    requires start.SubmitRead? || start.HashRead?
             || ((start.PublishRead? || start.PollRead?) && lane.row.status != Draft)
    ensures SoloAt(maxRetries, lane, start)
  {
    hide Happens, Subsequence, CanTransitionTo;
  }

  lemma SoloBirth(maxRetries: int, row: Invoice)
    requires row.status == Draft && row.externalId.None? && row.retryCount == 0
    ensures SoloAt(maxRetries, Lane(row, [], NO_AUDIT), Done)
  {
  }

  /** A completed invoice stays completed, a number that is set never changes, and past draft neither does
      the transaction hash. */
  lemma SettledStep(maxRetries: int, row: Invoice, pc: Pc, a: Answer, ledger: map<string, string>)
    requires StatusAt(row.status, pc) && CopySynced(row, pc) && row.status != Cancelled
    requires Agrees(row, ledger) && PcSound(row, pc, ledger)
    ensures var out := ThreadStep(maxRetries, row, pc, a);
            && (row.status == Completed ==> out.row.status == Completed)
            && (row.externalId.Some? ==> out.row.externalId == row.externalId)
            && (row.status != Draft ==> out.row.status != Draft && out.row.transactionHash == row.transactionHash)
  {
    StatusStep(maxRetries, row, pc, a);
    hide QueryOutcome, CreateOutcome, CanTransitionTo, StatusAt;
  }
}
