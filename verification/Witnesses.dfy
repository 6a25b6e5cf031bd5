/** Concrete runs: what the documentation does not allow but happens, and what goes wrong as soon as two
    threads work on one invoice or a discarded write error hits. */
module Witnesses {
  import opened Domain
  import opened Viettel
  import opened Rows
  import opened Steps
  import opened System
  import opened Interleaving
  import opened Solo
  import opened Serial
  import opened Scenario

  /** Each of the four status changes outside the documented table happens, without any
      overlap: a retry goes back to submitted, and a poll completes an invoice that is
      submitted, failed or completed already. */
  lemma ExtraPairsHappen(c: Change, content: Content) returns (s: Sys)
    requires ExtraPair(c)
    ensures ReachableSerially(s, ID) && ID in s.lanes && c in s.lanes[ID].audit.trace
  {
    hide Via, ReachableSerially;
    var v: View;
    if c.from == Completed {
      s, v := Publishing(Config(5, 1), content, true);
      s, v := Published(s, v, true);
      s, v := PolledToCompletion(s, v);
    } else {
      s, v := AnswerLost(Config(if c.from == Failed then 1 else 5, 1), content);
      if c.to == Completed {
        s, v := PolledToCompletion(s, v);
      }
    }
    assert v.lane.audit.trace[|v.lane.audit.trace| - 1] == c;
    SeriallyReached(s);
  }

  /** A resubmit of an invoice that failed for good. */
  lemma Resubmitted(content: Content) returns (s: Sys)
    ensures ReachableSerially(s, ID) && ID in s.lanes && Change(Failed, Submitted) in s.lanes[ID].audit.trace
  {
    hide Via, ReachableSerially, Shows;
    var v: View;
    s, v := AnswerLost(Config(1, 1), content);
    s := FirstCall(s, v, SubmitRead, true);
    v := v.(p1 := SubmitRead);
    s, v := Turn(s, v, true, Quiet(), true);
    s, v := Turn(s, v, true, Quiet(), true);
    assert v.lane.audit.trace[|v.lane.audit.trace| - 1] == Change(Failed, Submitted);
    ShownRow(s, v);
    SeriallyReached(s);
  }

  lemma TablePairsHappen(c: Change, content: Content) returns (s: Sys)
    requires Happens(c) && !ExtraPair(c)
    ensures ReachableSerially(s, ID) && ID in s.lanes && c in s.lanes[ID].audit.trace
  {
    hide Via, ReachableSerially, Shows;
    if c.from == Failed {
      s := Resubmitted(content);
    } else {
      var v: View;
      if c.to == Completed {
        s, v := Publishing(Config(5, 1), content, true);
        s, v := Published(s, v, true);
        assert v.lane.audit.trace[2] == c;
      } else {
        s, v := AnswerLost(Config(1, 1), content);
        assert v.lane.audit.trace[if c.from == Draft then 0 else if c.from == Submitted then 1 else 2] == c;
      }
      ShownRow(s, v);
      SeriallyReached(s);
    }
  }

  /** The status changes of an invoice whose jobs do not overlap are these nine and no others. */
  lemma NineChanges(c: Change, content: Content)
    ensures Happens(c) <==> exists s: Sys, id: InvoiceId ::
              ReachableSerially(s, id) && id in s.lanes && c in s.lanes[id].audit.trace
  {
    hide ReachableSerially, ExtraPair;
    if Happens(c) {
      var s: Sys;
      if ExtraPair(c) {
        s := ExtraPairsHappen(c, content);
      } else {
        s := TablePairsHappen(c, content);
      }
    }
    forall s: Sys, id: InvoiceId | ReachableSerially(s, id) && id in s.lanes && c in s.lanes[id].audit.trace
      ensures Happens(c)
    {
      StatusChanges(s, id);
    }
  }

  /** Two overlapping jobs: a poll reads the row while it is published; the publish completes it with
      its number; the poll is told that the invoice is not there yet and writes its old copy back.
      The invoice is left completed without a number. */
  lemma OverlapLosesTheNumber(content: Content) returns (s: Sys)
    ensures Reachable(s) && ID in s.lanes && s.threads == map[]
    ensures s.lanes[ID].row.status == Completed && s.lanes[ID].row.externalId.None?
    ensures "U" in s.ledger && s.lanes[ID].row.transactionUuid == Some("U")
  {
    hide Via, Reachable, Shows;
    var v: View;
    s, v := Publishing(Config(5, 1), content, false);
    s, v := PollBegun(s, v, false, false);
    s, v := Published(s, v, false);
    s, v := StaleWrite(s, v);
    ShownRow(s, v);
    Reached(s);
  }

  /** The poll whose search shows nothing writes its copy back. */
  lemma StaleWrite(s0: Sys, v0: View) returns (s: Sys, v: View)
    requires Via(s0, false) && Shows(s0, v0) && v0.p1 == Done && v0.p2.CallQuery?
    ensures s.cfg == s0.cfg && Via(s, false) && Shows(s, v) && v.p1 == v.p2 == Done && v.ledger == v0.ledger
    ensures v.lane.row.externalId == v0.p2.copy.externalId && v.lane.row.transactionUuid == v0.p2.copy.transactionUuid
    ensures v.lane.row.status == v0.lane.row.status
  {
    hide Via, Shows;
    s, v := Turn(s0, v0, false, Fine(NotFoundYet(), None), false);
    s, v := Turn(s, v, false, Quiet(), false);
  }

  /** The issuer takes the invoice in without telling its number; then a poll job reads the row. */
  lemma AsyncAnswer(content: Content) returns (s: Sys, v: View)
    ensures Via(s, true) && Shows(s, v) && FreshRow(v.lane.row, Processing) && v.p2 == Done
    ensures v.p1 == CallQuery(v.lane.row) && v.ledger == map["U" := "N"]
    ensures v.lane.history == [Change(Draft, Submitted)] && v.lane.audit.lostNotes == 0
    ensures v.lane.audit.trace == [Change(Draft, Submitted), Change(Submitted, Processing)]
  {
    hide Via, Shows;
    s, v := Publishing(Config(5, 1), content, true);
    s, v := Turn(s, v, true, Fine(WithNumber(""), Some("N")), true);
    s, v := PollBegun(s, v, true, true);
  }

  lemma NumberNotStored(s0: Sys, v0: View) returns (s: Sys, v: View)
    requires Via(s0, true) && Shows(s0, v0) && v0.p1.SaveConfirmed? && v0.p2 == Done
    ensures Via(s, true) && Shows(s, v) && v.lane.row.status == Completed
            && v.lane.row.externalId == v0.lane.row.externalId
  {
    hide Via, Shows;
    s, v := Turn(s0, v0, true, Quiet().(stored := false), true);
    s, v := Turn(s, v, true, Quiet(), true);
  }

  /** One discarded write error: the poll's write of the number fails, its status write does not. */
  lemma LostWriteLosesTheNumber(content: Content) returns (s: Sys)
    ensures ReachableSerially(s, ID) && ID in s.lanes
    ensures s.lanes[ID].row.status == Completed && s.lanes[ID].row.externalId.None?
  {
    hide Via, ReachableSerially, Shows;
    var v: View;
    s, v := AsyncAnswer(content);
    s, v := Turn(s, v, true, Fine(WithNumber("N"), None), true);
    s, v := NumberNotStored(s, v);
    SeriallyReached(s);
    ShownRow(s, v);
  }

  /** A hash update has checked that the invoice is a draft; a submit is about to begin. */
  lemma HashChecked(content: Content, hash: string) returns (s: Sys, v: View)
    ensures Via(s, false) && Shows(s, v) && v.p1 == HashWrite(hash) && v.p2 == SubmitRead
    ensures v.lane.row.status == Draft && v.lane.row.transactionHash == "" && v.queue == []
  {
    hide Via, Shows;
    s, v := Start(Config(5, 1), content, HashRead(hash), false);
    s, v := Turn(s, v, true, Quiet(), false);
    s, v := SecondCall(s, v);
  }

  lemma SubmittedMeanwhile(s0: Sys, v0: View) returns (s: Sys, v: View)
    requires Via(s0, false) && Shows(s0, v0) && v0.p2 == SubmitRead && v0.lane.row.status == Draft
    ensures Via(s, false) && Shows(s, v) && v.p1 == v0.p1 && v.lane.row.status == Submitted
    ensures v.lane.row.transactionHash == v0.lane.row.transactionHash
  {
    hide Via, Shows;
    s, v := Turn(s0, v0, false, Quiet(), false);
    s, v := Turn(s, v, false, Quiet(), false);
  }

  /** A hash update that checked for draft before a submit writes after it: the hash of a submitted
      invoice changes. */
  lemma HashOfSubmittedChanges(content: Content, hash: string) returns (s: Sys, s': Sys, a: Answer)
    requires hash != ""
    ensures Reachable(s) && Legal(s, Advance(1, a)) && s' == Step(s, Advance(1, a))
    ensures ID in s.lanes && ID in s'.lanes && s.lanes[ID].row.status == Submitted
    ensures s.lanes[ID].row.transactionHash != s'.lanes[ID].row.transactionHash == hash
  {
    hide Via, Reachable, Shows;
    var v: View;
    s, v := HashChecked(content, hash);
    s, v := SubmittedMeanwhile(s, v);
    Reached(s);
    a := Quiet();
    s' := Step(s, Advance(1, a));
    HashWritten(s, v, hash, a);
  }

  lemma HashWritten(s: Sys, v: View, hash: string, a: Answer)
    requires Shows(s, v) && v.p1 == HashWrite(hash) && a.stored
    ensures Legal(s, Advance(1, a))
    ensures ID in s.lanes && s.lanes[ID].row == v.lane.row
    ensures var s' := Step(s, Advance(1, a)); ID in s'.lanes && s'.lanes[ID].row.transactionHash == hash
  {
  }

  /** A publish job is cut off between its two writes: the invoice is processing and has its number. */
  lemma NumberWhileProcessing(content: Content) returns (s: Sys)
    ensures ReachableSerially(s, ID) && ID in s.lanes && s.threads == map[]
    ensures s.lanes[ID].row.status == Processing && s.lanes[ID].row.externalId == Some("N")
  {
    hide Via, ReachableSerially, Shows;
    var v: View;
    s, v := Publishing(Config(5, 1), content, true);
    s, v := Turn(s, v, true, Fine(WithNumber("N"), Some("N")), true);
    s, v := Turn(s, v, true, Quiet(), true);
    s, v := CutOff(s, v, true);
    SeriallyReached(s);
    ShownRow(s, v);
  }

  /** A poll completes the invoice: with no history line lost, its history says neither that it was
      processed nor that it was completed. */
  lemma HistoryMissesCompletion(content: Content) returns (s: Sys)
    ensures ReachableSerially(s, ID) && ID in s.lanes && s.lanes[ID].row.status == Completed
    ensures s.lanes[ID].history == [Change(Draft, Submitted)] && s.lanes[ID].audit.lostNotes == 0
    ensures s.lanes[ID].audit.trace ==
              [Change(Draft, Submitted), Change(Submitted, Processing), Change(Processing, Completed)]
  {
    hide Via, ReachableSerially, Shows;
    var v: View;
    s, v := AsyncAnswer(content);
    s, v := Turn(s, v, true, Fine(WithNumber("N"), None), true);
    s, v := Confirming(s, v);
    SeriallyReached(s);
    ShownRow(s, v);
  }

  // ---------- The retry counter has no limit ----------

  /** An idle invoice with a limit of one attempt, after so many submits that all failed. */
  predicate AfterFailures(s: Sys, v: View, status: Status, submits: nat, retries: nat) {
    && s.cfg == Config(1, 1) && v.p1 == v.p2 == Done && v.ledger == map[]
    && v.queue == (if status == Submitted then [Job(PublishInvoice, ID)] else [])
    && v.lane.row.status == status && v.lane.row.transactionUuid == Some("U") && v.lane.row.externalId.None?
    && v.lane.row.retryCount == retries && v.lane.audit.submits == submits && v.lane.audit.lostOutcomes == 0
  }

  lemma SubmittedOnce(s0: Sys, v0: View, status: Status, n: nat) returns (s: Sys, v: View)
    requires Via(s0, true) && Shows(s0, v0) && AfterFailures(s0, v0, status, n, n)
             && (status == Draft || status == Failed)
    ensures Via(s, true) && Shows(s, v) && AfterFailures(s, v, Submitted, n + 1, n)
  {
    hide Via, Shows;
    s := FirstCall(s0, v0, SubmitRead, true);
    v := v0.(p1 := SubmitRead);
    s, v := Turn(s, v, true, Quiet(), true);
    s, v := SubmittedAgain(s, v, n);
  }

  lemma SubmittedAgain(s0: Sys, v0: View, n: nat) returns (s: Sys, v: View)
    requires Via(s0, true) && Shows(s0, v0) && v0.p1.MarkSubmitted? && v0.p2 == Done
    requires AfterFailures(s0, v0.(p1 := Done), v0.lane.row.status, n, n) && v0.queue == []
    ensures Via(s, true) && Shows(s, v) && AfterFailures(s, v, Submitted, n + 1, n)
  {
    hide Via, Shows;
    s, v := Turn(s0, v0, true, Quiet(), true);
    s, v := Recording(s, v, true);
  }

  lemma AttemptStarted(s0: Sys, v0: View, n: nat) returns (s: Sys, v: View)
    requires Via(s0, true) && Shows(s0, v0) && AfterFailures(s0, v0, Submitted, n + 1, n)
    ensures Via(s, true) && Shows(s, v) && s.cfg == s0.cfg && v.p2 == Done && v.queue == [] && v.ledger == map[]
    ensures v.p1.CallCreate? && v.p1.copy.retryCount == n && v.p1.copy.externalId.None?
            && v.p1.copy.transactionUuid == Some("U")
    ensures v.lane.row.status == Processing && v.lane.audit.submits == n + 1 && v.lane.audit.lostOutcomes == 0
  {
    hide Via, Shows;
    s, v := Receive(s0, v0, Job(PublishInvoice, ID), true, true);
    s, v := Turn(s, v, true, Quiet(), true);
    s, v := Turn(s, v, true, Quiet(), true);
    s, v := Turn(s, v, true, Quiet(), true);
  }

  lemma FailedOnce(s0: Sys, v0: View, n: nat) returns (s: Sys, v: View)
    requires Via(s0, true) && Shows(s0, v0) && AfterFailures(s0, v0, Submitted, n + 1, n)
    ensures Via(s, true) && Shows(s, v) && AfterFailures(s, v, Failed, n + 1, n + 1)
  {
    hide Via, Shows;
    s, v := AttemptStarted(s0, v0, n);
    s, v := Turn(s, v, true, Quiet(), true);
    s, v := Turn(s, v, true, Quiet(), true);
    s, v := Turn(s, v, true, Quiet(), true);
  }

  lemma {:induction false} FailedOften(content: Content, n: nat) returns (s: Sys, v: View)
    ensures Via(s, true) && Shows(s, v) && AfterFailures(s, v, if n == 0 then Draft else Failed, n, n)
    decreases n
  {
    hide Via, Shows;
    if n == 0 {
      s := Init(Config(1, 1));
      ViaInit(s, true);
      s := Drafted(s, content, true);
      v := View(Lane(NewInvoice(ID, "U", content, "", 0), [], NO_AUDIT), Done, Done, [], map[]);
    } else {
      s, v := FailedOften(content, n - 1);
      hide AfterFailures;
      s, v := SubmittedOnce(s, v, if n == 1 then Draft else Failed, n - 1);
      s, v := FailedOnce(s, v, n - 1);
    }
  }

  /** The cap on RetryCount is reached for any number of submits, however small MaxRetries is. */
  lemma RetryCapReached(content: Content, n: nat) returns (s: Sys)
    ensures ReachableSerially(s, ID) && ID in s.lanes && s.cfg.maxRetries == 1
    ensures var lane := s.lanes[ID];
            && lane.row.retryCount == n == lane.audit.submits
            && lane.row.retryCount == Slack(s.cfg.maxRetries) + lane.audit.submits + lane.audit.lostOutcomes
  {
    hide Via, ReachableSerially, Shows;
    var v: View;
    s, v := FailedOften(content, n);
    SeriallyReached(s);
    ShownRow(s, v);
  }
}
