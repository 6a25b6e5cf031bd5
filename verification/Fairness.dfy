/** The poller serves every pending invoice in bounded time: served invoices leave the pending list or
    move behind every invoice not served yet. */
module Fairness {
  import opened Sets
  import opened Domain
  import opened Viettel
  import opened Rows
  import opened Steps
  import opened Repository
  import opened Pool
  import opened Endings

  /** Off the pending list, or last touched after `now`. */
  predicate Renewed(row: Invoice, now: Time) {
    Pending(row) ==> row.updatedAt > now
  }

  // ---------- A served job renews its invoice ----------

  /** No database errors, a clock beyond `now`, and no error from the search a poll job makes as its
      second call; create requests may fail in any way. */
  ghost predicate Healthy(env: nat -> Answer, now: Time) {
    && (forall k: nat :: env(k).stored && now < env(k).now)
    && !QueryOutcome(env(1).reply).QueryFailed?
  }

  lemma AttemptRenewed(maxRetries: int, row: Invoice, lastError: Option<Reason>, a: Answer, b: Answer, c: Answer,
                       now: Time)
    requires Renewed(row, now) && now < b.now && now < c.now
    ensures var row' := AfterAttempt(maxRetries, row, lastError, a, b, c); Renewed(row', now) && row'.id == row.id
  {
    hide Numbered, Rejected, Retries, AttemptError, UuidAfter, ParseViettelError;
    if Numbered(a) {
      NumberedIsCreated(a);
    } else if Rejected(a) {
      RejectedIsHttp(a);
    }
  }

  lemma NumberedIsCreated(a: Answer)
    requires Numbered(a)
    ensures a.reply.Http? && a.reply.body.asCreate.Some?
  {
  }

  lemma RejectedIsHttp(a: Answer)
    requires Rejected(a)
    ensures a.reply.Http?
  {
  }

  lemma PublishRenewed(maxRetries: int, row: Invoice, env: nat -> Answer, now: Time)
    requires row.status == Submitted && Healthy(env, now)
    ensures var row' := AfterPublish(maxRetries, row, env); Renewed(row', now) && row'.id == row.id
  {
    assert env(0).stored && env(1).stored && env(2).stored && now < env(1).now && now < env(4).now && now < env(5).now;
    hide AfterAttempt, Healthy;
    var marked := row.(status := Processing, lastError := Some(SendingToViettel), updatedAt := env(1).now);
    AttemptRenewed(maxRetries, marked, row.lastError, env(3), env(4), env(5), now);
  }

  lemma PollRenewed(row: Invoice, env: nat -> Answer, now: Time)
    requires !Blank(row.transactionUuid) && Healthy(env, now)
    ensures var row' := AfterPoll(row, env); Renewed(row', now) && row'.id == row.id
  {
    QueryAnswered(env(1).reply);
    assert env(0).stored && !QueryOutcome(env(1).reply).QueryFailed? && env(2).stored && env(3).stored;
    assert now < env(2).now && now < env(3).now;
    hide QueryOutcome, Success, AnswerFor, Healthy, Blank;
  }

  /** The job the poller makes for a pending row takes it off the list or to the back of it. */
  lemma ServedIsRenewed(maxRetries: int, lane: Lane, env: nat -> Answer, now: Time)
    requires Pending(lane.row) && !Blank(lane.row.transactionUuid) && Healthy(env, now)
    ensures var row := RunToEnd(maxRetries, lane, StartOf(PollerJob(lane.row)), env, 0).row;
            Renewed(row, now) && row.id == lane.row.id
  {
    hide RunToEnd, Healthy, AfterPublish, AfterPoll, Renewed, Begins, AttemptNoted;
    if lane.row.status == Processing {
      PollEnds(maxRetries, lane, env);
      PollRenewed(lane.row, env, now);
    } else {
      PublishEnds(maxRetries, lane, env);
      PublishRenewed(maxRetries, lane.row, env, now);
    }
  }

  // ---------- A poll cycle ----------

  /** The picked rows' jobs run to their ends, one after the other (each on its own invoice). */
  function Serve(maxRetries: int, rows: map<InvoiceId, Invoice>, picked: seq<Invoice>,
                 envs: nat -> (nat -> Answer)): map<InvoiceId, Invoice> {
    if picked == [] then rows
    else
      var n := |picked| - 1;
      var before := Serve(maxRetries, rows, picked[..n], envs);
      var id := picked[n].id;
      if id !in before then before
      else before[id := RunToEnd(maxRetries, Lane(before[id], [], NO_AUDIT),
                                      StartOf(PollerJob(picked[n])), envs(n), 0).row]
  }

  /** One cycle, with anything else going on meanwhile: rows are kept, picked rows are renewed, and
      every other row is either untouched or renewed. */
  ghost predicate Cycle(before: map<InvoiceId, Invoice>, picked: seq<Invoice>, after: map<InvoiceId, Invoice>,
                        now: Time, q: nat) {
    && KeyedRows(before) && OldestPending(before, picked, q)
    && (forall id | id in before :: before[id].updatedAt <= now && id in after)
    && (forall id | id in after ::
          Renewed(after[id], now) || (id in before && !In(picked, id) && after[id] == before[id]))
  }

  lemma Snoc<T>(s: seq<T>)
    requires s != []
    ensures s == s[..|s| - 1] + [s[|s| - 1]]
  {
  }

  lemma NotAgain(picked: seq<Invoice>)
    requires DistinctIds(picked) && picked != []
    ensures !In(picked[..|picked| - 1], picked[|picked| - 1].id)
  {
  }

  lemma {:induction false} ServeRenews(maxRetries: int, rows: map<InvoiceId, Invoice>, picked: seq<Invoice>,
                                       envs: nat -> (nat -> Answer), now: Time)
    requires KeyedRows(rows) && DistinctIds(picked) && forall k: nat :: Healthy(envs(k), now)
    requires forall k | 0 <= k < |picked| ::
               picked[k].id in rows && rows[picked[k].id] == picked[k]
               && Pending(picked[k]) && !Blank(picked[k].transactionUuid)
    ensures var rows' := Serve(maxRetries, rows, picked, envs);
            && rows'.Keys == rows.Keys
            && (forall id | id in rows :: if In(picked, id) then Renewed(rows'[id], now) else rows'[id] == rows[id])
    decreases |picked|
  {
    if picked != [] {
      var n := |picked| - 1;
      var init := picked[..n];
      hide Healthy, Renewed, RunToEnd, Blank, Pending, In, StartOf, PollerJob;
      ServeRenews(maxRetries, rows, init, envs, now);
      var before := Serve(maxRetries, rows, init, envs);
      Snoc(picked);
      NotAgain(picked);
      ServedIsRenewed(maxRetries, Lane(picked[n], [], NO_AUDIT), envs(n), now);
      ServeLast(maxRetries, rows, init, picked[n], before, Serve(maxRetries, rows, picked, envs), envs(n), now);
    }
  }

  lemma ServeLast(maxRetries: int, rows: map<InvoiceId, Invoice>, init: seq<Invoice>, last: Invoice,
                  before: map<InvoiceId, Invoice>, after: map<InvoiceId, Invoice>, env: nat -> Answer, now: Time)
    requires before.Keys == rows.Keys && last.id in rows && rows[last.id] == last && !In(init, last.id)
    requires forall id | id in rows :: if In(init, id) then Renewed(before[id], now) else before[id] == rows[id]
    requires after == before[last.id := RunToEnd(maxRetries, Lane(before[last.id], [], NO_AUDIT),
                                                       StartOf(PollerJob(last)), env, 0).row]
    requires Renewed(RunToEnd(maxRetries, Lane(last, [], NO_AUDIT), StartOf(PollerJob(last)), env, 0).row, now)
    ensures after.Keys == rows.Keys
    ensures forall id | id in rows :: if In(init + [last], id) then Renewed(after[id], now) else after[id] == rows[id]
  {
    hide Renewed, RunToEnd;
    forall id ensures In(init + [last], id) <==> In(init, id) || id == last.id {
      InGrows(init, last, id);
    }
    hide In;
  }

  /** Reading the list and serving it, with no errors and a clock that moves on, is such a cycle. */
  lemma ServingIsCycle(maxRetries: int, rows: map<InvoiceId, Invoice>, picked: seq<Invoice>,
                       envs: nat -> (nat -> Answer), now: Time, q: nat)
    requires KeyedRows(rows) && OldestPending(rows, picked, q) && forall k: nat :: Healthy(envs(k), now)
    requires forall id | id in rows :: rows[id].updatedAt <= now && !Blank(rows[id].transactionUuid)
    ensures Cycle(rows, picked, Serve(maxRetries, rows, picked, envs), now, q)
  {
    ServeRenews(maxRetries, rows, picked, envs, now);
    hide Serve, Healthy, Renewed;
  }

  // ---------- The bound ----------

  /** The pending rows at least as old as the given one. */
  function Older(rows: map<InvoiceId, Invoice>, id: InvoiceId): set<InvoiceId>
    requires id in rows
  {
    set other | other in rows && other != id && Pending(rows[other]) && rows[other].updatedAt <= rows[id].updatedAt
  }

  function IdsOf(picked: seq<Invoice>): set<InvoiceId> {
    set k | 0 <= k < |picked| :: picked[k].id
  }

  lemma {:induction false} IdsCount(picked: seq<Invoice>)
    requires DistinctIds(picked)
    ensures |IdsOf(picked)| == |picked|
    decreases |picked|
  {
    if picked != [] {
      var n := |picked| - 1;
      IdsCount(picked[..n]);
      assert IdsOf(picked) == IdsOf(picked[..n]) + {picked[n].id};
    }
  }

  /** A pending row that a cycle neither picks nor rewrites loses a full batch of older rows. */
  lemma PassedOver(before: map<InvoiceId, Invoice>, picked: seq<Invoice>, after: map<InvoiceId, Invoice>, now: Time,
                   q: nat, id: InvoiceId)
    requires Cycle(before, picked, after, now, q)
    requires id in before && Pending(before[id]) && after[id] == before[id]
    ensures |Older(after, id)| + q <= |Older(before, id)|
  {
    assert !In(picked, id) && |picked| == q;
    IdsCount(picked);
    var ids := IdsOf(picked);
    forall other | other in ids ensures other in Older(before, id) && other !in Older(after, id) {
      var k :| 0 <= k < |picked| && picked[k].id == other;
      assert picked[k].updatedAt <= before[id].updatedAt && In(picked, other);
    }
    assert Older(after, id) <= Older(before, id) - ids;
    SubsetSize(Older(after, id), Older(before, id) - ids);
  }

  /** The tables before each cycle and after the last; what each cycle picked; when it began. */
  ghost predicate Cycles(tables: seq<map<InvoiceId, Invoice>>, picks: seq<seq<Invoice>>, starts: seq<Time>, q: nat) {
    && |tables| == |picks| + 1 == |starts| + 1
    && forall n | 0 <= n < |picks| :: Cycle(tables[n], picks[n], tables[n + 1], starts[n], q)
  }

  lemma {:induction false} WaitingIsBounded(tables: seq<map<InvoiceId, Invoice>>, picks: seq<seq<Invoice>>,
                                            starts: seq<Time>,
                                            q: nat, id: InvoiceId)
    requires Cycles(tables, picks, starts, q) && id in tables[0] && Pending(tables[0][id])
    requires forall n | 0 <= n < |tables| :: id in tables[n] && tables[n][id] == tables[0][id]
    ensures |Older(tables[|picks|], id)| + |picks| * q <= |Older(tables[0], id)|
    decreases |picks|
  {
    if |picks| > 0 {
      var m := |picks| - 1;
      WaitingIsBounded(tables[..m + 1], picks[..m], starts[..m], q, id);
      PassedOver(tables[m], picks[m], tables[m + 1], starts[m], q, id);
      assert |picks| * q == m * q + q;
    }
  }

  lemma RowKept(tables: seq<map<InvoiceId, Invoice>>, picks: seq<seq<Invoice>>, starts: seq<Time>, q: nat,
                id: InvoiceId, n: nat)
    requires Cycles(tables, picks, starts, q) && id in tables[0] && n < |tables|
    ensures id in tables[n]
  {
    if n > 0 {
      RowKept(tables, picks, starts, q, id, n - 1);
      assert Cycle(tables[n - 1], picks[n - 1], tables[n - 1 + 1], starts[n - 1], q);
    }
  }

  lemma {:induction false} UnchangedSoFar(tables: seq<map<InvoiceId, Invoice>>, id: InvoiceId, n: nat)
    requires n < |tables| && forall m | 0 <= m < |tables| :: id in tables[m]
    requires forall m | 0 <= m < n :: tables[m + 1][id] == tables[m][id]
    ensures tables[n][id] == tables[0][id]
  {
    if n > 0 {
      UnchangedSoFar(tables, id, n - 1);
      assert tables[n - 1 + 1][id] == tables[n - 1][id];
    }
  }

  /** With queue size q >= 1, a pending invoice with p older pending ones is picked or rewritten within
      p / q + 1 poll cycles. */
  lemma PollFairness(tables: seq<map<InvoiceId, Invoice>>, picks: seq<seq<Invoice>>, starts: seq<Time>, q: nat,
                     id: InvoiceId)
    requires q >= 1 && Cycles(tables, picks, starts, q)
    requires id in tables[0] && Pending(tables[0][id])
    requires |picks| >= |Older(tables[0], id)| / q + 1
    ensures exists n | 0 <= n < |picks| ::
              id in tables[n] && id in tables[n + 1] && (In(picks[n], id) || tables[n + 1][id] != tables[n][id])
  {
    forall m | 0 <= m < |tables| ensures id in tables[m] {
      RowKept(tables, picks, starts, q, id, m);
    }
    if forall n | 0 <= n < |picks| :: tables[n + 1][id] == tables[n][id] {
      forall n | 0 <= n < |tables| ensures tables[n][id] == tables[0][id] {
        UnchangedSoFar(tables, id, n);
      }
      WaitingIsBounded(tables, picks, starts, q, id);
      TooMany(|picks|, q, |Older(tables[0], id)|);
    }
  }

  lemma TooMany(n: nat, q: nat, p: nat)
    requires q >= 1 && n >= p / q + 1
    ensures n * q > p
  {
    assert n * q >= (p / q + 1) * q == (p / q) * q + q;
  }
}
