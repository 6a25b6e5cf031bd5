/** internal/repository/postgres/invoice_repo.go: the tables and the statements on them. Whether the
    database carries a statement out is a parameter of each call. */
module Repository {
  import opened Domain
  import opened Rows
  import opened Steps

  const NOT_FOUND := AppError(NotFound, "invoice not found", None)
  const DB_ERROR := AppError(Internal, "database error", None)

  /** How an insert transaction fares: its three other statements, and each item insert. */
  datatype InsertEnv = InsertEnv(begun: bool, inserted: bool, committed: bool, itemInserted: nat -> bool)

  ghost predicate KeyedRows(rows: map<InvoiceId, Invoice>) {
    forall id | id in rows :: rows[id].id == id
  }

  // ---------- What the statements write, column by column ----------

  /** A new row: the caller's columns, except the four that take their defaults. */
  predicate InsertedAs(row: Invoice, inv: Invoice) {
    && row.id == inv.id && row.externalId == inv.externalId && row.transactionUuid == inv.transactionUuid
    && row.status == inv.status && row.content == inv.content && row.transactionHash == inv.transactionHash
    && row.metadata == inv.metadata && row.createdAt == inv.createdAt && row.updatedAt == inv.updatedAt
    && row.submittedAt.None? && row.completedAt.None? && row.retryCount == 0 && row.lastError.None?
  }

  /** A row written back: the copy's columns, except the three that stay. */
  predicate WrittenBack(row: Invoice, was: Invoice, copy: Invoice) {
    && row.externalId == copy.externalId && row.transactionUuid == copy.transactionUuid
    && row.content == copy.content && row.transactionHash == copy.transactionHash
    && row.submittedAt == copy.submittedAt && row.completedAt == copy.completedAt
    && row.retryCount == copy.retryCount && row.lastError == copy.lastError
    && row.metadata == copy.metadata && row.updatedAt == copy.updatedAt
    && row.id == was.id && row.status == was.status && row.createdAt == was.createdAt
  }

  /** A status write: status, reason and update time; the time of its own for submitted and completed. */
  predicate StatusWritten(row: Invoice, was: Invoice, status: Status, reason: Reason, now: Time, later: Time) {
    && row.status == status && row.lastError == Some(reason) && row.updatedAt == now
    && row.submittedAt == (if status == Submitted then Some(later) else was.submittedAt)
    && row.completedAt == (if status == Completed then Some(later) else was.completedAt)
    && row.id == was.id && row.externalId == was.externalId && row.transactionUuid == was.transactionUuid
    && row.content == was.content && row.transactionHash == was.transactionHash
    && row.retryCount == was.retryCount && row.metadata == was.metadata && row.createdAt == was.createdAt
  }

  predicate HashWritten(row: Invoice, was: Invoice, hash: string, now: Time) {
    && row.transactionHash == hash && row.updatedAt == now
    && row.id == was.id && row.externalId == was.externalId && row.transactionUuid == was.transactionUuid
    && row.status == was.status && row.content == was.content && row.metadata == was.metadata
    && row.submittedAt == was.submittedAt && row.completedAt == was.completedAt
    && row.retryCount == was.retryCount && row.lastError == was.lastError && row.createdAt == was.createdAt
  }

  // ---------- The pending list ----------

  ghost predicate DistinctIds(invoices: seq<Invoice>) {
    forall i, j | 0 <= i < j < |invoices| :: invoices[i].id != invoices[j].id
  }

  ghost predicate OldestFirst(invoices: seq<Invoice>) {
    forall i, j | 0 <= i < j < |invoices| :: invoices[i].updatedAt <= invoices[j].updatedAt
  }

  predicate In(invoices: seq<Invoice>, id: InvoiceId) {
    exists k | 0 <= k < |invoices| :: invoices[k].id == id
  }

  /** `picked` are the `limit` least recently updated submitted and processing rows, or all of them. */
  ghost predicate OldestPending(rows: map<InvoiceId, Invoice>, picked: seq<Invoice>, limit: nat) {
    && (forall k | 0 <= k < |picked| :: picked[k].id in rows && rows[picked[k].id] == picked[k] && Pending(picked[k]))
    && DistinctIds(picked) && OldestFirst(picked) && |picked| <= limit
    && (forall id | id in rows && Pending(rows[id]) && !In(picked, id) ::
          |picked| == limit && forall k | 0 <= k < |picked| :: picked[k].updatedAt <= rows[id].updatedAt)
  }

  lemma {:induction false} OldestExists(rows: map<InvoiceId, Invoice>, ids: set<InvoiceId>)
    requires ids != {} && ids <= rows.Keys
    ensures exists id :: id in ids && forall other | other in ids :: rows[id].updatedAt <= rows[other].updatedAt
  {
    var id :| id in ids;
    if ids - {id} != {} {
      OldestExists(rows, ids - {id});
      var least :| least in ids - {id}
                     && forall other | other in ids - {id} :: rows[least].updatedAt <= rows[other].updatedAt;
      var best := if rows[id].updatedAt <= rows[least].updatedAt then id else least;
      assert forall other | other in ids :: other == id || other in ids - {id};
      assert best in ids && forall other | other in ids :: rows[best].updatedAt <= rows[other].updatedAt;
    } else {
      assert ids == {id};
    }
  }

  /** Half way through: the rows picked so far, and the pending rows still to choose from. */
  ghost predicate Selecting(rows: map<InvoiceId, Invoice>, picked: seq<Invoice>, rest: set<InvoiceId>) {
    && (forall id | id in rest :: id in rows && Pending(rows[id]) && !In(picked, id))
    && (forall id | id in rows && Pending(rows[id]) :: id in rest || In(picked, id))
    && (forall k | 0 <= k < |picked| :: picked[k].id in rows && rows[picked[k].id] == picked[k] && Pending(picked[k]))
    && (forall k, id | 0 <= k < |picked| && id in rest :: picked[k].updatedAt <= rows[id].updatedAt)
    && DistinctIds(picked) && OldestFirst(picked)
  }

  lemma InGrows(picked: seq<Invoice>, inv: Invoice, id: InvoiceId)
    ensures In(picked + [inv], id) <==> In(picked, id) || id == inv.id
  {
    var grown := picked + [inv];
    if In(picked, id) {
      var k :| 0 <= k < |picked| && picked[k].id == id;
      assert grown[k].id == id;
    }
    if id == inv.id {
      assert grown[|picked|].id == id;
    }
  }

  lemma SelectOldest(rows: map<InvoiceId, Invoice>, picked: seq<Invoice>, rest: set<InvoiceId>, id: InvoiceId)
    requires Selecting(rows, picked, rest) && id in rest && rows[id].id == id
    requires forall other | other in rest :: rows[id].updatedAt <= rows[other].updatedAt
    ensures Selecting(rows, picked + [rows[id]], rest - {id})
  {
    forall other ensures In(picked + [rows[id]], other) <==> In(picked, other) || other == id {
      InGrows(picked, rows[id], other);
    }
    assert forall k | 0 <= k < |picked| :: In(picked, picked[k].id);
    hide In;
  }

  // ---------- Items in line order ----------

  predicate NotAfter(a: InvoiceItem, b: InvoiceItem) {
    a.lineNumber < b.lineNumber || (a.lineNumber == b.lineNumber && a.createdAt <= b.createdAt)
  }

  ghost predicate InLineOrder(items: seq<InvoiceItem>) {
    forall i, j | 0 <= i < j < |items| :: NotAfter(items[i], items[j])
  }

  lemma InsertedInOrder(items: seq<InvoiceItem>, item: InvoiceItem, k: nat)
    requires k <= |items| && InLineOrder(items)
    requires k > 0 ==> NotAfter(items[k - 1], item)
    requires k < |items| ==> NotAfter(item, items[k])
    ensures InLineOrder(items[..k] + [item] + items[k..])
  {
    forall i | 0 <= i < |items| ensures if i < k then NotAfter(items[i], item) else NotAfter(item, items[i]) {
      if i < k - 1 {
        assert NotAfter(items[i], items[k - 1]);
      } else if i > k {
        assert NotAfter(items[k], items[i]);
      }
    }
    hide NotAfter;
    var grown := items[..k] + [item] + items[k..];
    assert forall i | 0 <= i < |grown| :: grown[i] == if i < k then items[i] else if i == k then item else items[i - 1];
    forall i, j | 0 <= i < j < |grown| ensures NotAfter(grown[i], grown[j]) {
      if i != k && j != k {
        assert NotAfter(items[if i < k then i else i - 1], items[if j < k then j else j - 1]);
      }
    }
  }

  lemma NothingToOrder()
    ensures InLineOrder([])
  {
  }

  lemma InsertedOnce<T>(items: seq<T>, item: T, k: nat)
    requires k <= |items|
    ensures multiset(items[..k] + [item] + items[k..]) == multiset(items) + multiset{item}
  {
    assert items == items[..k] + items[k..];
  }

  method InsertItem(sorted: seq<InvoiceItem>, item: InvoiceItem) returns (grown: seq<InvoiceItem>)
    requires InLineOrder(sorted)
    ensures InLineOrder(grown) && multiset(grown) == multiset(sorted) + multiset{item}
  {
    var j := |sorted|;
    while j > 0 && !NotAfter(sorted[j - 1], item)
      invariant 0 <= j <= |sorted| && (j < |sorted| ==> NotAfter(item, sorted[j]))
    {
      j := j - 1;
    }
    InsertedInOrder(sorted, item, j);
    InsertedOnce(sorted, item, j);
    return sorted[..j] + [item] + sorted[j..];
  }

  // ---------- History lines ----------

  function ChangesOf(lines: seq<HistoryLine>): (changes: seq<Change>)
    ensures |changes| == |lines|
  {
    seq(|lines|, k requires 0 <= k < |lines| => lines[k].change)
  }

  lemma ChangesSnoc(lines: seq<HistoryLine>, line: HistoryLine)
    ensures ChangesOf(lines + [line]) == ChangesOf(lines) + [line.change]
  {
  }

  class InvoiceRepo {
    var rows: map<InvoiceId, Invoice>
    var items: map<InvoiceId, seq<InvoiceItem>>
    var history: map<InvoiceId, seq<HistoryLine>>

    constructor ()
      ensures rows == map[] && items == map[] && history == map[]
    {
      rows, items, history := map[], map[], map[];
    }

    ghost predicate Keyed()
      reads this
    {
      KeyedRows(rows)
    }

    function ItemsOf(id: InvoiceId): seq<InvoiceItem>
      reads this
    {
      if id in items then items[id] else []
    }

    function LinesOf(id: InvoiceId): seq<HistoryLine>
      reads this
    {
      if id in history then history[id] else []
    }

    function HistoryOf(id: InvoiceId): seq<Change>
      reads this
    {
      ChangesOf(LinesOf(id))
    }

    /** The invoice's row and history, as the steps see them. */
    ghost function LaneOf(id: InvoiceId): Lane
      requires id in rows
      reads this
    {
      Lane(rows[id], HistoryOf(id), NO_AUDIT)
    }

    ghost predicate Stands(id: InvoiceId, lane: Lane)
      reads this
    {
      id in rows && lane.row == rows[id] && lane.history == HistoryOf(id)
    }

    /** Row and history of one invoice are those of `lane`; nothing else has changed. */
    twostate predicate EndsAs(id: InvoiceId, lane: Lane)
      reads this
    {
      && id in old(rows)
      && rows == old(rows)[id := lane.row]
      && HistoryOf(id) == lane.history
      && items == old(items)
      && old(LinesOf(id)) <= LinesOf(id)
      && (forall other | other != id :: LinesOf(other) == old(LinesOf(other)))
    }

    /** Inserts the invoice and all its items, or nothing at all. */
    method CreateWithItems(inv: Invoice, lines: seq<InvoiceItem>, env: InsertEnv) returns (err: Option<AppError>)
      requires inv.transactionUuid.Some?
      modifies this`rows, this`items
      ensures err.None? <==>
                && env.begun && env.inserted && env.committed && (forall k: nat | k < |lines| :: env.itemInserted(k))
                && inv.id !in old(rows)
                && (forall id | id in old(rows) :: old(rows[id]).transactionUuid != inv.transactionUuid)
      ensures rows == if err.None? then old(rows)[inv.id := Inserted(inv)] else old(rows)
      ensures err.None? ==> InsertedAs(rows[inv.id], inv)
      ensures items == if err.None? then old(items)[inv.id := lines] else old(items)
    {
      if !env.begun {
        return Some(DB_ERROR);
      }
      var clash := inv.id in rows || exists id | id in rows :: rows[id].transactionUuid == inv.transactionUuid;
      if !env.inserted || clash {
        return Some(DB_ERROR);
      }
      var pending := [];
      for k := 0 to |lines|
        invariant pending == lines[..k]
        invariant forall j: nat | j < k :: env.itemInserted(j)
        invariant rows == old(rows) && items == old(items)
      {
        if !env.itemInserted(k) {
          return Some(DB_ERROR);
        }
        pending := pending + [lines[k]];
      }
      if !env.committed {
        return Some(DB_ERROR);
      }
      rows := rows[inv.id := Invoice(inv.id, inv.externalId, inv.transactionUuid, inv.status, inv.content,
                                     inv.transactionHash, None, None, 0, None, inv.metadata,
                                     inv.createdAt, inv.updatedAt)];
      assert pending == lines;
      items := items[inv.id := pending];
      return None;
    }

    method GetByID(id: InvoiceId, stored: bool) returns (r: Result<Invoice, AppError>)
      ensures r.Ok? <==> stored && id in rows
      ensures r.Ok? ==> r.value == rows[id]
      ensures r.Err? ==> r.error == if stored then NOT_FOUND else DB_ERROR
    {
      if !stored {
        return Err(DB_ERROR);
      }
      if id !in rows {
        return Err(NOT_FOUND);
      }
      return Ok(rows[id]);
    }

    /** The invoice's items by line number, then by creation time. */
    method GetItemsByInvoiceID(id: InvoiceId, stored: bool) returns (r: Result<seq<InvoiceItem>, AppError>)
      ensures r.Ok? <==> stored
      ensures r.Ok? ==> multiset(r.value) == multiset(ItemsOf(id)) && InLineOrder(r.value)
    {
      if !stored {
        return Err(DB_ERROR);
      }
      hide InLineOrder, NotAfter;
      var found := if id in items then items[id] else [];
      var sorted: seq<InvoiceItem> := [];
      NothingToOrder();
      for k := 0 to |found|
        invariant multiset(sorted) == multiset(found[..k]) && InLineOrder(sorted)
      {
        sorted := InsertItem(sorted, found[k]);
        assert found[..k + 1] == found[..k] + [found[k]];
      }
      assert found[..|found|] == found;
      return Ok(sorted);
    }

    /** Writes the invoice back, column by column. */
    method Update(inv: Invoice, stored: bool) returns (err: Option<AppError>)
      requires Keyed()
      modifies this`rows
      ensures Keyed() && (err.None? <==> stored && inv.id in old(rows))
      ensures err.Some? ==> err.value == if stored then NOT_FOUND else DB_ERROR
      ensures rows == if err.None? then old(rows)[inv.id := Overwrite(old(rows)[inv.id], inv)] else old(rows)
      ensures err.None? ==> WrittenBack(rows[inv.id], old(rows)[inv.id], inv)
    {
      if !stored {
        return Some(DB_ERROR);
      }
      if inv.id !in rows {
        return Some(NOT_FOUND);
      }
      var row := rows[inv.id];
      row := row.(externalId := inv.externalId, transactionUuid := inv.transactionUuid, content := inv.content,
                  transactionHash := inv.transactionHash);
      row := row.(submittedAt := inv.submittedAt, completedAt := inv.completedAt, retryCount := inv.retryCount,
                  lastError := inv.lastError);
      row := row.(metadata := inv.metadata, updatedAt := inv.updatedAt);
      rows := rows[inv.id := row];
      return None;
    }

    method UpdateTransactionHash(id: InvoiceId, hash: string, now: Time, stored: bool) returns (err: Option<AppError>)
      requires Keyed()
      modifies this`rows
      ensures Keyed() && (err.None? <==> stored && id in old(rows))
      ensures err.Some? ==> err.value == if stored then NOT_FOUND else DB_ERROR
      ensures rows == if err.None? then old(rows)[id := WriteHash(old(rows)[id], hash, now)] else old(rows)
      ensures err.None? ==> HashWritten(rows[id], old(rows)[id], hash, now)
    {
      if !stored {
        return Some(DB_ERROR);
      }
      if id !in rows {
        return Some(NOT_FOUND);
      }
      rows := rows[id := rows[id].(transactionHash := hash, updatedAt := now)];
      return None;
    }

    /** The statement grows a column for the status it writes. No transition check is made. */
    method UpdateStatus(id: InvoiceId, status: Status, reason: Reason, now: Time, later: Time, stored: bool)
      returns (err: Option<AppError>)
      requires Keyed()
      modifies this`rows
      ensures Keyed() && (err.None? <==> stored && id in old(rows))
      ensures err.Some? ==> err.value == if stored then NOT_FOUND else DB_ERROR
      ensures rows == if err.None? then old(rows)[id := WriteStatus(old(rows)[id], status, reason, now, later)]
                      else old(rows)
      ensures err.None? ==> StatusWritten(rows[id], old(rows)[id], status, reason, now, later)
    {
      if !stored {
        return Some(DB_ERROR);
      }
      if id !in rows {
        return Some(NOT_FOUND);
      }
      var row := rows[id].(status := status, lastError := Some(reason), updatedAt := now);
      if status == Submitted {
        row := row.(submittedAt := Some(later));
      }
      if status == Completed {
        row := row.(completedAt := Some(later));
      }
      rows := rows[id := row];
      return None;
    }

    method AddStatusHistory(id: InvoiceId, line: HistoryLine, stored: bool) returns (err: Option<AppError>)
      modifies this`history
      ensures err.None? <==> stored && id in rows
      ensures LinesOf(id) == if err.None? then old(LinesOf(id)) + [line] else old(LinesOf(id))
      ensures HistoryOf(id) == if err.None? then old(HistoryOf(id)) + [line.change] else old(HistoryOf(id))
      ensures forall other | other != id :: LinesOf(other) == old(LinesOf(other))
    {
      if !stored || id !in rows {
        return Some(DB_ERROR);
      }
      ChangesSnoc(LinesOf(id), line);
      history := history[id := LinesOf(id) + [line]];
      return None;
    }

    /** The submitted and processing rows, least recently updated first, at most `limit`. */
    method GetPendingPolling(limit: nat, stored: bool) returns (r: Result<seq<Invoice>, AppError>)
      requires Keyed()
      ensures r.Ok? <==> stored
      ensures r.Ok? ==> OldestPending(rows, r.value, limit)
      ensures r.Ok? ==> forall k | 0 <= k < |r.value| ::
                r.value[k].status == Submitted || r.value[k].status == Processing
      ensures r.Ok? && |r.value| < limit ==>
                forall id | id in rows && (rows[id].status == Submitted || rows[id].status == Processing)
                  :: In(r.value, id)
    {
      if !stored {
        return Err(DB_ERROR);
      }
      var rest := set id | id in rows && Pending(rows[id]);
      var picked: seq<Invoice> := [];
      while |picked| < limit && rest != {}
        invariant |picked| <= limit && Selecting(rows, picked, rest)
        decreases rest
      {
        OldestExists(rows, rest);
        var id :| id in rest && forall other | other in rest :: rows[id].updatedAt <= rows[other].updatedAt;
        SelectOldest(rows, picked, rest, id);
        picked := picked + [rows[id]];
        rest := rest - {id};
      }
      return Ok(picked);
    }
  }
}
