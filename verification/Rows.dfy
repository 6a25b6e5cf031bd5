/** What each statement of invoice_repo.go writes to one row of the invoices table. */
module Rows {
  import opened Domain

  /** `Update` writes every column except id, status and created_at from a caller's copy. */
  function Overwrite(row: Invoice, copy: Invoice): Invoice {
    copy.(id := row.id, status := row.status, createdAt := row.createdAt)
  }

  /** `UpdateStatus` reads the clock twice: once for updated_at, once for the status's own column. */
  function WriteStatus(row: Invoice, status: Status, reason: Reason, now: Time, later: Time): Invoice {
    row.(status := status, lastError := Some(reason), updatedAt := now,
         submittedAt := if status == Submitted then Some(later) else row.submittedAt,
         completedAt := if status == Completed then Some(later) else row.completedAt)
  }

  function WriteHash(row: Invoice, hash: string, now: Time): Invoice {
    row.(transactionHash := hash, updatedAt := now)
  }

  /** The row `CreateWithItems` inserts: submitted_at, completed_at, retry_count and last_error are
      not in the column list and take their defaults. */
  function Inserted(inv: Invoice): Invoice {
    inv.(submittedAt := None, completedAt := None, retryCount := 0, lastError := None)
  }

  /** The row a request to create an invoice ends as: the handler supplies content and hash,
      the service the ids, the status and the times. */
  function NewInvoice(id: InvoiceId, uuid: string, content: Content, hash: string, now: Time): Invoice {
    Inserted(Invoice(id, None, Some(uuid), Draft, content, hash, None, None, 0, None, None, now, now))
  }
}
