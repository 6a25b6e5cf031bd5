/** The entities of the invoice service (internal/domain): statuses and their documented
    transitions, the invoice row, its line items, and the application error. */
module Domain {
  datatype Option<+T> = None | Some(value: T)
  datatype Result<+T, +E> = Ok(value: T) | Err(error: E)

  type InvoiceId = string
  /** Nanoseconds on the clock the service reads. */
  type Time = int

  datatype Status = Draft | Submitted | Processing | Completed | Failed | Cancelled

  const VALID_TRANSITIONS: map<Status, seq<Status>> :=
    map[Draft := [Submitted, Cancelled],
        Submitted := [Processing, Failed, Cancelled],
        Processing := [Completed, Failed, Cancelled],
        Failed := [Submitted, Cancelled]]

  predicate CanTransitionTo(from: Status, to: Status) {
    from in VALID_TRANSITIONS && to in VALID_TRANSITIONS[from]
  }

  /** The documented table: nothing leads out of completed and cancelled. */
  lemma TransitionTable(from: Status, to: Status)
    ensures CanTransitionTo(from, to)
            <==> || (from == Draft && (to == Submitted || to == Cancelled))
                 || (from == Submitted && (to == Processing || to == Failed || to == Cancelled))
                 || (from == Processing && (to == Completed || to == Failed || to == Cancelled))
                 || (from == Failed && (to == Submitted || to == Cancelled))
  {
  }

  /** The columns an API caller supplies once and that are sent to the issuer or kept as evidence. */
  datatype Content = Content(
    buyerName: string, buyerLegalName: string, buyerTaxCode: string, buyerAddress: string,
    buyerEmail: string, buyerPhone: string, buyerCode: string,
    currency: string, totalAmountWithTax: real, totalTaxAmount: real, totalAmountWithoutTax: real,
    tokenCurrency: string, exchangeRate: real, exchangeRateSource: string,
    tokenTotalAmount: real, tokenTaxAmount: real, tokenNetAmount: real,
    paymentMethod: string, erpOrderId: string, notes: string, issuedAt: Option<Time>)

  datatype Invoice = Invoice(
    id: InvoiceId,
    externalId: Option<string>,
    transactionUuid: Option<string>,
    status: Status,
    content: Content,
    transactionHash: string,
    submittedAt: Option<Time>,
    completedAt: Option<Time>,
    retryCount: int,
    lastError: Option<Reason>,
    metadata: Option<string>,
    createdAt: Time,
    updatedAt: Time)

  datatype InvoiceItem = InvoiceItem(
    id: string, invoiceId: InvoiceId,
    itemName: string, quantity: real, unitPrice: real,
    taxPercentage: real, taxAmount: real,
    totalWithoutTax: real, totalWithTax: real,
    totalAfterDiscount: Option<real>, itemDiscount: Option<real>,
    lineNumber: int, createdAt: Time,
    selection: Option<int>, itemType: Option<int>,
    itemCode: string, unitCode: string, unitName: string,
    discount: real, discount2: real, itemNote: string, isIncreaseItem: Option<bool>,
    batchNo: string, expDate: string, adjustRatio: string,
    unitPriceWithTax: Option<real>, specialInfo: seq<(string, string)>)

  /** One step of a status trace. */
  datatype Change = Change(from: Status, to: Status)

  /** One line of the recorded status history. */
  datatype HistoryLine = HistoryLine(id: string, change: Change, reason: string, changedBy: string, createdAt: Time)

  /** A nullable text column that is NULL or empty. */
  predicate Blank(text: Option<string>) {
    text.None? || text.value == ""
  }

  predicate Pending(inv: Invoice) {
    inv.status == Submitted || inv.status == Processing
  }

  datatype ErrorCode =
    | NotFound | Validation | InvalidTransition | ThirdParty | Internal | QueueFull

  datatype ViettelErrCode =
    | TaxCodeInvalid | TxnUuidRequired | TaxCodeRequired | BuyerEmailRequired | NotFoundData
    | BuyerEmailFormat | EmailConfigNotActive | EmailNotConfig | Unknown

  datatype ViettelError = ViettelError(
    code: ViettelErrCode, rawMessage: string, description: string, retryable: bool)

  /** An application error; `viettel` is the issuer error found further down its chain, if any. */
  datatype AppError = AppError(code: ErrorCode, message: string, viettel: Option<ViettelError>)

  /** The texts the service writes to last_error, as the values they are composed of. */
  datatype Reason =
    | SubmittedViaApi
    | SendingToViettel
    | ItemsNotLoaded
    | NonRetryable(rejection: ViettelError)
    | PublishError(error: AppError)
    | MaxRetriesExceeded(error: AppError)
    | RetryPending(error: AppError)
    | PublishedToViettel
    | ViettelConfirmed(no: string)
}
