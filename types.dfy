/** The view models of src/types.ts. Timestamps are milliseconds since the epoch; an optional
    field is an Option (None for `undefined`). Icons and other React nodes are left out. */
module Types {
  import opened Wrappers

  type Millis = int

  // ---- Call ----------------------------------------------------------------------------

  datatype CallStatus = New | Reviewed | Flagged

  datatype CallDocumentStatus = PendingDoc | ReceivedDoc | RejectedDoc

  /** One entry of `Call['documents']`. */
  datatype CallDocument = CallDocument(
    name: string,
    status: CallDocumentStatus,
    required: bool,
    url: Option<string>)

  datatype EventStatus = EventCompleted | EventCurrent | EventUpcoming

  datatype EventType = CallEvent | EmailEvent | DocumentEvent | SystemEvent | ProviderEvent

  /** One entry of `Call['timeline']`; `kind` is the optional `type` field. */
  datatype TimelineEvent = TimelineEvent(
    date: Millis,
    title: string,
    description: string,
    status: EventStatus,
    kind: Option<EventType>)

  datatype Contact = Contact(email: string, phone: string, address: Option<string>)

  datatype Call = Call(
    id: string,
    customerName: string,
    timestamp: Millis,
    duration: string,
    subject: string,
    summary: string,
    status: CallStatus,
    loanType: string,
    loanAmount: int,
    transcript: string,
    creditScore: Option<int>,
    income: Option<int>,
    contact: Contact,
    documents: seq<CallDocument>,
    nextSteps: seq<string>,
    timeline: seq<TimelineEvent>)

  // ---- Credit check ----------------------------------------------------------------------

  datatype CheckStatus = CheckPending | CheckInProgress | CheckCompleted | CheckFailed

  datatype CreditReport = CreditReport(
    summary: string,
    defaultHistory: bool,
    bankruptcyHistory: bool,
    creditUtilization: int,
    inquiries: int)

  /** A date field as it arrives from the database: absent (`undefined`), SQL `null`, or a
      timestamp. */
  datatype DateField = Undefined | Null | At(ms: Millis)

  /** `new Date(d).getTime()`: `undefined` gives NaN (None), `null` gives the epoch. */
  function TimeOf(d: DateField): (r: Option<Millis>)
    ensures r.None? <==> d.Undefined?
    ensures d.Null? ==> r == Some(0)
  {
    match d
    case Undefined => None
    case Null => Some(0)
    case At(ms) => Some(ms)
  }

  datatype CreditCheck = CreditCheck(
    status: CheckStatus,
    provider: string,
    requestDate: Millis,
    completedDate: DateField,
    score: Option<int>,
    report: Option<CreditReport>,
    error: Option<string>)

  // ---- Document --------------------------------------------------------------------------

  datatype DocStatus = PendingUpload | Uploaded | Processing | Verified | Rejected | Expired

  /** The status as it is spelled in the data and in filter values. */
  function DocStatusName(s: DocStatus): string {
    match s
    case PendingUpload => "pending_upload"
    case Uploaded => "uploaded"
    case Processing => "processing"
    case Verified => "verified"
    case Rejected => "rejected"
    case Expired => "expired"
  }

  datatype AiStatus = AiPending | AiSuccess | AiFailed | AiNeedsReview

  datatype VerifiedBy = ByAi | ByManual

  datatype VerificationDetails = VerificationDetails(
    verifiedBy: Option<VerifiedBy>,
    verifiedAt: Option<Millis>,
    issues: Option<seq<string>>,
    score: Option<int>)

  datatype Document = Document(
    id: string,
    customerId: string,
    customerName: string,
    documentType: string,
    status: DocStatus,
    aiVerificationStatus: Option<AiStatus>,
    uploadDate: Option<Millis>,
    expiryDate: Option<Millis>,
    required: bool,
    notes: seq<string>,
    url: Option<string>,
    verificationDetails: Option<VerificationDetails>)

  // ---- Customer --------------------------------------------------------------------------

  datatype CustomerStatus = Active | Inactive | CustomerPending

  datatype Customer = Customer(
    id: string,
    name: string,
    email: string,
    phone: string,
    address: Option<string>,
    status: CustomerStatus,
    joinDate: Millis,
    lastContact: Millis,
    totalLoans: int,
    activeLoans: int,
    creditScore: Option<int>,
    creditCheck: Option<CreditCheck>,
    profileImage: Option<string>,
    tags: seq<string>)

  /** JavaScript truthiness of an optional string: present and not empty. */
  predicate TruthyString(s: Option<string>) {
    s.Some? && s.value != ""
  }

  /** `s || fallback` for an optional string. */
  function OrElse(s: Option<string>, fallback: string): (r: string)
    ensures TruthyString(s) ==> r == s.value
    ensures !TruthyString(s) ==> r == fallback
  {
    if TruthyString(s) then s.value else fallback
  }
}
