/** The call data hook of src/hooks/useCallData.ts: the transform of `calls` rows with their
    transcripts and documents, and the `calls` / `loading` / `error` state set around the query.
    The query is a parameter giving its result. */
module UseCallData {
  import opened Wrappers
  import opened Types

  /** One `call_documents` row. */
  datatype CallDocumentRow = CallDocumentRow(name: string, status: CallDocumentStatus, required: bool,
                                             url: Option<string>)

  /** One `calls` row with its transcripts and documents. `loanAmount` is `Number(loan_amount)`,
      None when that is NaN or the column is null. */
  datatype CallRow = CallRow(
    id: string,
    customerName: string,
    createdAt: Millis,
    duration: Option<string>,
    subject: string,
    summary: Option<string>,
    status: CallStatus,
    loanType: string,
    loanAmount: Option<int>,
    transcripts: Option<seq<Option<string>>>,
    creditScore: Option<int>,
    annualIncome: Option<int>,
    customerEmail: Option<string>,
    customerPhone: Option<string>,
    documents: Option<seq<CallDocumentRow>>)

  /** `call.call_transcripts?.[0]?.transcript || ''`. */
  function FirstTranscript(transcripts: Option<seq<Option<string>>>): (r: string)
    ensures r != "" <==> transcripts.Some? && transcripts.value != [] && TruthyString(transcripts.value[0])
    ensures r != "" ==> r == transcripts.value[0].value
  {
    if transcripts.Some? && transcripts.value != [] then OrElse(transcripts.value[0], "") else ""
  }

  function ToCallDocument(d: CallDocumentRow): (r: CallDocument)
    ensures r.name == d.name && r.status == d.status && r.required == d.required && r.url == d.url
  {
    CallDocument(d.name, d.status, d.required, d.url)
  }

  /** `call.call_documents?.map(...) || []`. */
  function ToCallDocuments(docs: seq<CallDocumentRow>): (r: seq<CallDocument>)
    ensures |r| == |docs|
    ensures forall i | 0 <= i < |docs| :: r[i] == ToCallDocument(docs[i])
  {
    if docs == [] then [] else [ToCallDocument(docs[0])] + ToCallDocuments(docs[1..])
  }

  /** The row to `Call` mapping. */
  function ToCall(row: CallRow): (c: Call)
    ensures c.id == row.id && c.customerName == row.customerName && c.timestamp == row.createdAt
    ensures c.duration == OrElse(row.duration, "0:00") && c.summary == OrElse(row.summary, "")
    ensures c.loanAmount == (if row.loanAmount.Some? then row.loanAmount.value else 0)
    ensures c.transcript == FirstTranscript(row.transcripts)
    ensures c.contact == Contact(OrElse(row.customerEmail, ""), OrElse(row.customerPhone, ""), None)
    ensures row.documents.None? ==> c.documents == []
    ensures row.documents.Some? ==> c.documents == ToCallDocuments(row.documents.value)
    ensures c.income == row.annualIncome && c.creditScore == row.creditScore
    ensures c.status == row.status && c.subject == row.subject && c.loanType == row.loanType
    ensures c.nextSteps == [] && c.timeline == []
  {
    Call(
      row.id,
      row.customerName,
      row.createdAt,
      OrElse(row.duration, "0:00"),
      row.subject,
      OrElse(row.summary, ""),
      row.status,
      row.loanType,
      row.loanAmount.GetOr(0),
      FirstTranscript(row.transcripts),
      row.creditScore,
      row.annualIncome,
      Contact(OrElse(row.customerEmail, ""), OrElse(row.customerPhone, ""), None),
      if row.documents.Some? then ToCallDocuments(row.documents.value) else [],
      [],
      [])
  }

  /** `data.map(...)`. */
  function ToCalls(rows: seq<CallRow>): (r: seq<Call>)
    ensures |r| == |rows|
    ensures forall i | 0 <= i < |rows| :: r[i] == ToCall(rows[i])
  {
    if rows == [] then [] else [ToCall(rows[0])] + ToCalls(rows[1..])
  }

  /** A mapped call never has an empty duration, and keeps its document count. */
  lemma MappedCallShape(row: CallRow)
    ensures ToCall(row).duration != ""
    ensures |ToCall(row).documents| == (if row.documents.Some? then |row.documents.value| else 0)
  {
  }

  /** How the query settles: with its rows, or with an error. */
  datatype Query = Rows(rows: seq<CallRow>) | QueryError(message: string)

  const FetchFailed := "Failed to fetch calls. Please try again."

  class CallStore {
    var calls: seq<Call>
    var loading: bool
    var error: Option<string>

    constructor ()
      ensures calls == [] && loading && error == None
    {
      calls := [];
      loading := true;
      error := None;
    }

    /** The effect without an organization: nothing; otherwise the mapped rows, or the fixed
        error message with the previous calls kept, and loading cleared. */
    method FetchCalls(organizationId: Option<string>, result: Query)
      modifies this
      ensures !TruthyString(organizationId) ==>
                calls == old(calls) && loading == old(loading) && error == old(error)
      ensures TruthyString(organizationId) && result.Rows? ==>
                calls == ToCalls(result.rows) && !loading && error == None
      ensures TruthyString(organizationId) && result.QueryError? ==>
                calls == old(calls) && !loading && error == Some(FetchFailed)
    {
      if !TruthyString(organizationId) {
        return;
      }
      loading := true;
      error := None;
      match result {
        case Rows(rows) =>
          calls := ToCalls(rows);
        case QueryError(_) =>
          error := Some(FetchFailed);
      }
      loading := false;
    }
  }
}
