/** The document data hook of src/hooks/useDocumentData.ts: the transform of `documents` rows,
    the `documents` / `loading` / `error` state set around the query, and the rows `addDocument`
    and `updateDocument` write. The queries themselves are parameters giving their result. */
module UseDocumentData {
  import opened Wrappers
  import opened Types

  /** One `document_versions` row. */
  datatype VersionRow = VersionRow(uploadedAt: Option<Millis>, fileUrl: Option<string>)

  /** One `documents` row with its joined customer name, versions, comment contents and
      `metadata.verification`. */
  datatype DocumentRow = DocumentRow(
    id: string,
    customerId: string,
    customerFullName: Option<string>,
    kind: string,
    status: DocStatus,
    aiVerificationStatus: Option<AiStatus>,
    versions: Option<seq<VersionRow>>,
    expiryDate: Option<Millis>,
    required: bool,
    comments: Option<seq<string>>,
    verification: Option<VerificationDetails>)

  /** `doc.versions?.[0]`. */
  function FirstVersion(versions: Option<seq<VersionRow>>): (r: Option<VersionRow>)
    ensures r.Some? <==> versions.Some? && versions.value != []
    ensures r.Some? ==> r.value == versions.value[0]
  {
    if versions.Some? && versions.value != [] then Some(versions.value[0]) else None
  }

  /** The row to `Document` mapping. */
  function ToDocument(row: DocumentRow): (d: Document)
    ensures d.id == row.id && d.customerId == row.customerId
    ensures d.customerName == (if TruthyString(row.customerFullName) then row.customerFullName.value
                               else "Unknown Customer")
    ensures d.notes == row.comments.GetOr([])
    ensures FirstVersion(row.versions).None? ==> d.uploadDate.None? && d.url.None?
    ensures FirstVersion(row.versions).Some? ==>
              d.uploadDate == FirstVersion(row.versions).value.uploadedAt &&
              d.url == FirstVersion(row.versions).value.fileUrl
    ensures d.verificationDetails == row.verification
    ensures d.status == row.status && d.documentType == row.kind && d.required == row.required
    ensures d.aiVerificationStatus == row.aiVerificationStatus && d.expiryDate == row.expiryDate
  {
    var first := FirstVersion(row.versions);
    Document(
      row.id,
      row.customerId,
      OrElse(row.customerFullName, "Unknown Customer"),
      row.kind,
      row.status,
      row.aiVerificationStatus,
      if first.Some? then first.value.uploadedAt else None,
      row.expiryDate,
      row.required,
      row.comments.GetOr([]),
      if first.Some? then first.value.fileUrl else None,
      row.verification)
  }

  /** `data.map(...)`. */
  function ToDocuments(rows: seq<DocumentRow>): (r: seq<Document>)
    ensures |r| == |rows|
    ensures forall i | 0 <= i < |rows| :: r[i] == ToDocument(rows[i])
  {
    if rows == [] then [] else [ToDocument(rows[0])] + ToDocuments(rows[1..])
  }

  /** The mapping distributes over concatenation: rows keep their order. */
  lemma ToDocumentsAppend(a: seq<DocumentRow>, b: seq<DocumentRow>)
    ensures ToDocuments(a + b) == ToDocuments(a) + ToDocuments(b)
  {
  }

  /** How a query settles: with its rows, or with an error. */
  datatype Query<T> = Rows(rows: T) | QueryError(message: string)

  /** The row `addDocument` inserts. */
  datatype InsertRow = InsertRow(
    organizationId: string,
    customerId: Option<string>,
    name: Option<string>,
    kind: Option<string>,
    status: DocStatus,
    required: Option<bool>)

  /** The partial `Document` handed to `addDocument`: only these fields are read. */
  datatype NewDocument = NewDocument(customerId: Option<string>, documentType: Option<string>,
                                     required: Option<bool>)

  /** The partial `Document` handed to `updateDocument`: only these fields are read. */
  datatype DocumentUpdate = DocumentUpdate(status: Option<DocStatus>, aiVerificationStatus: Option<AiStatus>,
                                           verificationDetails: Option<VerificationDetails>)

  /** The columns `updateDocument` sends; `metadata` is `{ verification }` or undefined. */
  datatype UpdateRow = UpdateRow(id: string, status: Option<DocStatus>, aiVerificationStatus: Option<AiStatus>,
                                 metadata: Option<VerificationDetails>)

  /** The update for a document: the metadata is replaced only when verification details are
      given; status and AI status are passed through. */
  function UpdateRowFor(id: string, u: DocumentUpdate): (r: UpdateRow)
    ensures r.metadata.Some? <==> u.verificationDetails.Some?
    ensures r.metadata.Some? ==> r.metadata.value == u.verificationDetails.value
    ensures r.id == id && r.status == u.status && r.aiVerificationStatus == u.aiVerificationStatus
  {
    UpdateRow(id, u.status, u.aiVerificationStatus, u.verificationDetails)
  }

  const FetchFailed := "Failed to fetch documents. Please try again."
  const NoOrganization := "No organization found"

  class DocumentStore {
    var documents: seq<Document>
    var loading: bool
    var error: Option<string>
    var inserted: seq<InsertRow>
    var updated: seq<UpdateRow>

    constructor ()
      ensures documents == [] && loading && error == None && inserted == [] && updated == []
      ensures AllInsertedPending()
    {
      documents := [];
      loading := true;
      error := None;
      inserted := [];
      updated := [];
    }

    /** Every row the hook has inserted is `pending_upload`. */
    predicate AllInsertedPending()
      reads this
    {
      forall i | 0 <= i < |inserted| :: inserted[i].status == PendingUpload
    }

    /** `fetchDocuments`: nothing without an organization; otherwise the mapped rows, or the
        fixed error message with the previous documents kept, and loading cleared. */
    method FetchDocuments(organizationId: Option<string>, result: Query<seq<DocumentRow>>)
      modifies this
      ensures !TruthyString(organizationId) ==>
                documents == old(documents) && loading == old(loading) && error == old(error)
      ensures TruthyString(organizationId) && result.Rows? ==>
                documents == ToDocuments(result.rows) && !loading && error == None
      ensures TruthyString(organizationId) && result.QueryError? ==>
                documents == old(documents) && !loading && error == Some(FetchFailed)
      ensures inserted == old(inserted) && updated == old(updated)
      ensures AllInsertedPending() == old(AllInsertedPending())
    {
      if !TruthyString(organizationId) {
        return;
      }
      loading := true;
      error := None;
      match result {
        case Rows(rows) =>
          documents := ToDocuments(rows);
        case QueryError(_) =>
          error := Some(FetchFailed);
      }
      loading := false;
    }

    /** `addDocument`: without an organization it throws before inserting; otherwise it inserts
        a `pending_upload` row for the document's customer and type, throws the insert error if
        any, and refetches. */
    method AddDocument(organizationId: Option<string>, doc: NewDocument, insertError: Option<string>,
                       refetch: Query<seq<DocumentRow>>)
      returns (thrown: Option<string>)
      requires AllInsertedPending()
      modifies this
      ensures AllInsertedPending()
      ensures !TruthyString(organizationId) ==>
                thrown == Some(NoOrganization) && inserted == old(inserted) &&
                documents == old(documents) && loading == old(loading) && error == old(error)
      ensures TruthyString(organizationId) ==>
                inserted == old(inserted) + [InsertRow(organizationId.value, doc.customerId, doc.documentType,
                                                       doc.documentType, PendingUpload, doc.required)] &&
                thrown == insertError
      ensures TruthyString(organizationId) && insertError.Some? ==>
                documents == old(documents) && loading == old(loading) && error == old(error)
      ensures TruthyString(organizationId) && insertError.None? && refetch.Rows? ==>
                documents == ToDocuments(refetch.rows) && !loading && error == None
      ensures TruthyString(organizationId) && insertError.None? && refetch.QueryError? ==>
                documents == old(documents) && !loading && error == Some(FetchFailed)
      ensures updated == old(updated)
    {
      if !TruthyString(organizationId) {
        return Some(NoOrganization);
      }
      inserted := inserted + [InsertRow(organizationId.value, doc.customerId, doc.documentType,
                                        doc.documentType, PendingUpload, doc.required)];
      if insertError.Some? {
        return insertError;
      }
      FetchDocuments(organizationId, refetch);
      thrown := None;
    }

    /** `updateDocument`: send the update, throw its error if any, and refetch. */
    method UpdateDocument(organizationId: Option<string>, id: string, u: DocumentUpdate,
                          updateError: Option<string>, refetch: Query<seq<DocumentRow>>)
      returns (thrown: Option<string>)
      requires AllInsertedPending()
      modifies this
      ensures AllInsertedPending()
      ensures updated == old(updated) + [UpdateRowFor(id, u)]
      ensures thrown == updateError
      ensures updateError.Some? || !TruthyString(organizationId) ==>
                documents == old(documents) && loading == old(loading) && error == old(error)
      ensures updateError.None? && TruthyString(organizationId) && refetch.Rows? ==>
                documents == ToDocuments(refetch.rows) && !loading && error == None
      ensures updateError.None? && TruthyString(organizationId) && refetch.QueryError? ==>
                documents == old(documents) && !loading && error == Some(FetchFailed)
      ensures inserted == old(inserted)
    {
      updated := updated + [UpdateRowFor(id, u)];
      if updateError.Some? {
        return updateError;
      }
      FetchDocuments(organizationId, refetch);
      thrown := None;
    }
  }
}
