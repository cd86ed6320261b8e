/** The document list of src/components/documents/DocumentList.tsx: search and status filtering,
    the row labels and badges, and the row's status icon. */
module DocumentsDocumentList {
  import opened Wrappers
  import opened Types
  import Seqs
  import Text

  /** The filter values the filter bar offers, in button order. `expired` is not among them. */
  const FilterButtons: seq<string> :=
    ["all", "pending_upload", "uploaded", "processing", "verified", "rejected"]

  /** The filter callback: the term occurs, ignoring case, in the customer name or in the
      document type, and the filter is `all` or the status's own name. */
  predicate DocumentMatches(doc: Document, term: string, filter: string) {
    (Text.MatchesTerm(doc.customerName, term) || Text.MatchesTerm(doc.documentType, term)) &&
    (filter == "all" || DocStatusName(doc.status) == filter)
  }

  function Keep(term: string, filter: string): Document -> bool {
    (doc: Document) => DocumentMatches(doc, term, filter)
  }

  /** `filteredDocs`. */
  function FilterDocuments(docs: seq<Document>, term: string, filter: string): seq<Document> {
    Seqs.Filter(docs, Keep(term, filter))
  }

  /** Each matching document is listed as often as it occurs in the input and no other is,
      and the list keeps the input's order: filtering two runs one after the other lists the
      kept documents of the first run before those of the second. */
  lemma FilterDocumentsSpec(docs: seq<Document>, more: seq<Document>, term: string, filter: string, doc: Document)
    ensures multiset(FilterDocuments(docs, term, filter))[doc] ==
            if DocumentMatches(doc, term, filter) then multiset(docs)[doc] else 0
    ensures FilterDocuments(docs + more, term, filter) ==
            FilterDocuments(docs, term, filter) + FilterDocuments(more, term, filter)
  {
    Seqs.FilterCount(docs, Keep(term, filter), doc);
    Seqs.FilterAppend(docs, more, Keep(term, filter));
  }

  /** A status filter shows exactly the documents of that status that pass the search. */
  lemma StatusFilterShowsOnlyThatStatus(docs: seq<Document>, term: string, status: DocStatus, doc: Document)
    ensures doc in FilterDocuments(docs, term, DocStatusName(status)) <==>
            doc in docs && doc.status == status && DocumentMatches(doc, term, "all")
  {
    Seqs.FilterMembership(docs, Keep(term, DocStatusName(status)), doc);
  }

  /** An expired document is listed under no filter button other than `all`. */
  lemma ExpiredOnlyUnderAll(docs: seq<Document>, term: string, k: nat, doc: Document)
    requires 0 < k < |FilterButtons|
    requires doc.status == Expired
    ensures doc !in FilterDocuments(docs, term, FilterButtons[k])
  {
    Seqs.FilterMembership(docs, Keep(term, FilterButtons[k]), doc);
  }

  /** A filter button's caption and a row's heading: snake case turned into capitalised words. */
  function Label(s: string): (r: string)
    ensures |r| == |s|
    ensures forall i | 0 <= i < |s| :: r[i] == Text.TitleCharAt(s, i, true)
  {
    Text.SnakeToTitleChars(s);
    Text.SnakeToTitle(s)
  }

  /** The row's date line. */
  datatype UploadLine = UploadedOn(date: Millis) | PendingUploadLine

  function UploadLineOf(doc: Document): (r: UploadLine)
    ensures r.PendingUploadLine? <==> doc.uploadDate.None?
    ensures r.UploadedOn? ==> r.date == doc.uploadDate.value
  {
    match doc.uploadDate
    case Some(d) => UploadedOn(d)
    case None => PendingUploadLine
  }

  /** The `Expired` badge: an expiry date that lies before the current time. */
  predicate ShowsExpiredBadge(doc: Document, now: Millis) {
    doc.expiryDate.Some? && doc.expiryDate.value < now
  }

  /** The badge depends on the dates only, not on the status: a document whose status is
      `expired` but has no expiry date shows no badge. */
  lemma ExpiredBadgeIgnoresStatus(doc: Document, now: Millis)
    ensures ShowsExpiredBadge(doc, now) == ShowsExpiredBadge(doc.(status := Expired), now)
    ensures doc.expiryDate.None? ==> !ShowsExpiredBadge(doc.(status := Expired), now)
  {
  }

  /** Once shown, the badge stays shown as time goes on. */
  lemma ExpiredBadgeMonotone(doc: Document, now: Millis, later: Millis)
    requires now <= later
    requires ShowsExpiredBadge(doc, now)
    ensures ShowsExpiredBadge(doc, later)
  {
  }

  /** The pills a row shows: `Required` in the title line, `Expired` in the date line. */
  datatype RowBadge = RequiredBadge | ExpiredBadge

  function RowBadges(doc: Document, now: Millis): (r: seq<RowBadge>)
    ensures RequiredBadge in r <==> doc.required
    ensures ExpiredBadge in r <==> ShowsExpiredBadge(doc, now)
    ensures |r| <= 2 && (|r| == 2 ==> r == [RequiredBadge, ExpiredBadge])
  {
    (if doc.required then [RequiredBadge] else []) +
    (if ShowsExpiredBadge(doc, now) then [ExpiredBadge] else [])
  }

  datatype StatusIcon = GrayClock | BlueAlert | PurpleBot | GreenCheck | RedCross | GrayAlert

  /** `DocumentStatusIcon`: one icon per status; `expired` has no case and gets the default. The
      AI status is accepted and unused. */
  function StatusIconOf(status: DocStatus, aiStatus: Option<AiStatus>): (r: StatusIcon)
    ensures r == GrayAlert <==> status == Expired
  {
    match status
    case PendingUpload => GrayClock
    case Uploaded => BlueAlert
    case Processing => PurpleBot
    case Verified => GreenCheck
    case Rejected => RedCross
    case _ => GrayAlert
  }

  /** The icon tells the statuses apart and does not depend on the AI status. */
  lemma StatusIconInjective(s: DocStatus, t: DocStatus, a: Option<AiStatus>, b: Option<AiStatus>)
    ensures StatusIconOf(s, a) == StatusIconOf(t, b) <==> s == t
  {
  }
}
