/** The call's document list of src/components/DocumentList.tsx: the documents grouped by status
    under `received`, `pending` and `rejected`, empty groups hidden. */
module DocumentList {
  import opened Types
  import Seqs
  import Text

  function HasStatus(status: CallDocumentStatus): CallDocument -> bool {
    (doc: CallDocument) => doc.status == status
  }

  /** One entry of `groupedDocs`. */
  function Group(docs: seq<CallDocument>, status: CallDocumentStatus): seq<CallDocument> {
    Seqs.Filter(docs, HasStatus(status))
  }

  /** A group holds every document of its status, each as often as in the input, and no other
      document; the documents keep their relative order. */
  lemma GroupSpec(docs: seq<CallDocument>, more: seq<CallDocument>, status: CallDocumentStatus,
                  doc: CallDocument)
    ensures multiset(Group(docs, status))[doc] == if doc.status == status then multiset(docs)[doc] else 0
    ensures Group(docs + more, status) == Group(docs, status) + Group(more, status)
  {
    Seqs.FilterCount(docs, HasStatus(status), doc);
    Seqs.FilterAppend(docs, more, HasStatus(status));
  }

  /** The three groups split the documents: each document is in exactly one group, so the groups
      together hold the input and their sizes add up to its length. */
  lemma {:induction false} GroupsPartition(docs: seq<CallDocument>)
    ensures multiset(Group(docs, ReceivedDoc)) + multiset(Group(docs, PendingDoc)) +
            multiset(Group(docs, RejectedDoc)) == multiset(docs)
    ensures |Group(docs, ReceivedDoc)| + |Group(docs, PendingDoc)| + |Group(docs, RejectedDoc)| == |docs|
  {
    if docs != [] {
      GroupsPartition(docs[1..]);
      assert docs == [docs[0]] + docs[1..];
    }
  }

  function Key(status: CallDocumentStatus): string {
    match status
    case ReceivedDoc => "received"
    case PendingDoc => "pending"
    case RejectedDoc => "rejected"
  }

  /** A group heading: the key with its first letter upper-cased. */
  function Heading(status: CallDocumentStatus): (r: string)
    ensures |r| == |Key(status)| && r[0] == Text.UpperChar(Key(status)[0])
    ensures r[1..] == Key(status)[1..]
  {
    Text.Capitalize(Key(status))
  }

  lemma Headings()
    ensures Heading(ReceivedDoc) == "Received"
    ensures Heading(PendingDoc) == "Pending"
    ensures Heading(RejectedDoc) == "Rejected"
  {
  }

  /** A rendered group: its key, shown as `Heading(status)`, and its documents. */
  datatype Section = Section(status: CallDocumentStatus, docs: seq<CallDocument>)

  /** The rendering of one `[status, docs]` entry: nothing when the group is empty. */
  function SectionOf(docs: seq<CallDocument>, status: CallDocumentStatus): seq<Section> {
    var g := Group(docs, status);
    if |g| > 0 then [Section(status, g)] else []
  }

  /** The rendered sections: the non-empty groups in the order `Object.entries` lists the keys
      (received, pending, rejected). */
  function Sections(docs: seq<CallDocument>): seq<Section> {
    SectionOf(docs, ReceivedDoc) + SectionOf(docs, PendingDoc) + SectionOf(docs, RejectedDoc)
  }

  predicate AnyWithStatus(docs: seq<CallDocument>, status: CallDocumentStatus) {
    exists i | 0 <= i < |docs| :: docs[i].status == status
  }

  /** An entry renders its section exactly when some document has its status. */
  lemma SectionOfSpec(docs: seq<CallDocument>, status: CallDocumentStatus)
    ensures SectionOf(docs, status) != [] <==> AnyWithStatus(docs, status)
  {
    var g := Group(docs, status);
    if AnyWithStatus(docs, status) {
      var i :| 0 <= i < |docs| && docs[i].status == status;
      Seqs.FilterMembership(docs, HasStatus(status), docs[i]);
    } else if g != [] {
      Seqs.FilterMembership(docs, HasStatus(status), g[0]);
    }
  }

  /** A section is rendered for a status exactly when some document has that status, and then it
      lists that status's group; no rendered section is empty. */
  lemma SectionsSpec(docs: seq<CallDocument>, status: CallDocumentStatus)
    ensures Section(status, Group(docs, status)) in Sections(docs) <==> AnyWithStatus(docs, status)
    ensures forall s | s in Sections(docs) :: s.docs == Group(docs, s.status) && s.docs != []
  {
    SectionOfSpec(docs, status);
    var a, b, c := SectionOf(docs, ReceivedDoc), SectionOf(docs, PendingDoc), SectionOf(docs, RejectedDoc);
    assert Sections(docs) == a + b + c;
    assert forall s | s in a + b + c :: s in a || s in b || s in c;
  }

  datatype RowIcon = GreenCheck | YellowAlert | RedCross

  /** The row's status icon: three conditional icons, exactly one of which is rendered. */
  function RowIcons(doc: CallDocument): (r: seq<RowIcon>)
    ensures |r| == 1
    ensures r[0] == GreenCheck <==> doc.status == ReceivedDoc
    ensures r[0] == YellowAlert <==> doc.status == PendingDoc
    ensures r[0] == RedCross <==> doc.status == RejectedDoc
  {
    (if doc.status == ReceivedDoc then [GreenCheck] else []) +
    (if doc.status == PendingDoc then [YellowAlert] else []) +
    (if doc.status == RejectedDoc then [RedCross] else [])
  }

  /** The download link: only for a received document with a non-empty url. */
  predicate ShowsDownload(doc: CallDocument) {
    doc.status == ReceivedDoc && TruthyString(doc.url)
  }

  /** Every shown download link sits in the `received` section. */
  lemma DownloadsOnlyInReceived(docs: seq<CallDocument>, s: Section, d: CallDocument)
    requires s in Sections(docs) && d in s.docs && ShowsDownload(d)
    ensures s.status == ReceivedDoc
  {
    SectionsSpec(docs, ReceivedDoc);
    Seqs.FilterMembership(docs, HasStatus(s.status), d);
  }
}
