/** The document detail pane of src/components/documents/DocumentDetail.tsx: the note draft and
    its submit rule, and the pure mappings behind the status badge, the AI label and the
    document timeline. */
module DocumentDetail {
  import opened Wrappers
  import opened Types
  import Text
  import UseDocumentData

  /** A blank draft, one that trims to the empty string, is not submitted. */
  predicate IsBlank(note: string) {
    Text.Trim(note) == ""
  }

  /** The submit button is disabled exactly when the draft is made of whitespace only. */
  lemma SubmitDisabledIffWhitespace(note: string)
    ensures IsBlank(note) <==> forall i | 0 <= i < |note| :: Text.IsWhitespace(note[i])
  {
    Text.TrimEmptyIffBlank(note);
  }

  /** The `newNote` draft state, together with the notes handed to `onAddNote` so far. */
  class NoteDraft {
    var newNote: string
    var added: seq<(string, string)>

    constructor ()
      ensures newNote == "" && added == []
    {
      newNote := "";
      added := [];
    }

    /** The textarea's `onChange`. */
    method Edit(text: string)
      modifies this
      ensures newNote == text && added == old(added)
    {
      newNote := text;
    }

    /** `disabled={!newNote.trim()}` on the submit button. */
    function SubmitDisabled(): bool
      reads this
    {
      IsBlank(newNote)
    }

    /** `handleAddNote`: a blank draft is ignored and kept; otherwise the draft, untrimmed, is
        handed on for the document and then cleared. */
    method HandleAddNote(docId: string)
      modifies this
      ensures old(SubmitDisabled()) ==> newNote == old(newNote) && added == old(added)
      ensures !old(SubmitDisabled()) ==> newNote == "" && added == old(added) + [(docId, old(newNote))]
    {
      if IsBlank(newNote) {
        return;
      }
      added := added + [(docId, newNote)];
      newNote := "";
    }
  }

  datatype BadgeColor = Green | Red | Blue | Purple | Gray

  /** `getStatusColor`: four statuses get their own colour, the rest the gray default. */
  function StatusColor(status: DocStatus): (r: BadgeColor)
    ensures r == Gray <==> status == PendingUpload || status == Expired
  {
    match status
    case Verified => Green
    case Rejected => Red
    case Processing => Blue
    case Uploaded => Purple
    case _ => Gray
  }

  /** The four coloured statuses are told apart. */
  lemma StatusColorDistinct(s: DocStatus, t: DocStatus)
    requires StatusColor(s) != Gray
    ensures StatusColor(s) == StatusColor(t) <==> s == t
  {
  }

  /** The AI verification label: five conditional texts side by side, of which exactly one is
      non-empty. */
  function AiLabel(ai: Option<AiStatus>): (r: string)
    ensures ai == Some(AiSuccess) <==> r == "Verified by AI"
    ensures ai == Some(AiFailed) <==> r == "AI Verification Failed"
    ensures ai == Some(AiNeedsReview) <==> r == "Needs Manual Review"
    ensures ai == Some(AiPending) <==> r == "AI Processing"
    ensures ai == None <==> r == "Not Started"
  {
    (if ai == Some(AiSuccess) then "Verified by AI" else "") +
    (if ai == Some(AiFailed) then "AI Verification Failed" else "") +
    (if ai == Some(AiNeedsReview) then "Needs Manual Review" else "") +
    (if ai == Some(AiPending) then "AI Processing" else "") +
    (if ai.None? then "Not Started" else "")
  }

  datatype EntryStatus = Completed | ExpiredEntry | Upcoming

  /** The expiry entry of the document timeline: present only with an expiry date, marked
      expired when that date lies before the current time and upcoming otherwise. */
  function ExpiryEntry(doc: Document, now: Millis): (r: Option<EntryStatus>)
    ensures r.None? <==> doc.expiryDate.None?
    ensures r == Some(ExpiredEntry) <==> doc.expiryDate.Some? && doc.expiryDate.value < now
    ensures r == Some(Upcoming) <==> doc.expiryDate.Some? && now <= doc.expiryDate.value
  {
    match doc.expiryDate
    case None => None
    case Some(d) => Some(if d < now then ExpiredEntry else Upcoming)
  }

  /** The verification entry of the document timeline: present when a verification time is
      recorded, titled after the verifier, AI exactly for an AI verification and Staff for any
      other value, including none. */
  function VerificationEntryTitle(details: Option<VerificationDetails>): (r: Option<string>)
    ensures r.Some? <==> details.Some? && details.value.verifiedAt.Some?
    ensures r == Some("Verified by AI") <==>
              details.Some? && details.value.verifiedAt.Some? && details.value.verifiedBy == Some(ByAi)
    ensures r == Some("Verified by Staff") <==>
              details.Some? && details.value.verifiedAt.Some? && details.value.verifiedBy != Some(ByAi)
  {
    match details
    case Some(v) =>
      if v.verifiedAt.Some? then
        var who := if v.verifiedBy == Some(ByAi) then "AI" else "Staff";
        assert "Verified by " + "AI" == "Verified by AI";
        assert "Verified by " + "Staff" == "Verified by Staff";
        Some("Verified by " + who)
      else None
    case None => None
  }

  /** The `Verified by:` line of the details card: the verifier, or `Not verified`. */
  function VerifiedByText(details: VerificationDetails): (r: string)
    ensures details.verifiedBy == None <==> r == "Not verified"
    ensures details.verifiedBy == Some(ByAi) <==> r == "ai"
    ensures details.verifiedBy == Some(ByManual) <==> r == "manual"
  {
    match details.verifiedBy
    case Some(ByAi) => "ai"
    case Some(ByManual) => "manual"
    case None => "Not verified"
  }

  /** The download link is rendered for a present, non-empty url. */
  predicate ShowsDownload(doc: Document) {
    TruthyString(doc.url)
  }

  /** A loaded document offers its download exactly when its first version has a non-empty
      file url. */
  lemma DownloadNeedsFirstVersionUrl(row: UseDocumentData.DocumentRow)
    ensures ShowsDownload(UseDocumentData.ToDocument(row)) <==>
            UseDocumentData.FirstVersion(row.versions).Some? &&
            TruthyString(UseDocumentData.FirstVersion(row.versions).value.fileUrl)
  {
  }
}
