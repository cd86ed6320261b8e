/** The call list of src/components/CallList.tsx: a search over customer name and subject, a
    status filter, and one status badge per call. */
module CallList {
  import opened Types
  import Seqs
  import Text

  datatype StatusFilter = AllCalls | OnlyCalls(status: CallStatus)

  /** The filter callback: the term occurs, ignoring case, in the customer name or in the
      subject, and the status passes the filter. */
  predicate CallMatches(c: Call, term: string, filter: StatusFilter) {
    (Text.MatchesTerm(c.customerName, term) || Text.MatchesTerm(c.subject, term)) &&
    (filter.AllCalls? || c.status == filter.status)
  }

  function Keep(term: string, filter: StatusFilter): Call -> bool {
    (c: Call) => CallMatches(c, term, filter)
  }

  /** `filteredCalls`. */
  function FilterCalls(calls: seq<Call>, term: string, filter: StatusFilter): seq<Call> {
    Seqs.Filter(calls, Keep(term, filter))
  }

  /** Each matching call is listed as often as it occurs in the input, no other call is listed,
      and the calls keep their order (the filter distributes over concatenation). */
  lemma FilterCallsSpec(calls: seq<Call>, more: seq<Call>, term: string, filter: StatusFilter, c: Call)
    ensures multiset(FilterCalls(calls, term, filter))[c] ==
            if CallMatches(c, term, filter) then multiset(calls)[c] else 0
    ensures FilterCalls(calls + more, term, filter) ==
            FilterCalls(calls, term, filter) + FilterCalls(more, term, filter)
  {
    Seqs.FilterCount(calls, Keep(term, filter), c);
    Seqs.FilterAppend(calls, more, Keep(term, filter));
  }

  /** The initial state, the empty term and every status, shows all calls; filtering the shown
      list again with the same settings changes nothing. */
  lemma FilterCallsLaws(calls: seq<Call>, term: string, filter: StatusFilter)
    ensures FilterCalls(calls, "", AllCalls) == calls
    ensures FilterCalls(FilterCalls(calls, term, filter), term, filter) == FilterCalls(calls, term, filter)
  {
    forall i | 0 <= i < |calls| ensures Keep("", AllCalls)(calls[i]) {
      Text.MatchesEmptyTerm(calls[i].customerName);
    }
    Seqs.FilterKeepsAll(calls, Keep("", AllCalls));
    Seqs.FilterIdempotent(calls, Keep(term, filter));
  }

  /** Narrowing a status filter: calls shown under one status are the calls shown under every
      status that have that status. */
  lemma FilterByStatusNarrows(calls: seq<Call>, term: string, status: CallStatus)
    ensures FilterCalls(calls, term, OnlyCalls(status)) ==
            Seqs.Filter(FilterCalls(calls, term, AllCalls), HasStatus(status))
  {
    Seqs.FilterFilter(calls, Keep(term, AllCalls), HasStatus(status), Keep(term, OnlyCalls(status)));
  }

  function HasStatus(status: CallStatus): Call -> bool {
    (c: Call) => c.status == status
  }

  datatype Badge = NewBadge | FlaggedBadge | ReviewedBadge

  /** The three conditional badges of a call row, in render order. */
  function Badges(status: CallStatus): (r: seq<Badge>)
    ensures |r| == 1
    ensures r[0] == match status
                    case New => NewBadge
                    case Flagged => FlaggedBadge
                    case Reviewed => ReviewedBadge
  {
    (if status == New then [NewBadge] else []) +
    (if status == Flagged then [FlaggedBadge] else []) +
    (if status == Reviewed then [ReviewedBadge] else [])
  }

  /** Different statuses show different badges. */
  lemma BadgesInjective(s: CallStatus, t: CallStatus)
    ensures Badges(s) == Badges(t) <==> s == t
  {
  }
}
