/** The customer list of src/components/customers/CustomerList.tsx: a search over name and e-mail,
    a status filter, and a sort on one of five fields in either direction. */
module CustomerList {
  import opened Wrappers
  import opened Types
  import Seqs
  import Text

  datatype StatusFilter = AllStatuses | OnlyStatus(status: CustomerStatus)
  datatype SortField = ByName | ByJoinDate | ByLastContact | ByStatus | ByActiveLoans
  datatype SortDirection = Asc | Desc

  /** The filter callback: the term occurs, ignoring case, in the name or in the e-mail, and the
      status passes the status filter. */
  predicate CustomerMatches(c: Customer, term: string, filter: StatusFilter) {
    (Text.MatchesTerm(c.name, term) || Text.MatchesTerm(c.email, term)) &&
    (filter.AllStatuses? || c.status == filter.status)
  }

  function Keep(term: string, filter: StatusFilter): Customer -> bool {
    (c: Customer) => CustomerMatches(c, term, filter)
  }

  function FilterCustomers(cs: seq<Customer>, term: string, filter: StatusFilter): seq<Customer> {
    Seqs.Filter(cs, Keep(term, filter))
  }

  /** A customer is listed exactly when it is in the input and matches; with the empty term and
      every status, nothing is filtered out. */
  lemma FilterCustomersSpec(cs: seq<Customer>, term: string, filter: StatusFilter, c: Customer)
    ensures c in FilterCustomers(cs, term, filter) <==> c in cs && CustomerMatches(c, term, filter)
    ensures FilterCustomers(cs, "", AllStatuses) == cs
  {
    Seqs.FilterMembership(cs, Keep(term, filter), c);
    forall i | 0 <= i < |cs| ensures Keep("", AllStatuses)(cs[i]) {
      Text.MatchesEmptyTerm(cs[i].name);
    }
    Seqs.FilterKeepsAll(cs, Keep("", AllStatuses));
  }

  /** `localeCompare`, modelled as lexicographic order on code points: negative, zero or positive
      as `a` sorts before, with or after `b`. */
  function LocaleCompare(a: string, b: string): (r: int)
    ensures -1 <= r <= 1
    ensures r == 0 <==> a == b
  {
    if a == [] && b == [] then 0
    else if a == [] then -1
    else if b == [] then 1
    else if a[0] < b[0] then -1
    else if b[0] < a[0] then 1
    else
      var r := LocaleCompare(a[1..], b[1..]);
      assert r == 0 ==> a == [a[0]] + a[1..] && b == [b[0]] + b[1..];
      r
  }

  /** Swapping the operands negates the comparison. */
  lemma {:induction false} LocaleCompareFlip(a: string, b: string)
    ensures LocaleCompare(b, a) == -LocaleCompare(a, b)
  {
    if a != [] && b != [] && a[0] == b[0] {
      LocaleCompareFlip(a[1..], b[1..]);
    }
  }

  /** "Sorts no later than" is transitive. */
  lemma {:induction false} LocaleCompareTrans(a: string, b: string, c: string)
    requires LocaleCompare(a, b) <= 0 && LocaleCompare(b, c) <= 0
    ensures LocaleCompare(a, c) <= 0
  {
    if a != [] && b != [] && c != [] && a[0] == b[0] && b[0] == c[0] {
      LocaleCompareTrans(a[1..], b[1..], c[1..]);
    }
  }

  /** The sort comparator exactly as written. On the two date fields the direction multiplies
      only the second timestamp (`ta - tb * direction`), so a descending date sort compares by
      `ta + tb`. Status has no case and compares every pair as equal. */
  function Compare(a: Customer, b: Customer, field: SortField, dir: SortDirection): int {
    var direction := if dir == Asc then 1 else -1;
    match field
    case ByName => LocaleCompare(a.name, b.name) * direction
    case ByJoinDate => a.joinDate - b.joinDate * direction
    case ByLastContact => a.lastContact - b.lastContact * direction
    case ByActiveLoans => (a.activeLoans - b.activeLoans) * direction
    case ByStatus => 0
  }

  /** `a` may stay before `b`: the comparator does not report it as greater. */
  predicate Le(a: Customer, b: Customer, field: SortField, dir: SortDirection) {
    Compare(a, b, field, dir) <= 0
  }

  /** The comparator is a total preorder, the condition under which a sort is well defined. */
  ghost predicate ConsistentOrder(field: SortField, dir: SortDirection) {
    (forall a: Customer, b: Customer :: Le(a, b, field, dir) || Le(b, a, field, dir)) &&
    (forall a: Customer, b: Customer, c: Customer ::
       Le(a, b, field, dir) && Le(b, c, field, dir) ==> Le(a, c, field, dir))
  }

  predicate IsDateField(field: SortField) {
    field == ByJoinDate || field == ByLastContact
  }

  /** Every sort the header offers is consistent, except descending on a date field. */
  lemma ConsistentOrderIff(field: SortField, dir: SortDirection)
    ensures ConsistentOrder(field, dir) <==> !(IsDateField(field) && dir == Desc)
  {
    if IsDateField(field) && dir == Desc {
      var c := Customer("c", "", "", "", None, Active, 1, 1, 0, 0, None, None, None, []);
      assert !Le(c, c, field, dir);
    } else {
      forall a: Customer, b: Customer
        ensures Le(a, b, field, dir) || Le(b, a, field, dir)
      {
        LocaleCompareFlip(a.name, b.name);
      }
      forall a: Customer, b: Customer, c: Customer
        | Le(a, b, field, dir) && Le(b, c, field, dir)
        ensures Le(a, c, field, dir)
      {
        if field == ByName {
          if dir == Asc {
            LocaleCompareTrans(a.name, b.name, c.name);
          } else {
            LocaleCompareFlip(a.name, b.name);
            LocaleCompareFlip(b.name, c.name);
            LocaleCompareFlip(a.name, c.name);
            LocaleCompareTrans(c.name, b.name, a.name);
          }
        }
      }
    }
  }

  /** A descending join-date sort does not reverse the ascending one: with customers joined at
      times 1 and 2 both comparisons come out positive. */
  lemma DescendingDateSortIsNotReversed(a: Customer, b: Customer)
    requires a.joinDate == 1 && b.joinDate == 2
    ensures Compare(a, b, ByJoinDate, Asc) < 0
    ensures Compare(a, b, ByJoinDate, Desc) > 0 && Compare(b, a, ByJoinDate, Desc) > 0
  {
  }

  predicate Sorted(s: seq<Customer>, field: SortField, dir: SortDirection) {
    forall i, j | 0 <= i < j < |s| :: Le(s[i], s[j], field, dir)
  }

  /** Insert `x` into `s` before the first element it may precede. */
  function Insert(x: Customer, s: seq<Customer>, field: SortField, dir: SortDirection)
    : (r: seq<Customer>)
    ensures multiset(r) == multiset(s) + multiset{x}
  {
    if s == [] then [x]
    else if Le(x, s[0], field, dir) then [x] + s
    else
      assert s == [s[0]] + s[1..];
      [s[0]] + Insert(x, s[1..], field, dir)
  }

  /** `Array.prototype.sort` with this comparator, modelled as a stable insertion sort. */
  function SortCustomers(cs: seq<Customer>, field: SortField, dir: SortDirection)
    : (r: seq<Customer>)
    ensures multiset(r) == multiset(cs)
  {
    if cs == [] then []
    else
      assert cs == [cs[0]] + cs[1..];
      Insert(cs[0], SortCustomers(cs[1..], field, dir), field, dir)
  }

  /** A lower bound of `x` and of every element of `s` bounds every element of the insertion. */
  lemma {:induction false} InsertBound(y: Customer, x: Customer, s: seq<Customer>,
                                       field: SortField, dir: SortDirection)
    requires Le(y, x, field, dir)
    requires forall i | 0 <= i < |s| :: Le(y, s[i], field, dir)
    ensures forall i | 0 <= i < |Insert(x, s, field, dir)| :: Le(y, Insert(x, s, field, dir)[i], field, dir)
  {
    if s != [] && !Le(x, s[0], field, dir) {
      InsertBound(y, x, s[1..], field, dir);
    }
  }

  /** Putting a lower bound in front of a sorted sequence keeps it sorted. */
  lemma SortedCons(y: Customer, t: seq<Customer>, field: SortField, dir: SortDirection)
    requires forall i | 0 <= i < |t| :: Le(y, t[i], field, dir)
    requires Sorted(t, field, dir)
    ensures Sorted([y] + t, field, dir)
  {
    var r := [y] + t;
    forall i, j | 0 <= i < j < |r| ensures Le(r[i], r[j], field, dir) {
      if i == 0 {
        assert r[j] == t[j - 1];
      } else {
        assert r[i] == t[i - 1] && r[j] == t[j - 1];
      }
    }
  }

  lemma {:induction false} InsertSorted(x: Customer, s: seq<Customer>, field: SortField, dir: SortDirection)
    requires ConsistentOrder(field, dir)
    requires Sorted(s, field, dir)
    ensures Sorted(Insert(x, s, field, dir), field, dir)
  {
    if s == [] {
    } else if Le(x, s[0], field, dir) {
      forall i | 0 <= i < |s| ensures Le(x, s[i], field, dir) {
        if i > 0 {
          assert Le(s[0], s[i], field, dir);
        }
      }
      SortedCons(x, s, field, dir);
    } else {
      assert Le(s[0], x, field, dir);
      assert Sorted(s[1..], field, dir) by {
        forall i, j | 0 <= i < j < |s[1..]| ensures Le(s[1..][i], s[1..][j], field, dir) {
          assert s[1..][i] == s[i + 1] && s[1..][j] == s[j + 1];
        }
      }
      forall i | 0 <= i < |s[1..]| ensures Le(s[0], s[1..][i], field, dir) {
        assert s[1..][i] == s[i + 1];
      }
      InsertBound(s[0], x, s[1..], field, dir);
      InsertSorted(x, s[1..], field, dir);
      SortedCons(s[0], Insert(x, s[1..], field, dir), field, dir);
    }
  }

  /** With a consistent comparator the result is in order. */
  lemma {:induction false} SortCustomersSorted(cs: seq<Customer>, field: SortField, dir: SortDirection)
    requires ConsistentOrder(field, dir)
    ensures Sorted(SortCustomers(cs, field, dir), field, dir)
  {
    if cs != [] {
      SortCustomersSorted(cs[1..], field, dir);
      InsertSorted(cs[0], SortCustomers(cs[1..], field, dir), field, dir);
    }
  }

  /** Sorting by status, which compares every pair as equal, keeps the list as it is. */
  lemma {:induction false} SortByStatusKeepsOrder(cs: seq<Customer>, dir: SortDirection)
    ensures SortCustomers(cs, ByStatus, dir) == cs
  {
    if cs != [] {
      SortByStatusKeepsOrder(cs[1..], dir);
      assert cs == [cs[0]] + cs[1..];
    }
  }

  /** What the comparator means per field: the two date fields subtract plainly when
      ascending and add when descending; loans and names compare in the chosen direction. */
  lemma CompareMeaning(a: Customer, b: Customer)
    ensures Compare(a, b, ByJoinDate, Asc) == a.joinDate - b.joinDate
    ensures Compare(a, b, ByLastContact, Asc) == a.lastContact - b.lastContact
    ensures Compare(a, b, ByJoinDate, Desc) == a.joinDate + b.joinDate
    ensures Compare(a, b, ByLastContact, Desc) == a.lastContact + b.lastContact
    ensures Le(a, b, ByActiveLoans, Asc) <==> a.activeLoans <= b.activeLoans
    ensures Le(a, b, ByActiveLoans, Desc) <==> a.activeLoans >= b.activeLoans
    ensures Le(a, b, ByName, Asc) <==> LocaleCompare(a.name, b.name) <= 0
    ensures Le(a, b, ByName, Desc) <==> LocaleCompare(b.name, a.name) <= 0
  {
    LocaleCompareFlip(a.name, b.name);
  }

  /** Sorting by active loans orders them non-decreasing ascending, non-increasing descending. */
  lemma ActiveLoansOrder(cs: seq<Customer>, dir: SortDirection)
    ensures var r := SortCustomers(cs, ByActiveLoans, dir);
            forall i, j | 0 <= i < j < |r| ::
              if dir == Asc then r[i].activeLoans <= r[j].activeLoans else r[i].activeLoans >= r[j].activeLoans
  {
    ConsistentOrderIff(ByActiveLoans, dir);
    SortCustomersSorted(cs, ByActiveLoans, dir);
    var r := SortCustomers(cs, ByActiveLoans, dir);
    forall i, j | 0 <= i < j < |r|
      ensures if dir == Asc then r[i].activeLoans <= r[j].activeLoans else r[i].activeLoans >= r[j].activeLoans
    {
      assert Le(r[i], r[j], ByActiveLoans, dir);
      CompareMeaning(r[i], r[j]);
    }
  }

  /** `filteredAndSortedCustomers`. */
  function FilteredAndSorted(cs: seq<Customer>, term: string, filter: StatusFilter,
                             field: SortField, dir: SortDirection): seq<Customer> {
    SortCustomers(FilterCustomers(cs, term, filter), field, dir)
  }

  /** The shown list holds exactly the matching customers, each as often as in the input, and is
      in order whenever the chosen sort is consistent. */
  lemma FilteredAndSortedSpec(cs: seq<Customer>, term: string, filter: StatusFilter,
                              field: SortField, dir: SortDirection, c: Customer)
    ensures multiset(FilteredAndSorted(cs, term, filter, field, dir))[c] ==
            if CustomerMatches(c, term, filter) then multiset(cs)[c] else 0
    ensures !(IsDateField(field) && dir == Desc) ==>
              Sorted(FilteredAndSorted(cs, term, filter, field, dir), field, dir)
  {
    Seqs.FilterCount(cs, Keep(term, filter), c);
    ConsistentOrderIff(field, dir);
    if !(IsDateField(field) && dir == Desc) {
      SortCustomersSorted(FilterCustomers(cs, term, filter), field, dir);
    }
  }

  /** `handleSort`: clicking the current field flips the direction, any other field sorts it
      ascending. */
  function NextSort(field: SortField, dir: SortDirection, clicked: SortField)
    : (r: (SortField, SortDirection))
    ensures r.0 == clicked
    ensures clicked != field ==> r.1 == Asc
    ensures clicked == field ==> r.1 != dir
  {
    if field == clicked then (field, if dir == Asc then Desc else Asc)
    else (clicked, Asc)
  }

  /** Clicking the same header twice restores the sort. */
  lemma NextSortTwice(field: SortField, dir: SortDirection)
    ensures NextSort(NextSort(field, dir, field).0, NextSort(field, dir, field).1, field) == (field, dir)
  {
  }

  /** The component's state: the search term, the sort and the status filter. */
  class ListState {
    var searchTerm: string
    var sortField: SortField
    var sortDirection: SortDirection
    var statusFilter: StatusFilter

    constructor ()
      ensures searchTerm == "" && sortField == ByName && sortDirection == Asc
      ensures statusFilter == AllStatuses
    {
      searchTerm := "";
      sortField := ByName;
      sortDirection := Asc;
      statusFilter := AllStatuses;
    }

    function Shown(customers: seq<Customer>): seq<Customer>
      reads this
    {
      FilteredAndSorted(customers, searchTerm, statusFilter, sortField, sortDirection)
    }

    method HandleSort(field: SortField)
      modifies this
      ensures (sortField, sortDirection) == NextSort(old(sortField), old(sortDirection), field)
      ensures searchTerm == old(searchTerm) && statusFilter == old(statusFilter)
    {
      if sortField == field {
        sortDirection := if sortDirection == Asc then Desc else Asc;
      } else {
        sortField := field;
        sortDirection := Asc;
      }
    }
  }
}
