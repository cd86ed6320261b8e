/** The customer data hook of src/hooks/useCustomerData.ts: the transform of `customers` rows
    with their `credit_checks`, and the `customers` / `loading` / `error` state set around the
    query. The query is a parameter giving its result; `encodeURIComponent` is a parameter. */
module UseCustomerData {
  import opened Wrappers
  import opened Types

  /** One `credit_checks` row. */
  datatype CreditCheckRow = CreditCheckRow(
    status: CheckStatus,
    provider: string,
    requestDate: Millis,
    completedDate: DateField,
    score: Option<int>,
    report: Option<CreditReport>,
    error: Option<string>)

  /** One `customers` row with its credit checks. */
  datatype CustomerRow = CustomerRow(
    id: string,
    fullName: string,
    email: string,
    phone: string,
    address: Option<string>,
    status: CustomerStatus,
    createdAt: Millis,
    lastContact: Millis,
    totalLoans: int,
    activeLoans: int,
    creditScore: Option<int>,
    profileImage: Option<string>,
    tags: Option<seq<string>>,
    creditChecks: Option<seq<CreditCheckRow>>)

  const AvatarPrefix := "https://ui-avatars.com/api/?name="
  const AvatarSuffix := "&background=random"

  /** The generated avatar for a customer without a profile image. */
  function AvatarUrl(encoded: string): (r: string)
    ensures AvatarPrefix <= r
    ensures |r| == |AvatarPrefix| + |encoded| + |AvatarSuffix|
    ensures r[|AvatarPrefix|..|AvatarPrefix| + |encoded|] == encoded
  {
    var r := AvatarPrefix + encoded + AvatarSuffix;
    assert r[|AvatarPrefix|..|AvatarPrefix| + |encoded|] == encoded;
    r
  }

  /** The credit check shown for a customer: the first row, copied field by field, or none. */
  function FirstCreditCheck(checks: Option<seq<CreditCheckRow>>): (r: Option<CreditCheck>)
    ensures r.Some? <==> checks.Some? && checks.value != []
    ensures r.Some? ==>
              var c := checks.value[0];
              r.value == CreditCheck(c.status, c.provider, c.requestDate, c.completedDate, c.score, c.report, c.error)
  {
    if checks.Some? && checks.value != [] then
      var c := checks.value[0];
      Some(CreditCheck(c.status, c.provider, c.requestDate, c.completedDate, c.score, c.report, c.error))
    else None
  }

  /** The row to `Customer` mapping, given the URI encoder. */
  function ToCustomer(row: CustomerRow, encode: string -> string): (c: Customer)
    ensures c.id == row.id && c.name == row.fullName && c.joinDate == row.createdAt
    ensures c.email == row.email && c.phone == row.phone && c.address == row.address
    ensures c.lastContact == row.lastContact && c.status == row.status
    ensures c.totalLoans == row.totalLoans && c.activeLoans == row.activeLoans
    ensures c.creditScore == row.creditScore
    ensures c.profileImage.Some?
    ensures TruthyString(row.profileImage) ==> c.profileImage == row.profileImage
    ensures !TruthyString(row.profileImage) ==> c.profileImage == Some(AvatarUrl(encode(row.fullName)))
    ensures c.tags == row.tags.GetOr([])
    ensures c.creditCheck == FirstCreditCheck(row.creditChecks)
  {
    Customer(
      row.id,
      row.fullName,
      row.email,
      row.phone,
      row.address,
      row.status,
      row.createdAt,
      row.lastContact,
      row.totalLoans,
      row.activeLoans,
      row.creditScore,
      FirstCreditCheck(row.creditChecks),
      Some(OrElse(row.profileImage, AvatarUrl(encode(row.fullName)))),
      row.tags.GetOr([]))
  }

  /** `data.map(...)`. */
  function ToCustomers(rows: seq<CustomerRow>, encode: string -> string): (r: seq<Customer>)
    ensures |r| == |rows|
    ensures forall i | 0 <= i < |rows| :: r[i] == ToCustomer(rows[i], encode)
  {
    if rows == [] then [] else [ToCustomer(rows[0], encode)] + ToCustomers(rows[1..], encode)
  }

  /** Every mapped customer has a non-empty image URL: its own, or the generated avatar. */
  lemma EveryCustomerHasImage(rows: seq<CustomerRow>, encode: string -> string)
    ensures forall i | 0 <= i < |rows| :: TruthyString(ToCustomers(rows, encode)[i].profileImage)
  {
    forall i | 0 <= i < |rows|
      ensures TruthyString(ToCustomers(rows, encode)[i].profileImage)
    {
      var c := ToCustomers(rows, encode)[i];
      assert c == ToCustomer(rows[i], encode);
      if !TruthyString(rows[i].profileImage) {
        assert |c.profileImage.value| >= |AvatarPrefix|;
      }
    }
  }

  /** How the query settles: with its rows, or with an error. */
  datatype Query = Rows(rows: seq<CustomerRow>) | QueryError(message: string)

  const FetchFailed := "Failed to fetch customers. Please try again."

  class CustomerStore {
    var customers: seq<Customer>
    var loading: bool
    var error: Option<string>

    constructor ()
      ensures customers == [] && loading && error == None
    {
      customers := [];
      loading := true;
      error := None;
    }

    /** The effect without an organization: nothing; otherwise the mapped rows, or the fixed
        error message with the previous customers kept, and loading cleared. */
    method FetchCustomers(organizationId: Option<string>, result: Query, encode: string -> string)
      modifies this
      ensures !TruthyString(organizationId) ==>
                customers == old(customers) && loading == old(loading) && error == old(error)
      ensures TruthyString(organizationId) && result.Rows? ==>
                customers == ToCustomers(result.rows, encode) && !loading && error == None
      ensures TruthyString(organizationId) && result.QueryError? ==>
                customers == old(customers) && !loading && error == Some(FetchFailed)
    {
      if !TruthyString(organizationId) {
        return;
      }
      loading := true;
      error := None;
      match result {
        case Rows(rows) =>
          customers := ToCustomers(rows, encode);
        case QueryError(_) =>
          error := Some(FetchFailed);
      }
      loading := false;
    }
  }
}
