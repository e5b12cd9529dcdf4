/** Values shared by every slice of the transaction viewer. */
module Types {

  /** `null` in the source becomes `None`. */
  datatype Option<+T> = None | Some(value: T)

  /** An entry of the employee directory. */
  datatype Employee = Employee(id: string, firstName: string, lastName: string)

  /** One transaction row; the amount is kept in whole cents. */
  datatype Transaction = Transaction(
    id: string,
    employeeId: string,
    merchant: string,
    amount: int,
    date: string,
    approved: bool,
    note: string)

  /** A `PaginatedResponse`: the rows of every page fetched so far, in fetch
      order, and the token of the page to ask for next (`None` = no more). */
  datatype Page = Page(data: seq<Transaction>, nextPage: Option<int>)

  /** Every row of `rows` belongs to the employee `employeeId`. */
  predicate RowsBelongTo(rows: seq<Transaction>, employeeId: string)
  {
    forall i :: 0 <= i < |rows| ==> rows[i].employeeId == employeeId
  }

  /** The rows a slice holds: none when it is absent. */
  function Rows(slice: Option<Page>): seq<Transaction>
  {
    if slice.Some? then slice.value.data else []
  }
}
