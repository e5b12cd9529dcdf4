/** The view orchestrator: the state the page keeps, the transitions its
    handlers run (each atomically, in sequence), and the projections the
    page renders from that state. */
module App {
  import opened Types
  import ByEmployee
  import PaginatedAll
  import EmployeeDirectory

  /** What the three data sources answer, as oracles. */
  datatype Backend = Backend(
    directory: seq<Employee>,
    allPages: PaginatedAll.AllPageSource,
    pagesByEmployee: ByEmployee.PageSource)

  /** A call the orchestrator makes on one of its slices, in the order made. */
  datatype Call =
    | InvalidatePaginated
    | InvalidateByEmployee
    | FetchEmployees(whileLoading: bool)
    | FetchPaginated(replace: bool)
    | FetchById(request: ByEmployee.Request)

  /** Everything the page keeps, plus the log of calls made so far. */
  datatype AppState = AppState(
    employees: Option<seq<Employee>>,
    paginated: Option<Page>,
    byEmployee: Option<Page>,
    currentEmployee: string,
    isLoading: bool,
    calls: seq<Call>)

  /** The state on first render. */
  function Initial(): AppState
  {
    AppState(None, None, None, "", false, [])
  }

  // ---------------------------------------------------------------------
  // Transitions

  /** `loadAllEmployees`: raise the loading flag, clear both paginated
      slices, fetch the directory, drop the flag, then fetch the first page
      of all transactions. */
  function AfterLoadAll(s: AppState, server: Backend): (r: AppState)
    ensures r.calls == s.calls + [InvalidatePaginated, InvalidateByEmployee, FetchEmployees(true), FetchPaginated(true)]
    ensures !r.isLoading
    ensures r.employees == Some(server.directory)
    ensures r.paginated == Some(server.allPages(0))
    ensures r.byEmployee.None?
    ensures r.currentEmployee == s.currentEmployee
  {
    var raised := s.(isLoading := true);
    var cleared := raised.(paginated := None, calls := raised.calls + [InvalidatePaginated]);
    var cleared' := cleared.(byEmployee := None, calls := cleared.calls + [InvalidateByEmployee]);
    var listed := cleared'.(employees := Some(server.directory), calls := cleared'.calls + [FetchEmployees(cleared'.isLoading)]);
    var lowered := listed.(isLoading := false);
    lowered.(paginated := PaginatedAll.Fetched(lowered.paginated, true, server.allPages),
             calls := lowered.calls + [FetchPaginated(true)])
  }

  /** `loadTransactionsByEmployee(employeeId)`: clear the all-transactions
      slice; the empty id reloads everything, any other id clears the
      by-employee slice and fetches that employee's first page. */
  function AfterSelect(s: AppState, employeeId: string, server: Backend): (r: AppState)
    ensures employeeId != "" ==>
      && r.paginated.None?
      && r.byEmployee == server.pagesByEmployee(employeeId, 0)
      && r.currentEmployee == employeeId
      && r.employees == s.employees
      && r.isLoading == s.isLoading
      && r.calls == s.calls + [InvalidatePaginated, InvalidateByEmployee, FetchById(ByEmployee.Request(employeeId, 0))]
    ensures employeeId == "" ==>
      && r.paginated == Some(server.allPages(0))
      && r.byEmployee.None?
      && r.currentEmployee == ""
      && r.employees == Some(server.directory)
      && !r.isLoading
      && r.calls == s.calls + [InvalidatePaginated, InvalidatePaginated, InvalidateByEmployee,
                               FetchEmployees(true), FetchPaginated(true)]
  {
    var cleared := s.(paginated := None, calls := s.calls + [InvalidatePaginated]);
    if employeeId == "" then
      AfterLoadAll(cleared, server).(currentEmployee := "")
    else
      var cleared' := cleared.(byEmployee := None, calls := cleared.calls + [InvalidateByEmployee]);
      var request := ByEmployee.Request(employeeId, ByEmployee.RequestedPage(cleared'.byEmployee));
      var fetched := cleared'.(byEmployee := ByEmployee.Fetched(cleared'.byEmployee, employeeId, server.pagesByEmployee),
                               calls := cleared'.calls + [FetchById(request)]);
      fetched.(currentEmployee := employeeId)
  }

  /** `viewMoreTransactions`: page the all-transactions slice on when it is
      present, otherwise the current employee's slice. */
  function AfterViewMore(s: AppState, server: Backend): (r: AppState)
    ensures r.employees == s.employees && r.currentEmployee == s.currentEmployee && r.isLoading == s.isLoading
    ensures |r.calls| == |s.calls| + 1 && r.calls[..|s.calls|] == s.calls
    ensures r.calls[|s.calls|] == FetchPaginated(false) <==> s.paginated.Some?
    ensures s.paginated.Some? ==>
      r.paginated == PaginatedAll.Fetched(s.paginated, false, server.allPages) && r.byEmployee == s.byEmployee
    ensures s.paginated.None? ==>
      && r.calls == s.calls + [FetchById(ByEmployee.Request(s.currentEmployee, ByEmployee.RequestedPage(s.byEmployee)))]
      && r.paginated.None?
      && r.byEmployee == ByEmployee.Fetched(s.byEmployee, s.currentEmployee, server.pagesByEmployee)
  {
    if s.paginated.Some? then
      s.(paginated := PaginatedAll.Fetched(s.paginated, false, server.allPages),
         calls := s.calls + [FetchPaginated(false)])
    else
      var request := ByEmployee.Request(s.currentEmployee, ByEmployee.RequestedPage(s.byEmployee));
      s.(byEmployee := ByEmployee.Fetched(s.byEmployee, s.currentEmployee, server.pagesByEmployee),
         calls := s.calls + [FetchById(request)])
  }

  /** The guard of the initial-load effect. */
  predicate ShouldInitialLoad(employees: Option<seq<Employee>>, employeesLoading: bool)
  {
    employees.None? && !employeesLoading
  }

  /** The initial-load effect: load everything while the directory is
      missing and not being fetched; otherwise nothing happens. */
  function AfterInitialLoad(s: AppState, employeesLoading: bool, server: Backend): (r: AppState)
    ensures ShouldInitialLoad(s.employees, employeesLoading) ==> r == AfterLoadAll(s, server)
    ensures ShouldInitialLoad(s.employees, employeesLoading) ==>
      && r.employees == Some(server.directory) && r.paginated == Some(server.allPages(0)) && r.byEmployee.None?
      && r.currentEmployee == s.currentEmployee && !r.isLoading
    ensures !ShouldInitialLoad(s.employees, employeesLoading) ==> r == s
  {
    if ShouldInitialLoad(s.employees, employeesLoading) then AfterLoadAll(s, server) else s
  }

  /** The dropdown's `onChange`: a null choice does nothing, any other
      choice selects that item's id. */
  function AfterChange(s: AppState, choice: Option<Employee>, server: Backend): (r: AppState)
    ensures choice.None? ==> r == s
    ensures choice.Some? ==> r == AfterSelect(s, choice.value.id, server)
    ensures choice.Some? && choice.value.id != "" ==>
      r.currentEmployee == choice.value.id && r.paginated.None? && r.byEmployee == server.pagesByEmployee(choice.value.id, 0)
    ensures choice.Some? && choice.value.id == "" ==>
      r.currentEmployee == "" && r.byEmployee.None? && r.paginated == Some(server.allPages(0))
      && r.employees == Some(server.directory)
  {
    match choice
    case None => s
    case Some(item) => AfterSelect(s, item.id, server)
  }

  // ---------------------------------------------------------------------
  // Projections

  /** `slice?.data`. */
  function DataOf(slice: Option<Page>): Option<seq<Transaction>>
  {
    if slice.Some? then Some(slice.value.data) else None
  }

  /** `slice?.nextPage`. */
  function NextPageOf(slice: Option<Page>): Option<int>
  {
    if slice.Some? then slice.value.nextPage else None
  }

  /** `a ?? b`. */
  function Coalesce<T>(a: Option<T>, b: Option<T>): Option<T>
  {
    if a.Some? then a else b
  }

  /** The transactions the page shows and the token that governs "View More". */
  datatype TransactionsView = TransactionsView(data: Option<seq<Transaction>>, nextPage: Option<int>)

  /** The view one slice alone would give. */
  function ViewOf(slice: Option<Page>): TransactionsView
  {
    TransactionsView(DataOf(slice), NextPageOf(slice))
  }

  /** The merged view: each field falls back from the all-transactions
      slice to the by-employee slice to null, independently of the other. */
  function MergedView(paginated: Option<Page>, byEmployee: Option<Page>): (v: TransactionsView)
    ensures byEmployee.None? ==> v == ViewOf(paginated)
    ensures paginated.None? ==> v == ViewOf(byEmployee)
    ensures paginated.Some? ==> v.data == Some(paginated.value.data)
    ensures paginated.Some? && paginated.value.nextPage.Some? ==> v.nextPage == paginated.value.nextPage
    ensures paginated.Some? && paginated.value.nextPage.None? ==> v.nextPage == NextPageOf(byEmployee)
    ensures v.data.None? <==> paginated.None? && byEmployee.None?
  {
    TransactionsView(
      Coalesce(DataOf(paginated), DataOf(byEmployee)),
      Coalesce(NextPageOf(paginated), NextPageOf(byEmployee)))
  }

  /** The merged view of a whole page state. */
  function ViewOfState(s: AppState): TransactionsView
  {
    MergedView(s.paginated, s.byEmployee)
  }

  /** JavaScript truthiness of a page token: neither null nor zero. */
  predicate Truthy(token: Option<int>)
  {
    token.Some? && token.value != 0
  }

  /** The "View More" button, when rendered, and whether it is disabled. */
  datatype Button = Button(disabled: bool)

  /** The button is rendered exactly when the merged token is truthy and is
      disabled while the all-transactions slice is loading. */
  function ViewMoreButton(view: TransactionsView, paginatedLoading: bool): (b: Option<Button>)
    ensures b.Some? <==> view.nextPage.Some? && view.nextPage.value != 0
    ensures b.Some? ==> b.value.disabled == paginatedLoading
  {
    if Truthy(view.nextPage) then Some(Button(paginatedLoading)) else None
  }

  /** The distinguished "All Employees" entry, with the empty id. */
  const EmptyEmployee := Employee("", "All", "Employees")

  /** The dropdown's items: none until the directory arrives, then the
      "All Employees" entry followed by every employee in order. */
  function DropdownItems(employees: Option<seq<Employee>>): (items: seq<Employee>)
    ensures employees.None? ==> items == []
    ensures employees.Some? ==> |items| == |employees.value| + 1 && items[0] == EmptyEmployee
    ensures employees.Some? ==> forall i :: 0 <= i < |employees.value| ==> items[i + 1] == employees.value[i]
  {
    if employees.None? then [] else [EmptyEmployee] + employees.value
  }

  /** A `{value, label}` pair of the select control. */
  datatype SelectItem = SelectItem(value: string, labelText: string)

  /** `parseItem`: the id as value, first and last name as label. */
  function ParseItem(item: Employee): (parsed: SelectItem)
    ensures parsed.value == item.id
    ensures parsed.labelText == item.firstName + " " + item.lastName
  {
    SelectItem(item.id, item.firstName + " " + item.lastName)
  }

  /** The first entry reads "All Employees" and selects the empty id; the
      others carry each employee's id and full name, in directory order. */
  lemma DropdownEntries(employees: seq<Employee>)
    ensures ParseItem(DropdownItems(Some(employees))[0]) == SelectItem("", "All Employees")
    ensures forall i :: 0 <= i < |employees| ==>
      && ParseItem(DropdownItems(Some(employees))[i + 1]).value == employees[i].id
      && ParseItem(DropdownItems(Some(employees))[i + 1]).labelText
           == employees[i].firstName + " " + employees[i].lastName
  {
  }

  // ---------------------------------------------------------------------
  // Properties of the transitions

  /** Nothing of a previous selection survives the choice of a non-empty id:
      the page shows exactly that employee's first page. */
  lemma SelectShowsOnlyFetchedPage(s: AppState, employeeId: string, server: Backend)
    requires employeeId != ""
    ensures ViewOfState(AfterSelect(s, employeeId, server)) == ViewOf(server.pagesByEmployee(employeeId, 0))
  {
  }

  /** Choosing "All Employees" never asks the by-employee source for anything. */
  lemma SelectAllIssuesNoByEmployeeFetch(s: AppState, server: Backend)
    ensures forall c :: c in AfterSelect(s, "", server).calls[|s.calls|..] ==> !c.FetchById?
    ensures AfterSelect(s, "", server).currentEmployee == ""
  {
  }

  /** In `loadAllEmployees` both paginated slices are cleared before the
      directory is requested, the directory is requested while the loading
      flag is up, and the all-transactions page is requested only after. */
  lemma LoadAllOrder(s: AppState, server: Backend)
    ensures var log := AfterLoadAll(s, server).calls[|s.calls|..];
      && |log| == 4
      && log[0] == InvalidatePaginated && log[1] == InvalidateByEmployee
      && log[2] == FetchEmployees(true)
      && log[3].FetchPaginated?
      && (forall i :: 0 <= i < 3 ==> !log[i].FetchPaginated?)
  {
  }

  /** The orchestrator: the three slice cells, the selected employee, the
      directory loading flag, and a log of the calls made on the slices. */
  class Orchestrator {
    const employees: EmployeeDirectory.Employees
    const paginated: PaginatedAll.PaginatedTransactions
    const byEmployee: ByEmployee.TransactionsByEmployee
    var currentEmployee: string
    var isLoading: bool
    ghost var calls: seq<Call>

    /** The page state these objects hold. */
    ghost function State(): AppState
      reads this, employees, paginated, byEmployee
    {
      AppState(employees.data, paginated.data, byEmployee.data, currentEmployee, isLoading, calls)
    }

    /** First render: no data anywhere, no employee selected, not loading. */
    constructor ()
      ensures State() == Initial()
      ensures fresh(employees) && fresh(paginated) && fresh(byEmployee)
    {
      employees := new EmployeeDirectory.Employees();
      paginated := new PaginatedAll.PaginatedTransactions();
      byEmployee := new ByEmployee.TransactionsByEmployee();
      currentEmployee := "";
      isLoading := false;
      calls := [];
    }

    method LoadAllEmployees(server: Backend)
      modifies this, employees, paginated, byEmployee
      ensures State() == AfterLoadAll(old(State()), server)
    {
      isLoading := true;
      paginated.InvalidateData();
      calls := calls + [InvalidatePaginated];
      byEmployee.InvalidateData();
      calls := calls + [InvalidateByEmployee];
      calls := calls + [FetchEmployees(isLoading)];
      employees.FetchAll(server.directory);
      isLoading := false;
      var _ := paginated.Fetch(true, server.allPages);
      calls := calls + [FetchPaginated(true)];
    }

    method LoadTransactionsByEmployee(employeeId: string, server: Backend)
      modifies this, employees, paginated, byEmployee
      ensures State() == AfterSelect(old(State()), employeeId, server)
    {
      paginated.InvalidateData();
      calls := calls + [InvalidatePaginated];
      if employeeId == "" {
        LoadAllEmployees(server);
        currentEmployee := "";
      } else {
        byEmployee.InvalidateData();
        calls := calls + [InvalidateByEmployee];
        var request := byEmployee.FetchById(employeeId, server.pagesByEmployee);
        calls := calls + [FetchById(request)];
        currentEmployee := employeeId;
      }
    }

    method ViewMoreTransactions(server: Backend)
      modifies this, paginated, byEmployee
      ensures State() == AfterViewMore(old(State()), server)
    {
      if paginated.data.Some? {
        var _ := paginated.Fetch(false, server.allPages);
        calls := calls + [FetchPaginated(false)];
      } else {
        var request := byEmployee.FetchById(currentEmployee, server.pagesByEmployee);
        calls := calls + [FetchById(request)];
      }
    }

    /** The initial-load effect, given the directory slice's loading flag. */
    method InitialLoadEffect(employeesLoading: bool, server: Backend)
      modifies this, employees, paginated, byEmployee
      ensures State() == AfterInitialLoad(old(State()), employeesLoading, server)
    {
      if employees.data.None? && !employeesLoading {
        LoadAllEmployees(server);
      }
    }

    /** The dropdown's change handler. */
    method OnChange(choice: Option<Employee>, server: Backend)
      modifies this, employees, paginated, byEmployee
      ensures State() == AfterChange(old(State()), choice, server)
    {
      if choice.Some? {
        LoadTransactionsByEmployee(choice.value.id, server);
      }
    }
  }
}
