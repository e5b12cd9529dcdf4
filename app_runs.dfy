/** Runs of the page: user actions applied one after another from the first
    render, and what every reachable state guarantees. */
module AppRuns {
  import opened Types
  import ByEmployee
  import opened App

  /** What the user (or React, for the mount effect) does. */
  datatype Action =
    | Mount(employeesLoading: bool)
    | Choose(choice: Option<Employee>)
    | ClickViewMore

  /** An action together with what the sources answer while it runs. */
  datatype Event = Event(action: Action, server: Backend)

  /** An action the rendered page offers: a choice among the dropdown's
      items, or a click on a rendered, enabled "View More" button (no fetch
      is in flight between two atomic transitions). */
  predicate Enabled(s: AppState, action: Action)
  {
    match action
    case Mount(_) => true
    case Choose(choice) => choice.None? || choice.value in DropdownItems(s.employees)
    case ClickViewMore => ViewMoreButton(ViewOfState(s), false) == Some(Button(false))
  }

  /** The handler an event runs. */
  function Step(s: AppState, e: Event): AppState
  {
    match e.action
    case Mount(employeesLoading) => AfterInitialLoad(s, employeesLoading, e.server)
    case Choose(choice) => AfterChange(s, choice, e.server)
    case ClickViewMore => AfterViewMore(s, e.server)
  }

  /** The state after `events`, in order. */
  function Run(s: AppState, events: seq<Event>): AppState
    decreases |events|
  {
    if events == [] then s else Run(Step(s, events[0]), events[1..])
  }

  /** Every event of the run is offered by the state it arrives in. */
  predicate EnabledRun(s: AppState, events: seq<Event>)
    decreases |events|
  {
    events == [] || (Enabled(s, events[0].action) && EnabledRun(Step(s, events[0]), events[1..]))
  }

  /** The by-employee source answers a request only with rows of the
      employee it names. */
  ghost predicate Honest(server: Backend)
  {
    forall employeeId, page :: RowsBelongTo(Rows(server.pagesByEmployee(employeeId, page)), employeeId)
  }

  /** At most one paginated slice holds data. */
  predicate AtMostOnePresent(s: AppState)
  {
    s.paginated.None? || s.byEmployee.None?
  }

  /** The shape the invalidation protocol maintains whatever the sources
      answer: at most one slice present; with "All Employees" selected the
      by-employee slice is absent; with an employee selected the
      all-transactions slice is absent and the directory is loaded. */
  predicate Shaped(s: AppState)
  {
    && AtMostOnePresent(s)
    && (s.currentEmployee == "" ==> s.byEmployee.None?)
    && (s.currentEmployee != "" ==> s.paginated.None? && s.employees.Some?)
  }

  /** The shape, and with an employee selected every row held is that
      employee's. */
  predicate Consistent(s: AppState)
  {
    && Shaped(s)
    && (s.currentEmployee != "" ==> RowsBelongTo(Rows(s.byEmployee), s.currentEmployee))
  }

  /** The rows the page shows. */
  function ViewRows(v: TransactionsView): seq<Transaction>
  {
    if v.data.Some? then v.data.value else []
  }

  /** Merging two sets of rows of one employee gives rows of that employee. */
  lemma MergeKeepsOwner(previous: Option<Page>, response: Option<Page>, employeeId: string)
    requires RowsBelongTo(Rows(previous), employeeId)
    requires RowsBelongTo(Rows(response), employeeId)
    ensures RowsBelongTo(Rows(ByEmployee.Merge(previous, response)), employeeId)
  {
  }

  /** Every offered action keeps the shape, whatever the sources answer. */
  lemma StepKeepsShaped(s: AppState, e: Event)
    requires Shaped(s)
    requires Enabled(s, e.action)
    ensures Shaped(Step(s, e))
  {
  }

  /** The shape holds after every run of offered actions from a shaped state. */
  lemma {:induction false} RunKeepsShaped(s: AppState, events: seq<Event>)
    requires Shaped(s)
    requires EnabledRun(s, events)
    ensures Shaped(Run(s, events))
    decreases |events|
  {
    if events != [] {
      StepKeepsShaped(s, events[0]);
      RunKeepsShaped(Step(s, events[0]), events[1..]);
    }
  }

  /** In every state reachable from the first render, whatever the sources
      answer, at most one paginated slice is present, and a shown "View More"
      pages a slice that has a next page. */
  lemma {:induction false} ReachableViewMoreStaysWithinData(events: seq<Event>)
    requires EnabledRun(Initial(), events)
    ensures AtMostOnePresent(Run(Initial(), events))
    ensures var r := Run(Initial(), events);
      Enabled(r, ClickViewMore) ==>
        if r.paginated.Some? then r.paginated.value.nextPage.Some?
        else r.byEmployee.Some? && ByEmployee.RequestedPage(r.byEmployee) == r.byEmployee.value.nextPage.value != 0
  {
    RunKeepsShaped(Initial(), events);
    var r := Run(Initial(), events);
    if Enabled(r, ClickViewMore) {
      ViewMoreStaysWithinData(r);
    }
  }

  /** Every offered action keeps the page consistent. */
  lemma StepKeepsConsistent(s: AppState, e: Event)
    requires Consistent(s)
    requires Honest(e.server)
    requires Enabled(s, e.action)
    ensures Consistent(Step(s, e))
  {
  }

  /** Consistency holds after every run of offered actions from a
      consistent state. */
  lemma {:induction false} RunKeepsConsistent(s: AppState, events: seq<Event>)
    requires Consistent(s)
    requires forall i :: 0 <= i < |events| ==> Honest(events[i].server)
    requires EnabledRun(s, events)
    ensures Consistent(Run(s, events))
    decreases |events|
  {
    if events != [] {
      StepKeepsConsistent(s, events[0]);
      RunKeepsConsistent(Step(s, events[0]), events[1..]);
    }
  }

  /** In every reachable state at most one paginated slice is present, and
      while an employee is selected the page shows only that employee's rows. */
  lemma {:induction false} ReachableViewShowsOnlySelection(events: seq<Event>)
    requires forall i :: 0 <= i < |events| ==> Honest(events[i].server)
    requires EnabledRun(Initial(), events)
    ensures AtMostOnePresent(Run(Initial(), events))
    ensures var r := Run(Initial(), events);
      r.currentEmployee != "" ==> RowsBelongTo(ViewRows(ViewOfState(r)), r.currentEmployee)
  {
    RunKeepsConsistent(Initial(), events);
  }

  /** With at most one slice present, a shown and enabled "View More" always
      pages a slice that has a next page: the all-transactions fetch is
      never idle, and the by-employee fetch asks for the stored non-zero
      token, never for page 0 again. */
  lemma ViewMoreStaysWithinData(s: AppState)
    requires AtMostOnePresent(s)
    requires Enabled(s, ClickViewMore)
    ensures s.paginated.Some? ==> s.paginated.value.nextPage.Some?
    ensures s.paginated.None? ==>
      && s.byEmployee.Some?
      && s.byEmployee.value.nextPage.Some?
      && ByEmployee.RequestedPage(s.byEmployee) == s.byEmployee.value.nextPage.value != 0
  {
  }

  /** Choosing one employee and then another never shows a row of the first. */
  lemma SwitchingEmployeeHidesPreviousRows(s: AppState, first: string, second: string, server: Backend)
    requires Honest(server)
    requires second != "" && first != second
    ensures var r := AfterSelect(AfterSelect(s, first, server), second, server);
      forall t :: t in ViewRows(ViewOfState(r)) ==> t.employeeId != first
  {
  }

  /** The state after `k` clicks of "View More". */
  function ViewMoreTimes(s: AppState, server: Backend, k: nat): AppState
    decreases k
  {
    if k == 0 then s else ViewMoreTimes(AfterViewMore(s, server), server, k - 1)
  }

  /** While the all-transactions slice is absent, each click fetches the next
      page of the current employee. */
  lemma {:induction false} ViewMoreTimesFetchesByEmployee(s: AppState, server: Backend, k: nat)
    requires s.paginated.None?
    ensures ViewMoreTimes(s, server, k).paginated.None?
    ensures ViewMoreTimes(s, server, k).currentEmployee == s.currentEmployee
    ensures ViewMoreTimes(s, server, k).byEmployee
         == ByEmployee.FetchTimes(s.byEmployee, s.currentEmployee, server.pagesByEmployee, k)
    decreases k
  {
    if k > 0 {
      ViewMoreTimesFetchesByEmployee(AfterViewMore(s, server), server, k - 1);
    }
  }

  /** Choosing an employee and clicking "View More" `k` times shows the
      rows of the `k + 1` pages received, in the order received, and the
      last page's token. */
  lemma {:induction false} PagingOneEmployee(s: AppState, employeeId: string, server: Backend, k: nat)
    requires employeeId != ""
    requires ByEmployee.AllPresent(ByEmployee.Responses(None, employeeId, server.pagesByEmployee, k + 1))
    ensures var rs := ByEmployee.Responses(None, employeeId, server.pagesByEmployee, k + 1);
      ViewOfState(ViewMoreTimes(AfterSelect(s, employeeId, server), server, k))
        == TransactionsView(Some(ByEmployee.ConcatRows(rs)), rs[k].value.nextPage)
  {
    var selected := AfterSelect(s, employeeId, server);
    var source := server.pagesByEmployee;
    ViewMoreTimesFetchesByEmployee(selected, server, k);
    ByEmployee.FetchAfterInvalidate(employeeId, source);
    assert ByEmployee.FetchTimes(None, employeeId, source, k + 1)
        == ByEmployee.FetchTimes(selected.byEmployee, employeeId, source, k);
    ByEmployee.FetchesAfterInvalidateConcatenate(employeeId, source, k + 1);
  }

  // ---------------------------------------------------------------------
  // The two worked scenarios of the design document

  const T1 := Transaction("t1", "2", "Shop", 1000, "2024-01-01", true, "")
  const T2 := Transaction("t2", "2", "Cafe", -250, "2024-01-02", false, "")
  const T3 := Transaction("t3", "1", "Hotel", 40000, "2024-01-03", false, "")
  const T4 := Transaction("t4", "2", "Taxi", 1800, "2024-01-04", true, "")
  const EmployeeOne := Employee("1", "A", "B")

  /** One directory entry; all-transactions page 0 then page 1 (the last);
      a single last page for employee "1". */
  function ScenarioServer(): Backend
  {
    Backend(
      [EmployeeOne],
      page => if page == 0 then Page([T1, T2], Some(1)) else Page([T4], None),
      (employeeId, page) => if employeeId == "1" && page == 0 then Some(Page([T3], None)) else None)
  }

  /** Mounting shows page 0 of all transactions; choosing employee "1"
      clears both slices, asks for that employee's page 0 and shows only it,
      without a "View More" button. */
  lemma ScenarioChooseEmployee()
    ensures var mounted := Step(Initial(), Event(Mount(false), ScenarioServer()));
      && ViewOfState(mounted) == TransactionsView(Some([T1, T2]), Some(1))
      && Enabled(mounted, Choose(Some(EmployeeOne)))
      && var chosen := Step(mounted, Event(Choose(Some(EmployeeOne)), ScenarioServer()));
      && ViewOfState(chosen) == TransactionsView(Some([T3]), None)
      && chosen.calls[|mounted.calls|..]
           == [InvalidatePaginated, InvalidateByEmployee, FetchById(ByEmployee.Request("1", 0))]
      && ViewMoreButton(ViewOfState(chosen), false).None?
  {
  }

  /** Clicking "View More" on all transactions at token 1 appends page 1
      and the button disappears. */
  lemma ScenarioViewMore()
    ensures var mounted := Step(Initial(), Event(Mount(false), ScenarioServer()));
      && Enabled(mounted, ClickViewMore)
      && var more := Step(mounted, Event(ClickViewMore, ScenarioServer()));
      && ViewOfState(more) == TransactionsView(Some([T1, T2, T4]), None)
      && ViewMoreButton(ViewOfState(more), false).None?
  {
    var server := ScenarioServer();
    assert server.allPages(0) == Page([T1, T2], Some(1));
    assert server.allPages(1) == Page([T4], None);
    assert [T1, T2] + [T4] == [T1, T2, T4];
  }
}
