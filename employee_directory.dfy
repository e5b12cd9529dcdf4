/** The employee directory slice. Its hook body lives in
    src/hooks/useEmployees.ts, outside this model; only its interface
    (`data`, `fetchAll`, `invalidateData`) in src/hooks/types.ts is.
    `fetchAll` stores the directory source's answer as it is. */
module EmployeeDirectory {
  import opened Types

  /** The slice cell owned by the hook. */
  class Employees {
    var data: Option<seq<Employee>>

    /** The cell starts out absent. */
    constructor ()
      ensures data == None
    {
      data := None;
    }

    /** Stores the list the directory source answers. */
    method FetchAll(directory: seq<Employee>)
      modifies this
      ensures data == Some(directory)
    {
      data := Some(directory);
    }

    /** Resets the cell to absent. */
    method InvalidateData()
      modifies this
      ensures data == None
    {
      data := None;
    }
  }
}
