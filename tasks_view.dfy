/** The task list page (`TasksComponent`): the filter engine that derives the
    visible tasks from the cache, the search term and the status filter, and
    the component state that keeps that view up to date. */
module TasksView {
  import opened Domain
  import opened Sequences
  import opened Text
  import TaskDialog

  /** The status selector: `'all' | 'completed' | 'pending'`. */
  datatype Status = All | Completed | Pending

  // ---------------------------------------------------------------------
  // The filter engine (`applyFilters`)
  // ---------------------------------------------------------------------

  /** The search test: the term, lowered, occurs in the lowered title or
      the lowered description. */
  predicate MatchesSearch(t: Task, term: string): (m: bool)
    ensures m <==>
      (exists i :: OccursAt(Lower(t.title), Lower(term), i)) ||
      (exists i :: OccursAt(Lower(t.description), Lower(term), i))
  {
    IncludesIffOccurs(Lower(t.title), Lower(term));
    IncludesIffOccurs(Lower(t.description), Lower(term));
    assert ContainsIgnoringCase(t.title, term) == Includes(Lower(t.title), Lower(term));
    assert ContainsIgnoringCase(t.description, term) == Includes(Lower(t.description), Lower(term));
    ContainsIgnoringCase(t.title, term) || ContainsIgnoringCase(t.description, term)
  }

  function MatchesSearchFor(term: string): Task -> bool {
    (t: Task) => MatchesSearch(t, term)
  }

  /** The status test for one task. */
  predicate StatusAllows(status: Status, t: Task) {
    match status
    case All => true
    case Completed => t.completed
    case Pending => !t.completed
  }

  /** `applyFilters`: the search filter when the term is non-empty, then the
      status filter. */
  function ApplyFilters(tasks: seq<Task>, term: string, status: Status): (visible: seq<Task>)
    ensures |visible| <= |tasks|
  {
    var searched := if term != "" then Filter(tasks, MatchesSearchFor(term)) else tasks;
    match status
    case All => searched
    case Completed => Filter(searched, IsCompleted)
    case Pending => Filter(searched, IsPending)
  }

  /** Whether one task survives both filters, stated per task. */
  predicate Visible(t: Task, term: string, status: Status) {
    (term == "" || MatchesSearch(t, term)) && StatusAllows(status, t)
  }

  function VisibleFor(term: string, status: Status): Task -> bool {
    (t: Task) => Visible(t, term, status)
  }

  /** The two passes of `applyFilters` are one filter by `Visible`. */
  lemma ApplyFiltersIsOneFilter(tasks: seq<Task>, term: string, status: Status)
    ensures ApplyFilters(tasks, term, status) == Filter(tasks, VisibleFor(term, status))
  {
    var searchTest := if term != "" then MatchesSearchFor(term) else (t: Task) => true;
    var searched := Filter(tasks, searchTest);
    if term != "" {
      assert searched == Filter(tasks, MatchesSearchFor(term));
    } else {
      FilterKeepsAll(tasks, searchTest);
    }
    match status
    case All =>
      FilterCompose(tasks, searchTest, (t: Task) => true, VisibleFor(term, status));
      FilterKeepsAll(searched, (t: Task) => true);
    case Completed =>
      FilterCompose(tasks, searchTest, IsCompleted, VisibleFor(term, status));
    case Pending =>
      FilterCompose(tasks, searchTest, IsPending, VisibleFor(term, status));
  }

  /** A task is visible exactly when it is in the cache and passes both tests. */
  lemma ApplyFiltersMembers(tasks: seq<Task>, term: string, status: Status)
    ensures forall t :: t in ApplyFilters(tasks, term, status) <==> t in tasks && Visible(t, term, status)
  {
    ApplyFiltersIsOneFilter(tasks, term, status);
    FilterMembers(tasks, VisibleFor(term, status));
  }

  /** The view is always an order-preserving subsequence of the cache. */
  lemma ApplyFiltersSubsequence(tasks: seq<Task>, term: string, status: Status)
    ensures SubsequenceOf(ApplyFilters(tasks, term, status), tasks)
  {
    ApplyFiltersIsOneFilter(tasks, term, status);
    FilterSubsequence(tasks, VisibleFor(term, status));
  }

  /** With no search term and status `all`, the view is the whole cache. */
  lemma ApplyFiltersNoCriteria(tasks: seq<Task>)
    ensures ApplyFilters(tasks, "", All) == tasks
  {
  }

  /** When every cached task passes both tests the view is the whole cache,
      and only then. */
  lemma ApplyFiltersKeepsAll(tasks: seq<Task>, term: string, status: Status)
    ensures ApplyFilters(tasks, term, status) == tasks <==> forall t :: t in tasks ==> Visible(t, term, status)
  {
    ApplyFiltersIsOneFilter(tasks, term, status);
    FilterKeepsAll(tasks, VisibleFor(term, status));
  }

  /** `completed` and `pending` split the search result: together they hold
      each of its tasks exactly as often as it does. */
  lemma StatusPartition(tasks: seq<Task>, term: string)
    ensures multiset(ApplyFilters(tasks, term, Completed)) + multiset(ApplyFilters(tasks, term, Pending))
         == multiset(ApplyFilters(tasks, term, All))
    ensures |ApplyFilters(tasks, term, Completed)| + |ApplyFilters(tasks, term, Pending)|
         == |ApplyFilters(tasks, term, All)|
  {
    FilterSplit(ApplyFilters(tasks, term, All), IsCompleted, IsPending);
  }

  /** A single task passes the search with status `all` exactly when the term
      occurs, ignoring case, in its title or its description; the empty term
      occurs everywhere. */
  lemma SingleTaskSearch(t: Task, term: string)
    ensures t in ApplyFilters([t], term, All) <==>
      ContainsIgnoringCase(t.title, term) || ContainsIgnoringCase(t.description, term)
  {
    ApplyFiltersMembers([t], term, All);
    if term == "" {
      IncludesEmpty(Lower(t.title));
    }
  }

  // ---------------------------------------------------------------------
  // What the page does with a closed dialog
  // ---------------------------------------------------------------------

  /** `onCreateTask`: a dialog closed with a value, while a user is signed
      in, becomes a create request owned by that user; a cancelled dialog,
      or no user, sends nothing. */
  function CreateRequestFrom(result: Option<TaskDialog.FormValue>, currentUser: Option<User>): (req: Option<CreateTaskRequest>)
    ensures req.Some? <==> result.Some? && currentUser.Some?
    ensures req.Some? ==>
      && req.value.title == result.value.title
      && req.value.description == result.value.description
      && req.value.userId == currentUser.value.id
  {
    if result.Some? && currentUser.Some? then
      Some(CreateTaskRequest(result.value.title, result.value.description, currentUser.value.id))
    else None
  }

  /** `onEditTask`: a dialog closed with a value becomes an update of the
      title and the description, leaving the completion flag alone; a
      cancelled dialog sends nothing. */
  function EditPatchFrom(result: Option<TaskDialog.FormValue>): (patch: Option<TaskPatch>)
    ensures patch.Some? <==> result.Some?
    ensures patch.Some? ==>
      patch.value.title == Some(result.value.title)
      && patch.value.description == Some(result.value.description)
      && patch.value.completed.None?
  {
    match result
    case Some(v) => Some(TaskPatch(Some(v.title), Some(v.description), None))
    case None => None
  }

  // ---------------------------------------------------------------------
  // The component
  // ---------------------------------------------------------------------

  /** The exports the page offers. */
  datatype ExportKind = ToExcel | ToCsv | CompletedOnly | PendingOnly

  /** Whether an export of this kind would write out the task. */
  predicate Selects(kind: ExportKind, t: Task) {
    match kind
    case ToExcel => true
    case ToCsv => true
    case CompletedOnly => IsCompleted(t)
    case PendingOnly => IsPending(t)
  }

  class TasksComponent {
    var currentUser: Option<User>
    var tasks: seq<Task>
    var filteredTasks: seq<Task>
    var loading: bool
    var searchTerm: string
    var filterStatus: Status

    /** The view always shows the filters applied to the current tasks. */
    ghost predicate Valid()
      reads this
    {
      filteredTasks == ApplyFilters(tasks, searchTerm, filterStatus)
    }

    constructor ()
      ensures Valid()
      ensures currentUser == None && tasks == [] && filteredTasks == [] && !loading
      ensures searchTerm == "" && filterStatus == All
    {
      currentUser := None;
      tasks, filteredTasks := [], [];
      loading := false;
      searchTerm, filterStatus := "", All;
    }

    /** The `authState$` handler: records the user and, when there is one,
        asks the task store to load that user's tasks (the id is returned). */
    method OnAuthState(state: AuthState) returns (loadFor: Option<string>)
      requires Valid()
      modifies this`currentUser
      ensures Valid()
      ensures currentUser == state.user
      ensures loadFor == if state.user.Some? then Some(state.user.value.id) else None
    {
      currentUser := state.user;
      if currentUser.Some? {
        loadFor := Some(currentUser.value.id);
      } else {
        loadFor := None;
      }
    }

    /** The `tasks$` handler: take the emitted list and recompute the view. */
    method OnTasks(emitted: seq<Task>)
      requires Valid()
      modifies this`tasks, this`filteredTasks
      ensures Valid()
      ensures tasks == emitted
      ensures searchTerm == old(searchTerm) && filterStatus == old(filterStatus)
      ensures SubsequenceOf(filteredTasks, tasks)
    {
      tasks := emitted;
      filteredTasks := ApplyFilters(tasks, searchTerm, filterStatus);
      ApplyFiltersSubsequence(tasks, searchTerm, filterStatus);
    }

    /** The `loading$` handler. */
    method OnLoading(emitted: bool)
      requires Valid()
      modifies this`loading
      ensures Valid() && loading == emitted
    {
      loading := emitted;
    }

    /** `onSearchChange`: a new term, the same status, a recomputed view. */
    method OnSearchChange(term: string)
      requires Valid()
      modifies this`searchTerm, this`filteredTasks
      ensures Valid()
      ensures searchTerm == term && filterStatus == old(filterStatus) && tasks == old(tasks)
    {
      searchTerm := term;
      filteredTasks := ApplyFilters(tasks, searchTerm, filterStatus);
    }

    /** `onFilterChange`: a new status, the same term, a recomputed view. */
    method OnFilterChange(status: Status)
      requires Valid()
      modifies this`filterStatus, this`filteredTasks
      ensures Valid()
      ensures filterStatus == status && searchTerm == old(searchTerm) && tasks == old(tasks)
    {
      filterStatus := status;
      filteredTasks := ApplyFilters(tasks, searchTerm, filterStatus);
    }

    /** `clearFilters`: no term, status `all`, so the view is every task. */
    method ClearFilters()
      requires Valid()
      modifies this`searchTerm, this`filterStatus, this`filteredTasks
      ensures Valid()
      ensures searchTerm == "" && filterStatus == All && tasks == old(tasks)
      ensures filteredTasks == tasks
    {
      searchTerm := "";
      filterStatus := All;
      filteredTasks := ApplyFilters(tasks, searchTerm, filterStatus);
      ApplyFiltersNoCriteria(tasks);
    }

    /** The export handlers: nothing is exported when no task is of the kind
        asked for; otherwise the export service receives the whole task
        list, not the filtered view. */
    method OnExport(kind: ExportKind) returns (exported: Option<seq<Task>>)
      ensures exported.None? <==> forall t :: t in tasks ==> !Selects(kind, t)
      ensures exported.Some? ==> exported.value == tasks
    {
      var selected := match kind
        case ToExcel => tasks
        case ToCsv => tasks
        case CompletedOnly => Filter(tasks, IsCompleted)
        case PendingOnly => Filter(tasks, IsPending);
      if |selected| == 0 {
        exported := None;
      } else {
        exported := Some(tasks);
      }
      FilterDropsAll(tasks, IsCompleted);
      FilterDropsAll(tasks, IsPending);
    }
  }
}
