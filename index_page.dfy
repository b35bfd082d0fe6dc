/**
 * The list page: the search-and-filter view of the records, the empty-state
 * decision, and the page state behind the editor dialog (which record, if
 * any, is being edited), with the request each handler sends to the backend.
 */
module IndexPage {
  import opened TodoModel
  import opened Text
  import TodoItem

  /** The selector value meaning "no restriction". */
  const All := "all"

  /** The status value that keeps completed records; every other value but `all` keeps open ones. */
  const Completed := "completed"

  /** The four filter inputs: `searchQuery`, `filterPriority`, `filterCategory`, `filterStatus`. */
  datatype Filters = Filters(search: string, priority: string, category: string, status: string)

  /** The inputs the page starts with. */
  const Unfiltered := Filters("", All, All, All)

  // ---------------------------------------------------------------------
  // The filter
  // ---------------------------------------------------------------------

  /** The lowered query occurs in the lowered title, or in the lowered description when there is one. */
  predicate MatchesSearch(t: Todo, search: string)
  {
    Includes(Lower(t.title), Lower(search))
    || (t.description.Some? && Includes(Lower(t.description.value), Lower(search)))
  }

  predicate MatchesPriority(t: Todo, priority: string)
  {
    priority == All || PriorityName(t.priority) == priority
  }

  predicate MatchesCategory(t: Todo, category: string)
  {
    category == All || CategoryName(t.category) == category
  }

  predicate MatchesStatus(t: Todo, status: string)
  {
    status == All || (if status == Completed then t.completed else !t.completed)
  }

  /** The callback given to `todos.filter`. */
  predicate Keep(t: Todo, f: Filters)
  {
    MatchesSearch(t, f.search) && MatchesPriority(t, f.priority)
    && MatchesCategory(t, f.category) && MatchesStatus(t, f.status)
  }

  /** `filteredTodos`: the records that pass all four tests, in their original order. */
  function FilterTodos(todos: seq<Todo>, f: Filters): (r: seq<Todo>)
    ensures |r| <= |todos|
    ensures forall i :: 0 <= i < |r| ==> Keep(r[i], f) && r[i] in todos
  {
    if todos == [] then []
    else if Keep(todos[0], f) then [todos[0]] + FilterTodos(todos[1..], f)
    else FilterTodos(todos[1..], f)
  }

  /** `a` is `b` with some elements dropped and the rest in the same order. */
  ghost predicate IsSubsequence<T>(a: seq<T>, b: seq<T>)
    decreases |b|
  {
    a == [] || (b != [] && ((a[0] == b[0] && IsSubsequence(a[1..], b[1..])) || IsSubsequence(a, b[1..])))
  }

  /** The filtered list keeps the relative order of the records it keeps. */
  lemma {:induction false} FilterIsSubsequence(todos: seq<Todo>, f: Filters)
    ensures IsSubsequence(FilterTodos(todos, f), todos)
  {
    if todos != [] {
      FilterIsSubsequence(todos[1..], f);
    }
  }

  /** A record is shown exactly when it is in the list and passes all four tests. */
  lemma {:induction false} FilterMembership(todos: seq<Todo>, f: Filters, x: Todo)
    ensures x in FilterTodos(todos, f) <==> x in todos && Keep(x, f)
  {
    if todos != [] {
      FilterMembership(todos[1..], f, x);
      assert todos == [todos[0]] + todos[1..];
    }
  }

  /** A kept record appears as often as in the list, a dropped one not at all. */
  lemma {:induction false} FilterCount(todos: seq<Todo>, f: Filters, x: Todo)
    ensures multiset(FilterTodos(todos, f))[x] == if Keep(x, f) then multiset(todos)[x] else 0
  {
    if todos != [] {
      FilterCount(todos[1..], f, x);
      assert todos == [todos[0]] + todos[1..];
    }
  }

  /** Filtering a concatenation filters each part. */
  lemma {:induction false} FilterConcat(a: seq<Todo>, b: seq<Todo>, f: Filters)
    ensures FilterTodos(a + b, f) == FilterTodos(a, f) + FilterTodos(b, f)
  {
    if a == [] {
      assert a + b == b;
    } else {
      assert (a + b)[0] == a[0];
      assert (a + b)[1..] == a[1..] + b;
      FilterConcat(a[1..], b, f);
      if Keep(a[0], f) {
        assert [a[0]] + (FilterTodos(a[1..], f) + FilterTodos(b, f))
            == ([a[0]] + FilterTodos(a[1..], f)) + FilterTodos(b, f);
      }
    }
  }

  /** A list whose every record passes is left as it is. */
  lemma {:induction false} FilterKeepsPassing(todos: seq<Todo>, f: Filters)
    requires forall i :: 0 <= i < |todos| ==> Keep(todos[i], f)
    ensures FilterTodos(todos, f) == todos
  {
    if todos != [] {
      FilterKeepsPassing(todos[1..], f);
    }
  }

  /** A list whose every record fails is filtered to nothing. */
  lemma {:induction false} FilterDropsFailing(todos: seq<Todo>, f: Filters)
    requires forall i :: 0 <= i < |todos| ==> !Keep(todos[i], f)
    ensures FilterTodos(todos, f) == []
  {
    if todos != [] {
      FilterDropsFailing(todos[1..], f);
    }
  }

  /** Filtering the filtered list again with the same inputs changes nothing. */
  lemma {:induction false} FilterIdempotent(todos: seq<Todo>, f: Filters)
    ensures FilterTodos(FilterTodos(todos, f), f) == FilterTodos(todos, f)
  {
    FilterKeepsPassing(FilterTodos(todos, f), f);
  }

  /** With the initial inputs every record is shown: `includes("")` always holds. */
  lemma {:induction false} UnfilteredKeepsAll(todos: seq<Todo>)
    ensures FilterTodos(todos, Unfiltered) == todos
  {
    forall i | 0 <= i < |todos| ensures Keep(todos[i], Unfiltered) {
      assert [] <= Lower(todos[i].title);
    }
    FilterKeepsPassing(todos, Unfiltered);
  }

  /** The search is the substring test on lowered text; a null description never matches. */
  lemma {:induction false} SearchMeaning(t: Todo, search: string)
    ensures MatchesSearch(t, search) <==>
      (exists i :: OccursAt(Lower(t.title), Lower(search), i))
      || (t.description.Some? && exists i :: OccursAt(Lower(t.description.value), Lower(search), i))
    ensures t.description.None? ==>
      (MatchesSearch(t, search) <==> exists i :: OccursAt(Lower(t.title), Lower(search), i))
  {
    IncludesIffOccurs(Lower(t.title), Lower(search));
    assert Includes(Lower(t.title), Lower(search)) <==> exists i :: OccursAt(Lower(t.title), Lower(search), i);
    if t.description.Some? {
      IncludesIffOccurs(Lower(t.description.value), Lower(search));
      assert MatchesSearch(t, search) <==>
        Includes(Lower(t.title), Lower(search)) || Includes(Lower(t.description.value), Lower(search));
    }
  }

  /** The case of the query does not matter. */
  lemma {:induction false} SearchIgnoresQueryCase(t: Todo, search: string)
    ensures MatchesSearch(t, search) <==> MatchesSearch(t, Lower(search))
  {
    LowerIdempotent(search);
  }

  /** The case of the record's title and description does not matter. */
  lemma {:induction false} SearchIgnoresRecordCase(t: Todo, search: string)
    ensures var lowered := t.(title := Lower(t.title),
                             description := if t.description.Some? then Some(Lower(t.description.value)) else None);
      MatchesSearch(t, search) <==> MatchesSearch(lowered, search)
  {
    LowerIdempotent(t.title);
    if t.description.Some? {
      LowerIdempotent(t.description.value);
    }
  }

  /**
   * Status `completed` keeps exactly the completed records; any other value
   * but `all`, `active` among them, keeps exactly the open ones.
   */
  lemma {:induction false} StatusFilter(todos: seq<Todo>, status: string, x: Todo)
    requires status != All
    ensures x in FilterTodos(todos, Unfiltered.(status := status)) <==>
      x in todos && (x.completed <==> status == Completed)
  {
    FilterMembership(todos, Unfiltered.(status := status), x);
    assert [] <= Lower(x.title);
  }

  /** Selecting a priority keeps exactly the records of that priority. */
  lemma {:induction false} PriorityFilter(todos: seq<Todo>, p: Priority, x: Todo)
    ensures x in FilterTodos(todos, Unfiltered.(priority := PriorityName(p))) <==>
      x in todos && x.priority == p
  {
    FilterMembership(todos, Unfiltered.(priority := PriorityName(p)), x);
    PriorityNameInjective(x.priority, p);
    assert [] <= Lower(x.title);
  }

  /** Selecting a category keeps exactly the records of that category. */
  lemma {:induction false} CategoryFilter(todos: seq<Todo>, c: Category, x: Todo)
    ensures x in FilterTodos(todos, Unfiltered.(category := CategoryName(c))) <==>
      x in todos && x.category == c
  {
    FilterMembership(todos, Unfiltered.(category := CategoryName(c)), x);
    CategoryNameInjective(x.category, c);
    assert [] <= Lower(x.title);
  }

  /** A priority or category value that names no enumeration member (and is not `all`) hides everything. */
  lemma {:induction false} UnknownSelectionHidesAll(todos: seq<Todo>, f: Filters)
    requires (f.priority != All && forall p: Priority :: PriorityName(p) != f.priority)
          || (f.category != All && forall c: Category :: CategoryName(c) != f.category)
    ensures FilterTodos(todos, f) == []
  {
    forall i | 0 <= i < |todos| ensures !Keep(todos[i], f) {
      assert !MatchesPriority(todos[i], f.priority) || !MatchesCategory(todos[i], f.category);
    }
    FilterDropsFailing(todos, f);
  }

  /** A query whose first character is missing from a text is not found in it. */
  lemma {:induction false} MissingFirstCharNotIncluded(s: string, q: string)
    requires q != [] && q[0] !in s
    ensures !Includes(s, q)
    decreases |s|
  {
    if s != [] {
      assert s[0] != q[0];
      MissingFirstCharNotIncluded(s[1..], q);
    }
  }

  /** The first record of the worked example: an open, low-priority shopping item "Buy milk". */
  predicate IsBuyMilk(t: Todo)
  {
    t.title == "Buy milk" && t.description == None && !t.completed && t.priority == Low && t.category == Shopping
  }

  /** The second record of the worked example: a completed, high-priority work item "Write report". */
  predicate IsWriteReport(t: Todo)
  {
    t.title == "Write report" && t.description == None && t.completed && t.priority == High && t.category == Work
  }

  /** In the worked example, searching "milk" shows only "Buy milk". */
  lemma {:induction false} ExampleSearch(milk: Todo, report: Todo, search: string)
    requires IsBuyMilk(milk) && IsWriteReport(report) && search == "milk"
    ensures FilterTodos([milk, report], Unfiltered.(search := search)) == [milk]
  {
    var title, q := Lower(milk.title), Lower(search);
    forall k | 0 <= k < 4 ensures title[4 + k] == q[k] {
      LowerAt(milk.title, 4 + k);
      LowerAt(search, k);
      assert milk.title[4 + k] == search[k];
    }
    assert title[4..8] == q;
    assert OccursAt(title, q, 4);
    IncludesIffOccurs(title, q);
    var other := Lower(report.title);
    forall i | 0 <= i < |other| ensures other[i] != 'm' {
      LowerAt(report.title, i);
      assert report.title[i] != 'm' && report.title[i] != 'M';
    }
    LowerAt(search, 0);
    MissingFirstCharNotIncluded(other, q);
    var f := Unfiltered.(search := search);
    assert Keep(milk, f) && !Keep(report, f);
    assert [milk, report][1..] == [report];
  }

  /** In the worked example, the completed tab and the "high" priority each show only "Write report". */
  lemma {:induction false} ExampleStatusAndPriority(milk: Todo, report: Todo)
    requires IsBuyMilk(milk) && IsWriteReport(report)
    ensures FilterTodos([milk, report], Unfiltered.(status := Completed)) == [report]
    ensures FilterTodos([milk, report], Unfiltered.(priority := "high")) == [report]
  {
    assert [] <= Lower(milk.title) && [] <= Lower(report.title);
  }

  // ---------------------------------------------------------------------
  // The list or the empty state
  // ---------------------------------------------------------------------

  const TryAdjusting := "Try adjusting your filters"
  const CreateFirst := "Create your first todo to get started!"

  /** What the list area shows: one row per shown record, or the empty state. */
  datatype ListView = Rows(rows: seq<TodoItem.Row>) | EmptyState(message: string, addFirstButton: bool)

  /** The list area for the filtered records under filter inputs `f`. */
  function Content(filtered: seq<Todo>, f: Filters): (v: ListView)
    ensures v.EmptyState? <==> filtered == []
    ensures v.Rows? ==> |v.rows| == |filtered|
    ensures v.Rows? ==> forall i :: 0 <= i < |filtered| ==> v.rows[i] == TodoItem.Render(filtered[i])
  {
    if |filtered| == 0 then
      EmptyState(
        if f.search != "" || f.priority != All || f.category != All then TryAdjusting else CreateFirst,
        f.search == "" && f.priority == All && f.category == All)
    else
      Rows(seq(|filtered|, i requires 0 <= i < |filtered| => TodoItem.Render(filtered[i])))
  }

  /**
   * The empty state suggests adjusting the filters exactly when a search,
   * priority or category is set, and offers the add-first button exactly
   * when it does not.
   */
  lemma {:induction false} EmptyStateChoice(f: Filters)
    ensures var v := Content([], f);
      && (v.message == TryAdjusting <==> f.search != "" || f.priority != All || f.category != All)
      && (v.message == TryAdjusting || v.message == CreateFirst)
      && (v.addFirstButton <==> v.message == CreateFirst)
  {
    assert |TryAdjusting| != |CreateFirst|;
  }

  /** The status filter plays no part in the empty state. */
  lemma EmptyStateIgnoresStatus(f: Filters, status: string)
    ensures Content([], f) == Content([], f.(status := status))
  {
  }

  /** With status `all`, the add-first button appears only when there are no records at all. */
  lemma {:induction false} AddFirstButtonMeansNoRecords(todos: seq<Todo>, f: Filters)
    requires f.status == All
    requires Content(FilterTodos(todos, f), f) == EmptyState(CreateFirst, true)
    ensures todos == []
  {
    assert f == Unfiltered;
    UnfilteredKeepsAll(todos);
  }

  /** Under another status the button can appear although records exist. */
  lemma {:induction false} AddFirstButtonDespiteRecords(t: Todo)
    requires !t.completed
    ensures Content(FilterTodos([t], Unfiltered.(status := Completed)), Unfiltered.(status := Completed))
            == EmptyState(CreateFirst, true)
  {
    assert !Keep(t, Unfiltered.(status := Completed));
  }

  // ---------------------------------------------------------------------
  // Requests and the save dispatch
  // ---------------------------------------------------------------------

  /** A request sent to the backend's `todos` table. */
  datatype Request =
    | Insert(draft: Draft, userId: string)
    | UpdateFields(id: string, draft: Draft)
    | SetCompleted(id: string, completed: bool)
    | Delete(id: string)

  /** The handler the dialog's `onSave` is bound to. */
  datatype SaveRoute = CreateRoute | UpdateRoute(target: Todo)

  /** `editTodo ? handleUpdateTodo : handleCreateTodo` */
  function SaveRouteFor(editTodo: Option<Todo>): (r: SaveRoute)
    ensures r.UpdateRoute? <==> editTodo.Some?
    ensures r.UpdateRoute? ==> r.target == editTodo.value
  {
    match editTodo
    case Some(t) => UpdateRoute(t)
    case None => CreateRoute
  }

  /** `handleCreateTodo`: without a signed-in user nothing is sent; otherwise an insert owned by that user. */
  function CreateRequest(user: Option<string>, d: Draft): (r: Option<Request>)
    ensures r.Some? <==> user.Some?
    ensures r.Some? ==> r.value.Insert? && r.value.draft == d && r.value.userId == user.value
  {
    match user
    case Some(u) => Some(Insert(d, u))
    case None => None
  }

  /** `handleUpdateTodo`: without an edit target nothing is sent; otherwise all draft fields for its id. */
  function UpdateRequest(editTodo: Option<Todo>, d: Draft): (r: Option<Request>)
    ensures r.Some? <==> editTodo.Some?
    ensures r.Some? ==> r.value.UpdateFields? && r.value.id == editTodo.value.id && r.value.draft == d
  {
    match editTodo
    case Some(t) => Some(UpdateFields(t.id, d))
    case None => None
  }

  /** The request a row callback leads to: toggle and delete send one, edit sends none. */
  function RowRequest(e: TodoItem.Event): (r: Option<Request>)
    ensures r.Some? <==> !e.OnEdit?
    ensures e.OnToggle? ==> r == Some(SetCompleted(e.id, e.completed))
    ensures e.OnDelete? ==> r == Some(Delete(e.id))
  {
    match e
    case OnToggle(id, completed) => Some(SetCompleted(id, completed))
    case OnDelete(id) => Some(Delete(id))
    case OnEdit(_) => None
  }

  /** The update route is taken only with a target, so its early return never fires. */
  lemma {:induction false} UpdateRouteAlwaysSends(editTodo: Option<Todo>, d: Draft)
    requires SaveRouteFor(editTodo).UpdateRoute?
    ensures UpdateRequest(editTodo, d) == Some(UpdateFields(SaveRouteFor(editTodo).target.id, d))
  {
  }

  /** Every request a row sends names the record of that row. */
  lemma {:induction false} RowRequestsNameTheirRecord(t: Todo, a: TodoItem.Action)
    ensures var r := RowRequest(TodoItem.Callback(t, a));
      r.Some? ==> (r.value.SetCompleted? || r.value.Delete?) && r.value.id == t.id
  {
  }

  // ---------------------------------------------------------------------
  // The page state
  // ---------------------------------------------------------------------

  /** The state of the page component that its handlers change. */
  class Page {
    var todos: seq<Todo>
    var searchQuery: string
    var filterPriority: string
    var filterCategory: string
    var filterStatus: string
    var dialogOpen: bool
    var editTodo: Option<Todo>
    /**
     * Until the first fetch settles the page draws only a spinner, so no
     * input, button, row or dialog exists and no handler below can run.
     */
    var loading: bool

    /** The initial `useState` values: no records yet, and the spinner showing. */
    constructor ()
      ensures todos == [] && CurrentFilters() == Unfiltered
      ensures !dialogOpen && editTodo == None && loading
    {
      todos := [];
      searchQuery, filterPriority, filterCategory, filterStatus := "", All, All, All;
      dialogOpen, editTodo, loading := false, None, true;
    }

    function CurrentFilters(): Filters
      reads this
    {
      Filters(searchQuery, filterPriority, filterCategory, filterStatus)
    }

    /** What the list area shows now. */
    function View(): ListView
      reads this
    {
      Content(FilterTodos(todos, CurrentFilters()), CurrentFilters())
    }

    /** The "Add Your First Todo" button is on screen: the spinner is gone and the empty state offers it. */
    predicate AddFirstShown()
      reads this
    {
      !loading && View().EmptyState? && View().addFirstButton
    }

    /** A successful fetch hands over the rows (`null` counts as none) and ends the spinner. */
    method ReceiveTodos(data: Option<seq<Todo>>)
      modifies this
      ensures todos == (if data.Some? then data.value else [])
      ensures !loading
      ensures CurrentFilters() == old(CurrentFilters())
      ensures dialogOpen == old(dialogOpen) && editTodo == old(editTodo)
    {
      todos := if data.Some? then data.value else [];
      loading := false;
    }

    /** A failed fetch keeps the rows it had and still ends the spinner. */
    method FetchFailed()
      modifies this
      ensures !loading && todos == old(todos)
      ensures CurrentFilters() == old(CurrentFilters())
      ensures dialogOpen == old(dialogOpen) && editTodo == old(editTodo)
    {
      loading := false;
    }

    method SetSearchQuery(q: string)
      requires !loading
      modifies this
      ensures CurrentFilters() == old(CurrentFilters()).(search := q)
      ensures todos == old(todos) && dialogOpen == old(dialogOpen) && editTodo == old(editTodo) && !loading
    {
      searchQuery := q;
    }

    method SetFilterPriority(p: string)
      requires !loading
      modifies this
      ensures CurrentFilters() == old(CurrentFilters()).(priority := p)
      ensures todos == old(todos) && dialogOpen == old(dialogOpen) && editTodo == old(editTodo) && !loading
    {
      filterPriority := p;
    }

    method SetFilterCategory(c: string)
      requires !loading
      modifies this
      ensures CurrentFilters() == old(CurrentFilters()).(category := c)
      ensures todos == old(todos) && dialogOpen == old(dialogOpen) && editTodo == old(editTodo) && !loading
    {
      filterCategory := c;
    }

    method SetFilterStatus(s: string)
      requires !loading
      modifies this
      ensures CurrentFilters() == old(CurrentFilters()).(status := s)
      ensures todos == old(todos) && dialogOpen == old(dialogOpen) && editTodo == old(editTodo) && !loading
    {
      filterStatus := s;
    }

    /** The header's "Add Todo" button: forget any edit target and open the dialog, so a save creates. */
    method AddTodo()
      requires !loading
      modifies this
      ensures dialogOpen && editTodo == None
      ensures SaveRouteFor(editTodo) == CreateRoute
      ensures todos == old(todos) && CurrentFilters() == old(CurrentFilters()) && !loading
    {
      editTodo := None;
      dialogOpen := true;
    }

    /** The empty state's "Add Your First Todo" button as written: it only opens the dialog. */
    method AddFirstTodo()
      requires AddFirstShown()
      modifies this
      ensures dialogOpen && editTodo == old(editTodo)
      ensures todos == old(todos) && CurrentFilters() == old(CurrentFilters()) && !loading
    {
      dialogOpen := true;
    }

    /** "Add Your First Todo" doing what its label says: open the dialog for a new record. */
    method AddFirstTodoCorrected()
      requires AddFirstShown()
      modifies this
      ensures dialogOpen && editTodo == None
      ensures SaveRouteFor(editTodo) == CreateRoute
      ensures todos == old(todos) && CurrentFilters() == old(CurrentFilters()) && !loading
    {
      editTodo := None;
      dialogOpen := true;
    }

    /** The dialog's `onOpenChange`: opening or closing leaves the edit target alone. */
    method SetDialogOpen(open: bool)
      requires !loading
      modifies this
      ensures dialogOpen == open && editTodo == old(editTodo)
      ensures todos == old(todos) && CurrentFilters() == old(CurrentFilters()) && !loading
    {
      dialogOpen := open;
    }

    /**
     * A row callback: edit makes that record the target and opens the
     * dialog; toggle and delete send their request and change no page state.
     */
    method OnRowEvent(e: TodoItem.Event) returns (req: Option<Request>)
      requires !loading
      modifies this
      ensures req == RowRequest(e)
      ensures e.OnEdit? ==> dialogOpen && editTodo == Some(e.todo) && SaveRouteFor(editTodo) == UpdateRoute(e.todo)
      ensures !e.OnEdit? ==> dialogOpen == old(dialogOpen) && editTodo == old(editTodo)
      ensures todos == old(todos) && CurrentFilters() == old(CurrentFilters()) && !loading
    {
      req := RowRequest(e);
      if e.OnEdit? {
        editTodo := Some(e.todo);
        dialogOpen := true;
      }
    }

    /**
     * The dialog's `onSave` with draft `d`, signed-in user `user` and the
     * backend's answer `success`: with an edit target the draft updates that
     * record and a successful update forgets the target; without one the
     * draft is inserted for the user.
     */
    method Save(d: Draft, user: Option<string>, success: bool) returns (req: Option<Request>)
      requires !loading
      modifies this
      ensures old(editTodo).Some? ==> req == Some(UpdateFields(old(editTodo).value.id, d))
      ensures old(editTodo).None? ==> req == CreateRequest(user, d)
      ensures editTodo == if old(editTodo).Some? && success then None else old(editTodo)
      ensures todos == old(todos) && CurrentFilters() == old(CurrentFilters()) && dialogOpen == old(dialogOpen) && !loading
    {
      match SaveRouteFor(editTodo)
      case CreateRoute =>
        req := CreateRequest(user, d);
      case UpdateRoute(_) =>
        req := UpdateRequest(editTodo, d);
        if success {
          editTodo := None;
        }
    }
  }

  /**
   * Edit an open record, close the dialog without saving, switch to the
   * completed tab (now empty) and press "Add Your First Todo": the save
   * overwrites the record that was being edited instead of creating one.
   */
  method EditThenAddFirst(x: Todo, d: Draft, user: string) returns (req: Option<Request>)
    requires !x.completed
    ensures req == Some(UpdateFields(x.id, d))
  {
    var page := new Page();
    page.ReceiveTodos(Some([x]));
    var _ := page.OnRowEvent(TodoItem.Callback(x, TodoItem.EditClick));
    page.SetDialogOpen(false);
    page.SetFilterStatus(Completed);
    assert !Keep(x, page.CurrentFilters());
    page.AddFirstTodo();
    req := page.Save(d, Some(user), true);
  }

  /** The same steps with the corrected button create a record owned by the user. */
  method EditThenAddFirstCorrected(x: Todo, d: Draft, user: string) returns (req: Option<Request>)
    requires !x.completed
    ensures req == Some(Insert(d, user))
  {
    var page := new Page();
    page.ReceiveTodos(Some([x]));
    var _ := page.OnRowEvent(TodoItem.Callback(x, TodoItem.EditClick));
    page.SetDialogOpen(false);
    page.SetFilterStatus(Completed);
    assert !Keep(x, page.CurrentFilters());
    page.AddFirstTodoCorrected();
    req := page.Save(d, Some(user), true);
  }
}
