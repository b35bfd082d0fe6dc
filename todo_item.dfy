/**
 * The row component: a stateless mapping from one record to what its row
 * shows (border accent, struck-through styling, badges, which optional
 * elements appear) and to the arguments its three callbacks receive.
 */
module TodoItem {
  import opened TodoModel

  /**
   * A `className` attribute as the list of its space-separated classes; the
   * spacing inside the source's template strings is not modelled.
   */
  type ClassList = seq<string>

  /** `priorityColors`: the badge classes for each priority. */
  function PriorityColors(p: Priority): (cls: ClassList)
  {
    match p
    case Low => ["bg-success/10", "text-success", "border-success/20"]
    case Medium => ["bg-warning/10", "text-warning", "border-warning/20"]
    case High => ["bg-destructive/10", "text-destructive", "border-destructive/20"]
  }

  /** `categoryColors`: the badge classes for each category. */
  function CategoryColors(c: Category): (cls: ClassList)
  {
    match c
    case Personal => ["bg-primary/10", "text-primary", "border-primary/20"]
    case Work => ["bg-accent/10", "text-accent", "border-accent/20"]
    case Shopping => ["bg-chart-3/10", "text-chart-3", "border-chart-3/20"]
    case Health => ["bg-chart-4/10", "text-chart-4", "border-chart-4/20"]
    case Other => ["bg-muted", "text-muted-foreground", "border-border"]
  }

  /**
   * The theme colour of the left border, chosen by the nested ternary on the
   * priority; the style applied is `hsl(var(--<token>))`.
   */
  function BorderAccent(p: Priority): (token: string)
  {
    if p == High then "destructive" else if p == Medium then "warning" else "success"
  }

  /** The classes that strike a completed record through and mute it. */
  const StruckThrough: ClassList := ["line-through", "text-muted-foreground"]

  /** The classes of the title heading. */
  function TitleClass(completed: bool): ClassList
  {
    ["font-semibold"] + (if completed then StruckThrough else [])
  }

  /** The classes of the description paragraph. */
  function DescriptionClass(completed: bool): ClassList
  {
    ["text-sm", "mt-1"] + (if completed then StruckThrough else ["text-muted-foreground"])
  }

  datatype Badge = Badge(text: string, className: ClassList)

  datatype Paragraph = Paragraph(text: string, className: ClassList)

  /**
   * What one row shows. `dueDate` is the raw date string of the due-date
   * badge; its `MMM dd, yyyy` formatting is not modelled.
   */
  datatype Row = Row(
    borderAccent: string,
    checked: bool,
    title: string,
    titleClass: ClassList,
    description: Option<Paragraph>,
    priorityBadge: Badge,
    categoryBadge: Badge,
    dueDate: Option<string>)

  /** The row for record `t`. */
  function Render(t: Todo): (row: Row)
    ensures row.checked == t.completed && row.title == t.title
    ensures row.priorityBadge.text == PriorityName(t.priority)
    ensures row.categoryBadge.text == CategoryName(t.category)
    ensures row.priorityBadge.className == PriorityColors(t.priority)
    ensures row.categoryBadge.className == CategoryColors(t.category)
    ensures row.description.Some? <==> Truthy(t.description)
    ensures row.description.Some? ==> row.description.value.text == t.description.value
    ensures row.dueDate.Some? <==> Truthy(t.dueDate)
    ensures row.dueDate.Some? ==> row.dueDate.value == t.dueDate.value
  {
    Row(
      BorderAccent(t.priority),
      t.completed,
      t.title,
      TitleClass(t.completed),
      if Truthy(t.description) then Some(Paragraph(t.description.value, DescriptionClass(t.completed))) else None,
      Badge(PriorityName(t.priority), PriorityColors(t.priority)),
      Badge(CategoryName(t.category), CategoryColors(t.category)),
      if Truthy(t.dueDate) then Some(t.dueDate.value) else None)
  }

  /** High gets the destructive accent, medium the warning one, and low the success one. */
  lemma BorderAccentByPriority(t: Todo)
    ensures Render(t).borderAccent == "destructive" <==> t.priority == High
    ensures Render(t).borderAccent == "warning" <==> t.priority == Medium
    ensures Render(t).borderAccent == "success" <==> t.priority == Low
  {
    assert "success"[0] != "warning"[0];
  }

  /** The border accent is the colour the priority badge is drawn in. */
  lemma AccentIsPriorityBadgeColour(p: Priority)
    ensures var a := BorderAccent(p);
      PriorityColors(p) == ["bg-" + a + "/10", "text-" + a, "border-" + a + "/20"]
  {
    var a, cls := BorderAccent(p), PriorityColors(p);
    assert cls[0] == "bg-" + a + "/10";
    assert cls[1] == "text-" + a;
    assert cls[2] == "border-" + a + "/20";
  }

  /** The three priority badges have three different classes. */
  lemma PriorityColorsDistinct(p: Priority, q: Priority)
    ensures PriorityColors(p) == PriorityColors(q) <==> p == q
  {
    if p != q {
      assert PriorityColors(p)[0][3] != PriorityColors(q)[0][3];
    }
  }

  /** The five category badges have five different classes. */
  lemma CategoryColorsDistinct(c: Category, d: Category)
    ensures CategoryColors(c) == CategoryColors(d) <==> c == d
  {
    if c != d {
      var a, b := CategoryColors(c)[0], CategoryColors(d)[0];
      assert a[3] != b[3] || a[9] != b[9];
    }
  }

  /**
   * The badge colours alone tell records apart: two rows draw their priority
   * badges in the same classes exactly when the records have the same
   * priority, and likewise for the category badges.
   */
  lemma {:induction false} BadgesIdentifyFields(t: Todo, u: Todo)
    ensures Render(t).priorityBadge.className == Render(u).priorityBadge.className <==> t.priority == u.priority
    ensures Render(t).categoryBadge.className == Render(u).categoryBadge.className <==> t.category == u.category
  {
    PriorityColorsDistinct(t.priority, u.priority);
    CategoryColorsDistinct(t.category, u.category);
  }

  /** The title is struck through and muted exactly when the record is completed. */
  lemma TitleStruckIffCompleted(t: Todo)
    ensures "line-through" in Render(t).titleClass <==> t.completed
    ensures "text-muted-foreground" in Render(t).titleClass <==> t.completed
  {
  }

  /**
   * A description is shown only when it is non-empty; it is always muted,
   * and struck through exactly when the record is completed.
   */
  lemma DescriptionStruckIffCompleted(t: Todo)
    requires Render(t).description.Some?
    ensures t.description.Some? && t.description.value != ""
    ensures "text-muted-foreground" in Render(t).description.value.className
    ensures "line-through" in Render(t).description.value.className <==> t.completed
  {
  }

  /** A user action on a row. */
  datatype Action = CheckedChange(checked: bool) | EditClick | DeleteClick

  /** A callback invocation with its arguments: `onToggle`, `onDelete`, `onEdit`. */
  datatype Event = OnToggle(id: string, completed: bool) | OnDelete(id: string) | OnEdit(todo: Todo)

  /** The callback an action on the row of `t` invokes. */
  function Callback(t: Todo, a: Action): (e: Event)
    ensures a.CheckedChange? <==> e.OnToggle?
    ensures a.DeleteClick? <==> e.OnDelete?
    ensures a.EditClick? <==> e.OnEdit?
    ensures e.OnToggle? ==> e.id == t.id && e.completed == a.checked
    ensures e.OnDelete? ==> e.id == t.id
    ensures e.OnEdit? ==> e.todo == t
  {
    match a
    case CheckedChange(checked) => OnToggle(t.id, checked)
    case DeleteClick => OnDelete(t.id)
    case EditClick => OnEdit(t)
  }

  /**
   * Clicking the checkbox flips the shown value; once the record reflects
   * that flip, clicking again asks for the original value. This pins down
   * only the argument the checkbox passes to `onToggle`; what the backend
   * stores in between is not part of the row.
   */
  lemma {:induction false} ToggleTwiceRestores(t: Todo)
    ensures var first := Callback(t, CheckedChange(!Render(t).checked));
      var t' := t.(completed := first.completed);
      Callback(t', CheckedChange(!Render(t').checked)) == OnToggle(t.id, t.completed)
  {
  }
}
