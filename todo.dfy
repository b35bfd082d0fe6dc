/**
 * The to-do record that the list page and the row component share, the
 * string names of its two enumerations, and the draft the editor dialog
 * hands back on save.
 */
module TodoModel {

  /** A nullable value (`T | null` in the source). */
  datatype Option<+T> = None | Some(value: T)

  /** `"low" | "medium" | "high"` */
  datatype Priority = Low | Medium | High

  /** `"personal" | "work" | "shopping" | "health" | "other"` */
  datatype Category = Personal | Work | Shopping | Health | Other

  /** The string a record stores for its priority; it is also the badge label. */
  function PriorityName(p: Priority): (name: string)
    ensures name != "all"
  {
    match p
    case Low => "low"
    case Medium => "medium"
    case High => "high"
  }

  /** The string a record stores for its category; it is also the badge label. */
  function CategoryName(c: Category): (name: string)
    ensures name != "all"
  {
    match c
    case Personal => "personal"
    case Work => "work"
    case Shopping => "shopping"
    case Health => "health"
    case Other => "other"
  }

  /** Different priorities are stored under different names. */
  lemma PriorityNameInjective(p: Priority, q: Priority)
    ensures PriorityName(p) == PriorityName(q) <==> p == q
  {
  }

  /** Different categories are stored under different names. */
  lemma CategoryNameInjective(c: Category, d: Category)
    ensures CategoryName(c) == CategoryName(d) <==> c == d
  {
  }

  /** One to-do row of the `todos` table. */
  datatype Todo = Todo(
    id: string,
    title: string,
    description: Option<string>,
    completed: bool,
    priority: Priority,
    category: Category,
    dueDate: Option<string>,
    userId: string,
    createdAt: string,
    updatedAt: string)

  /** What the editor dialog saves: a record without id, owner, completion flag and timestamps. */
  datatype Draft = Draft(
    title: string,
    description: Option<string>,
    priority: Priority,
    category: Category,
    dueDate: Option<string>)

  /** JavaScript truthiness of a `string | null`: neither null nor the empty string. */
  predicate Truthy(s: Option<string>)
  {
    s.Some? && s.value != ""
  }
}
