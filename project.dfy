/** A project: a fixed title and description and an ordered list of todos that
    the project appends to and filters in place (src/projectFactory.js). */
module ProjectFactory {
  import opened TodoFactory

  /** The identifier a project receives at creation (a millisecond timestamp
      in the app). */
  type ProjectId = int

  /** An argument that may be left out of a call (`undefined` in the app). */
  datatype Option<T> = None | Some(value: T)

  /** An exception raised by the app's code. */
  datatype Thrown = ReferenceError(name: string)

  /** The outcome of a call that either returns a value or throws. */
  datatype Result<T> = Ok(value: T) | Throws(error: Thrown)

  /** The description parameter's default: a missing description is "". */
  function DescriptionOrDefault(description: Option<string>): (r: string)
    ensures description.Some? ==> r == description.value
    ensures description.None? ==> r == ""
  {
    match description
    case Some(text) => text
    case None => ""
  }

  /** The list `todos.filter(todo => todo.id !== todoId)` produces: the todos
      whose identifier differs from `todoId`, in their original order. */
  function Without(todos: seq<Todo>, todoId: TodoId): (r: seq<Todo>)
    ensures |r| <= |todos|
  {
    if todos == [] then []
    else if todos[0].id != todoId then [todos[0]] + Without(todos[1..], todoId)
    else Without(todos[1..], todoId)
  }

  /** `removeTodo` as written: its parameter is `todosId` but the filter's
      callback reads `todoId`, a name declared nowhere. The callback only runs
      when the list has an element, so an empty list filters to an empty list,
      and any other list throws before `todos` is reassigned. */
  function FilterAsWritten(todos: seq<Todo>, todosId: TodoId): (r: Result<seq<Todo>>)
    ensures r.Ok? <==> todos == []
    ensures r.Ok? ==> r.value == todos
    ensures r.Throws? ==> r.error == ReferenceError("todoId")
  {
    if todos == [] then Ok([]) else Throws(ReferenceError("todoId"))
  }

  /** The as-written `removeTodo` does what the filter is meant to do only on
      an empty list; on every other list it throws instead. */
  lemma {:induction false} AsWrittenAgreesOnlyWhenEmpty(todos: seq<Todo>, todoId: TodoId)
    ensures FilterAsWritten(todos, todoId) == Ok(Without(todos, todoId)) <==> todos == []
  {
  }

  /** A todo is kept exactly when it was in the list and its identifier
      differs from the one removed. */
  lemma {:induction false} WithoutMembers(todos: seq<Todo>, todoId: TodoId)
    ensures forall t :: t in Without(todos, todoId) ==> t in todos && t.id != todoId
    ensures forall t :: t in todos && t.id != todoId ==> t in Without(todos, todoId)
    decreases |todos|
  {
    if todos != [] {
      WithoutMembers(todos[1..], todoId);
      assert todos == [todos[0]] + todos[1..];
    }
  }

  /** Filtering a concatenation filters each part and keeps them in order;
      with the single-todo case below this determines the filter entirely. */
  lemma {:induction false} WithoutConcat(a: seq<Todo>, b: seq<Todo>, todoId: TodoId)
    ensures Without(a + b, todoId) == Without(a, todoId) + Without(b, todoId)
    decreases |a|
  {
    if a == [] {
      assert a + b == b;
    } else {
      assert (a + b)[0] == a[0];
      assert (a + b)[1..] == a[1..] + b;
      WithoutConcat(a[1..], b, todoId);
    }
  }

  /** A single todo is kept exactly when its identifier differs. */
  lemma WithoutSingle(t: Todo, todoId: TodoId)
    ensures Without([t], todoId) == if t.id != todoId then [t] else []
  {
    assert [t][1..] == [];
  }

  /** Removing an identifier no todo carries leaves the list unchanged, and
      only then: if the list is unchanged, no todo carried it. */
  lemma {:induction false} WithoutAbsent(todos: seq<Todo>, todoId: TodoId)
    ensures Without(todos, todoId) == todos <==> forall k :: 0 <= k < |todos| ==> todos[k].id != todoId
    decreases |todos|
  {
    if todos != [] {
      WithoutAbsent(todos[1..], todoId);
      if todos[0].id == todoId {
        assert |Without(todos[1..], todoId)| <= |todos[1..]| < |todos|;
      } else {
        assert todos == [todos[0]] + todos[1..];
        forall k | 0 < k < |todos|
          ensures todos[k] == todos[1..][k - 1]
        {
        }
      }
    }
  }

  /** The list shrinks strictly exactly when some todo carries the identifier. */
  lemma {:induction false} WithoutShrinks(todos: seq<Todo>, todoId: TodoId)
    ensures |Without(todos, todoId)| < |todos| <==> exists k :: 0 <= k < |todos| && todos[k].id == todoId
    decreases |todos|
  {
    if todos != [] {
      WithoutShrinks(todos[1..], todoId);
      if todos[0].id != todoId {
        forall k | 0 < k < |todos|
          ensures todos[k] == todos[1..][k - 1]
        {
        }
        if exists k :: 0 <= k < |todos[1..]| && todos[1..][k].id == todoId {
          var k :| 0 <= k < |todos[1..]| && todos[1..][k].id == todoId;
          assert todos[k + 1].id == todoId;
        }
      }
    }
  }

  /** Removing twice is removing once. */
  lemma {:induction false} WithoutIdempotent(todos: seq<Todo>, todoId: TodoId)
    ensures Without(Without(todos, todoId), todoId) == Without(todos, todoId)
  {
    var r := Without(todos, todoId);
    WithoutMembers(todos, todoId);
    forall k | 0 <= k < |r|
      ensures r[k].id != todoId
    {
      assert r[k] in Without(todos, todoId);
    }
    WithoutAbsent(r, todoId);
  }

  /** Adding a todo whose identifier is new to the list and then removing that
      identifier gives back the list. */
  lemma AddThenRemove(todos: seq<Todo>, t: Todo)
    requires forall k :: 0 <= k < |todos| ==> todos[k].id != t.id
    ensures Without(todos + [t], t.id) == todos
  {
    WithoutConcat(todos, [t], t.id);
    WithoutSingle(t, t.id);
    WithoutAbsent(todos, t.id);
  }

  /** A project as the closure of `ProjectFactory` holds it: identifier, title
      and description are fixed, the todo list is replaced or appended to. */
  class Project {
    const id: ProjectId
    const title: string
    const description: string
    var todos: seq<Todo>

    /** `ProjectFactory(title, description)`; the identifier the factory takes
        from the clock is passed in. */
    constructor (id: ProjectId, title: string, description: Option<string>)
      ensures this.id == id && this.title == title
      ensures this.description == DescriptionOrDefault(description)
      ensures todos == []
    {
      this.id := id;
      this.title := title;
      this.description := DescriptionOrDefault(description);
      todos := [];
    }

    /** The title given at construction; no operation changes it. */
    function GetTitle(): (r: string)
      ensures r == title
    {
      title
    }

    /** The description fixed at construction; no operation changes it. */
    function GetDescription(): (r: string)
      ensures r == description
    {
      description
    }

    /** A copy of the todo list: a sequence value, so what the caller does
        with it never reaches the project. */
    function GetTodos(): (r: seq<Todo>)
      reads this
      ensures r == todos
    {
      todos
    }

    /** Appends at the end; a todo whose identifier is already present is
        appended all the same. */
    method AddTodo(todoItem: Todo)
      modifies this
      ensures todos == old(todos) + [todoItem]
    {
      todos := todos + [todoItem];
    }

    /** `removeTodo` as it is meant to work: keep the todos whose identifier
        differs from `todoId`. */
    method RemoveTodo(todoId: TodoId)
      modifies this
      ensures todos == Without(old(todos), todoId)
    {
      todos := Without(todos, todoId);
    }

    /** `removeTodo` as written: throws a ReferenceError on every non-empty
        list and never changes the list. */
    method RemoveTodoAsWritten(todosId: TodoId) returns (r: Result<()>)
      modifies this
      ensures r.Ok? <==> FilterAsWritten(old(todos), todosId).Ok?
      ensures r.Throws? ==> r.error == ReferenceError("todoId")
      ensures todos == old(todos)
    {
      var filtered := FilterAsWritten(todos, todosId);
      if filtered.Ok? {
        todos := filtered.value;
        r := Ok(());
      } else {
        r := Throws(filtered.error);
      }
    }
  }
}
