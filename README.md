# Todo list: the Todo and Project entities

A model of the in-memory domain of a browser todo-list app: the todo item made
by `TodoFactory` and the project made by `ProjectFactory`.

- `todo.dfy`, module `TodoFactory`. The todo is the class `Todo`. Its identifier
  is a `const`. Title, description, due date, priority, notes, checklist and
  completion flag are fields that the todo's own methods replace in place.
  `GetDetails()` is the snapshot `getDetails()` returns, a `Details` value. Each
  mutating method is specified against the pure function `Updated` applied to the
  old snapshot. `Update` names the call as a value: `NewTitle`, `FlipComplete`,
  `AppendItem` and so on. `CreatedDefaults` states the creation defaults. The
  lemmas about `Updated` and `Replay` (a sequence of updates) state that each
  setter stores its value and touches no other field, that no update changes
  the identifier, and that the toggles are involutions.
- `project.dfy`, module `ProjectFactory`. The project is the class `Project`.
  Identifier, title and description are `const`s. The todo list is a
  `seq<Todo>` field that `AddTodo` extends and `RemoveTodo` replaces by the
  filtered list `Without(old(todos), id)`. `Without` is characterised by
  lemmas: which todos it keeps, that it keeps their order, that it leaves an
  absent identifier's list unchanged, that it is idempotent, that it never grows
  the list, and that add-then-remove restores the list.

Identifiers are constructor arguments. The app draws a todo's from
`crypto.randomUUID()` and a project's from `Date.now()`. The model assumes
nothing about their uniqueness and proves nothing about it. `AddTodo` accepts a
todo whose identifier is already in the list, as the source does.

The checklist and `getTodos()` results are Dafny sequences, which are values. So
the copy the source makes with `[...array]` is a copy by construction: appending
to or removing from a returned sequence never reaches the entity.
`SnapshotIsDetached` shows one case of the other direction: an entry added later
by `addChecklistItem`, whose `push` changes only the todo's own array, does not
appear in an earlier snapshot. A later `toggleChecklistItem` is different in the
source; see "Left out". `GetTodos()` returns references to the same `Todo`
objects, as the source's shallow copy does.

Three facts about the source shape the model:
- `Project` has no setters for title or description and no `editTodo`
  (src/projectFactory.js:19-26).
- `getDetails()` copies the checklist array but not the items in it
  (src/todoFactory.js:20). See "Left out".
- `removeTodo` throws instead of filtering. See "Findings".

## Model

| member | source | states |
|---|---|---|
| TodoFactory.Todo.constructor | src/todoFactory.js:1-11 | a new todo's snapshot is `Created(id, title, description, dueDate, priority)`: the four given fields, notes "", empty checklist, not complete |
| TodoFactory.CreatedDefaults | src/todoFactory.js:5-11 | the creation state holds the four given fields, empty notes, an empty checklist and `isComplete == false` |
| TodoFactory.Todo.GetDetails | src/todoFactory.js:13-22 | the snapshot's identifier is always the identifier the todo was created with |
| TodoFactory.Todo.SetTitle | src/todoFactory.js:24 | new snapshot is `Updated(old, NewTitle(t))`: the title becomes `t` and every other field is kept |
| TodoFactory.Todo.SetDescription | src/todoFactory.js:25 | new snapshot is `Updated(old, NewDescription(t))`: only the description changes |
| TodoFactory.Todo.SetDueDate | src/todoFactory.js:26 | new snapshot is `Updated(old, NewDueDate(t))`: only the due date changes |
| TodoFactory.Todo.SetPriority | src/todoFactory.js:27 | new snapshot is `Updated(old, NewPriority(t))`: only the priority changes |
| TodoFactory.Todo.SetNotes | src/todoFactory.js:28 | new snapshot is `Updated(old, NewNotes(t))`: only the notes change |
| TodoFactory.Todo.ToggleComplete | src/todoFactory.js:29 | new snapshot is `Updated(old, FlipComplete)`: only the completion flag changes |
| TodoFactory.Todo.AddChecklistItem | src/todoFactory.js:31-33 | new snapshot is `Updated(old, AppendItem(text))`: only the checklist changes |
| TodoFactory.Todo.ToggleChecklistItem | src/todoFactory.js:35-39 | new snapshot is `Updated(old, FlipItem(index))`, for every integer index, with no error for one out of range |
| TodoFactory.SetterStores | src/todoFactory.js:24-28 | each of the five setters replaces its own field by the argument and leaves the rest of the snapshot equal |
| TodoFactory.OnlyOwnField | src/todoFactory.js:24-39 | no update changes the identifier; a field that changes is the one field the update is for (checklist: only the two checklist operations) |
| TodoFactory.ReplayKeepsId | src/todoFactory.js:3-14 | after any sequence of updates the snapshot's identifier is the creation identifier |
| TodoFactory.FlipCompleteTwice | src/todoFactory.js:29 | toggling negates the completion flag, and toggling twice gives back the same snapshot |
| TodoFactory.AppendItemEffect | src/todoFactory.js:31-33 | the checklist grows by one, the new last entry is `{text, false}`, and the earlier entries are unchanged |
| TodoFactory.FlipItemEffect | src/todoFactory.js:35-39 | an index inside the checklist negates only that entry's flag and keeps its text and every other entry; any other index leaves the snapshot unchanged |
| TodoFactory.FlipItemTwice | src/todoFactory.js:35-39 | toggling the same entry twice gives back the same snapshot, for every index |
| TodoFactory.SnapshotIsDetached | src/todoFactory.js:20 | a snapshot taken before `addChecklistItem` keeps the old checklist while the todo's checklist gains the entry |
| ProjectFactory.DescriptionOrDefault | src/projectFactory.js:1 | an omitted description is "", and a given one is kept as it is |
| ProjectFactory.Project.constructor | src/projectFactory.js:1-5 | a new project has the given identifier and title, the description or "", and no todos |
| ProjectFactory.Project.GetTitle | src/projectFactory.js:7 | returns the title fixed at construction; it is a `const`, so no operation changes it |
| ProjectFactory.Project.GetDescription | src/projectFactory.js:8 | returns the description fixed at construction; it is a `const`, so no operation changes it |
| ProjectFactory.Project.GetTodos | src/projectFactory.js:9 | returns a sequence equal to the todo list |
| ProjectFactory.Project.AddTodo | src/projectFactory.js:11-13 | the list becomes the old list with the todo appended at the end, with no check for a duplicate identifier |
| ProjectFactory.Project.RemoveTodo | src/projectFactory.js:15-17 | intended behaviour: the list becomes `Without(old list, id)` |
| ProjectFactory.Project.RemoveTodoAsWritten | src/projectFactory.js:15-17 | behaviour as written: succeeds exactly on an empty list, otherwise throws ReferenceError("todoId"); the list never changes |
| ProjectFactory.FilterAsWritten | src/projectFactory.js:15-16 | the as-written filter returns the empty list unchanged and throws ReferenceError("todoId") on every non-empty list |
| ProjectFactory.AsWrittenAgreesOnlyWhenEmpty | src/projectFactory.js:15-16 | the as-written removal equals the intended filter exactly when the list is empty |
| ProjectFactory.Without | src/projectFactory.js:16 | the filtered list is never longer than the list |
| ProjectFactory.WithoutMembers | src/projectFactory.js:16 | a todo is in the result if and only if it is in the list and its identifier differs from the removed one |
| ProjectFactory.WithoutConcat | src/projectFactory.js:16 | filtering `a + b` is filtering `a` followed by filtering `b`, so the kept todos keep their order |
| ProjectFactory.WithoutSingle | src/projectFactory.js:16 | a one-todo list is kept exactly when the todo's identifier differs |
| ProjectFactory.WithoutAbsent | src/projectFactory.js:16 | removal leaves the list unchanged if and only if no todo in it carries the identifier |
| ProjectFactory.WithoutShrinks | src/projectFactory.js:16 | the list gets strictly shorter if and only if some todo carries the identifier |
| ProjectFactory.WithoutIdempotent | src/projectFactory.js:16 | removing the same identifier twice equals removing it once |
| ProjectFactory.AddThenRemove | src/projectFactory.js:11-16 | appending a todo whose identifier is new to the list and then removing that identifier gives back the list |

## Findings

| source | as written | input that shows it | evidently intended | confidence | as-written member | corrected member |
|---|---|---|---|---|---|---|
| src/projectFactory.js:15-16 | `removeTodo` names its parameter `todosId` while its filter callback reads `todoId`, which is declared nowhere in the module | any project holding at least one todo, `removeTodo(x)` for any `x`: the callback's first run throws ReferenceError and `todos` is not reassigned. The caller at src/ui.js:123 expects filter-by-id | keep exactly the todos whose `id` differs from the argument, in order | high; not executed | ProjectFactory.Project.RemoveTodoAsWritten, ProjectFactory.AsWrittenAgreesOnlyWhenEmpty | ProjectFactory.Project.RemoveTodo, ProjectFactory.WithoutMembers |

## Left out

- Identifier generation (`crypto.randomUUID()`, `Date.now()`): both are sources of randomness or time. Identifiers are constructor arguments, and their uniqueness is neither assumed nor proved.
- Aliasing of checklist items: the source's snapshot copies the checklist array but shares its `{text, completed}` objects. A caller that sets `completed` on a snapshot's item changes the todo. In the other direction, `toggleChecklistItem` (src/todoFactory.js:37) flips `completed` on the shared object, so the toggle also shows in every earlier snapshot that holds that item. The model keeps items as values and captures neither direction: in the model an earlier snapshot keeps the old flag.
- Dynamic typing: the source accepts arguments of any type. The model takes strings for every todo field and an integer for the checklist index. A non-integer or string index, which JavaScript would look up as a property name, is not modelled.
- `removeTodo` as written reads an undeclared name and so throws. `RemoveTodoAsWritten` models this on the assumption that no global named `todoId` exists at run time.
- The presentation layer (src/ui.js): DOM construction, event handlers, modals, and date formatting through the date-fns library.
- Storage probing (`storageAvailable`, src/index.js:15-32): this is browser I/O.
- The project manager, the Inbox protection, `editTodo`/`editProjectTodo` and the save/load persistence: `ProjectManager` is not part of this model, because its source is not among the files modelled.
- The build configuration (webpack.config.js).
