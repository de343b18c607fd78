/** A todo item: an identifier fixed at creation and a handful of fields that
    the item's own setters replace in place (src/todoFactory.js). */
module TodoFactory {

  /** The identifier a todo receives at creation (a random UUID in the app). */
  type TodoId = string

  /** One entry of a todo's checklist. */
  datatype ChecklistItem = ChecklistItem(text: string, completed: bool)

  /** The snapshot `getDetails()` returns: every field of the todo, with the
      checklist as a sequence value. Appending to or removing from a snapshot's
      checklist does not reach the todo, and an entry the todo gains later is
      not in an earlier snapshot. Items are values here, whereas the app shares
      the item objects between the todo and its snapshots. */
  datatype Details = Details(
    id: TodoId,
    title: string,
    description: string,
    dueDate: string,
    priority: string,
    notes: string,
    checklist: seq<ChecklistItem>,
    isComplete: bool)

  /** The state of a todo right after creation. */
  function Created(id: TodoId, title: string, description: string, dueDate: string, priority: string): (d: Details)
  {
    Details(id, title, description, dueDate, priority, "", [], false)
  }

  /** One call of a todo's mutating API, as a value. */
  datatype Update =
    | NewTitle(title: string)
    | NewDescription(description: string)
    | NewDueDate(dueDate: string)
    | NewPriority(priority: string)
    | NewNotes(notes: string)
    | FlipComplete
    | AppendItem(text: string)
    | FlipItem(index: int)

  /** The checklist with the `completed` flag of entry `index` negated; an
      index that names no entry leaves the checklist as it is. */
  function FlipAt(checklist: seq<ChecklistItem>, index: int): (r: seq<ChecklistItem>)
  {
    if 0 <= index < |checklist| then
      checklist[index := checklist[index].(completed := !checklist[index].completed)]
    else
      checklist
  }

  /** The state after one update. */
  function Updated(d: Details, u: Update): (r: Details)
  {
    match u
    case NewTitle(t) => d.(title := t)
    case NewDescription(t) => d.(description := t)
    case NewDueDate(t) => d.(dueDate := t)
    case NewPriority(t) => d.(priority := t)
    case NewNotes(t) => d.(notes := t)
    case FlipComplete => d.(isComplete := !d.isComplete)
    case AppendItem(t) => d.(checklist := d.checklist + [ChecklistItem(t, false)])
    case FlipItem(i) => d.(checklist := FlipAt(d.checklist, i))
  }

  /** The state after a sequence of updates, applied from first to last. */
  function Replay(d: Details, us: seq<Update>): (r: Details)
    decreases |us|
  {
    if us == [] then d else Replay(Updated(d, us[0]), us[1..])
  }

  /** A freshly created todo holds the four given fields, empty notes, an
      empty checklist and is not complete. */
  lemma CreatedDefaults(id: TodoId, title: string, description: string, dueDate: string, priority: string)
    ensures var d := Created(id, title, description, dueDate, priority);
      && d.id == id && d.title == title && d.description == description
      && d.dueDate == dueDate && d.priority == priority
      && d.notes == "" && d.checklist == [] && !d.isComplete
  {
  }

  /** Every field changed by an update is the field that update is for; in
      particular no update changes the identifier. */
  lemma OnlyOwnField(d: Details, u: Update)
    ensures Updated(d, u).id == d.id
    ensures Updated(d, u).title != d.title ==> u.NewTitle?
    ensures Updated(d, u).description != d.description ==> u.NewDescription?
    ensures Updated(d, u).dueDate != d.dueDate ==> u.NewDueDate?
    ensures Updated(d, u).priority != d.priority ==> u.NewPriority?
    ensures Updated(d, u).notes != d.notes ==> u.NewNotes?
    ensures Updated(d, u).checklist != d.checklist ==> u.AppendItem? || u.FlipItem?
    ensures Updated(d, u).isComplete != d.isComplete ==> u.FlipComplete?
  {
  }

  /** Each of the five setters stores exactly the value it is given. */
  lemma SetterStores(d: Details, u: Update)
    ensures u.NewTitle? ==> Updated(d, u) == d.(title := u.title)
    ensures u.NewDescription? ==> Updated(d, u) == d.(description := u.description)
    ensures u.NewDueDate? ==> Updated(d, u) == d.(dueDate := u.dueDate)
    ensures u.NewPriority? ==> Updated(d, u) == d.(priority := u.priority)
    ensures u.NewNotes? ==> Updated(d, u) == d.(notes := u.notes)
  {
  }

  /** The identifier survives any sequence of updates. */
  lemma {:induction false} ReplayKeepsId(d: Details, us: seq<Update>)
    ensures Replay(d, us).id == d.id
    decreases |us|
  {
    if us != [] {
      OnlyOwnField(d, us[0]);
      ReplayKeepsId(Updated(d, us[0]), us[1..]);
    }
  }

  /** toggleComplete negates the flag, and toggling twice restores the todo. */
  lemma FlipCompleteTwice(d: Details)
    ensures Updated(d, FlipComplete).isComplete == !d.isComplete
    ensures Replay(d, [FlipComplete, FlipComplete]) == d
  {
    assert [FlipComplete, FlipComplete][1..] == [FlipComplete];
  }

  /** addChecklistItem(text) adds one entry, `{text, false}`, at the end and
      keeps every earlier entry. */
  lemma AppendItemEffect(d: Details, text: string)
    ensures var c := Updated(d, AppendItem(text)).checklist;
      && |c| == |d.checklist| + 1
      && c[|d.checklist|] == ChecklistItem(text, false)
      && c[..|d.checklist|] == d.checklist
  {
    var c := Updated(d, AppendItem(text)).checklist;
    assert c[..|d.checklist|] == d.checklist;
  }

  /** toggleChecklistItem(index) with an index inside the checklist negates
      that entry's flag, keeps its text, and leaves every other entry alone;
      with any other index the todo is unchanged. */
  lemma FlipItemEffect(d: Details, index: int)
    ensures var c := Updated(d, FlipItem(index)).checklist;
      && |c| == |d.checklist|
      && (forall k :: 0 <= k < |c| && k != index ==> c[k] == d.checklist[k])
      && (0 <= index < |c| ==>
            c[index].text == d.checklist[index].text && c[index].completed == !d.checklist[index].completed)
    ensures !(0 <= index < |d.checklist|) ==> Updated(d, FlipItem(index)) == d
  {
  }

  /** Toggling the same checklist entry twice restores the todo. */
  lemma FlipItemTwice(d: Details, index: int)
    ensures Replay(d, [FlipItem(index), FlipItem(index)]) == d
  {
    var u := FlipItem(index);
    assert [u, u][1..] == [u];
    assert [u][1..] == [];
    assert FlipAt(FlipAt(d.checklist, index), index) == d.checklist;
    calc {
      Replay(d, [u, u]);
      Replay(Updated(d, u), [u]);
      Replay(Updated(Updated(d, u), u), []);
      d;
    }
  }

  /** A todo as the closure of `TodoFactory` holds it: the identifier is a
      constant, every other field is replaced in place by its own operation. */
  class Todo {
    const id: TodoId
    var title: string
    var description: string
    var dueDate: string
    var priority: string
    var notes: string
    var checklist: seq<ChecklistItem>
    var isComplete: bool

    /** `TodoFactory(title, description, dueDate, priority)`; the identifier the
        factory draws at random is passed in. */
    constructor (id: TodoId, title: string, description: string, dueDate: string, priority: string)
      ensures GetDetails() == Created(id, title, description, dueDate, priority)
    {
      this.id := id;
      this.title := title;
      this.description := description;
      this.dueDate := dueDate;
      this.priority := priority;
      notes := "";
      checklist := [];
      isComplete := false;
    }

    /** `getDetails()`: the current value of every field. Its identifier is
        always the one the todo was created with. */
    function GetDetails(): (d: Details)
      reads this
      ensures d.id == id
    {
      Details(id, title, description, dueDate, priority, notes, checklist, isComplete)
    }

    method SetTitle(newTitle: string)
      modifies this
      ensures GetDetails() == Updated(old(GetDetails()), NewTitle(newTitle))
    {
      title := newTitle;
    }

    method SetDescription(newDescription: string)
      modifies this
      ensures GetDetails() == Updated(old(GetDetails()), NewDescription(newDescription))
    {
      description := newDescription;
    }

    method SetDueDate(newDate: string)
      modifies this
      ensures GetDetails() == Updated(old(GetDetails()), NewDueDate(newDate))
    {
      dueDate := newDate;
    }

    method SetPriority(newPriority: string)
      modifies this
      ensures GetDetails() == Updated(old(GetDetails()), NewPriority(newPriority))
    {
      priority := newPriority;
    }

    method SetNotes(newNotes: string)
      modifies this
      ensures GetDetails() == Updated(old(GetDetails()), NewNotes(newNotes))
    {
      notes := newNotes;
    }

    method ToggleComplete()
      modifies this
      ensures GetDetails() == Updated(old(GetDetails()), FlipComplete)
    {
      isComplete := !isComplete;
    }

    method AddChecklistItem(text: string)
      modifies this
      ensures GetDetails() == Updated(old(GetDetails()), AppendItem(text))
    {
      checklist := checklist + [ChecklistItem(text, false)];
    }

    /** Only an index that names an existing entry selects something; any
        other index is ignored without an error. */
    method ToggleChecklistItem(index: int)
      modifies this
      ensures GetDetails() == Updated(old(GetDetails()), FlipItem(index))
    {
      if 0 <= index < |checklist| {
        checklist := checklist[index := checklist[index].(completed := !checklist[index].completed)];
      }
    }
  }

  /** A snapshot taken before `addChecklistItem` keeps the old checklist: the
      todo gets the new entry, the snapshot does not. */
  method SnapshotIsDetached(t: Todo, text: string) returns (before: Details)
    modifies t
    ensures before == old(t.GetDetails())
    ensures t.GetDetails().checklist == before.checklist + [ChecklistItem(text, false)]
    ensures t.GetDetails().id == before.id
  {
    before := t.GetDetails();
    t.AddChecklistItem(text);
  }
}
