/**
  The in-memory todo list behind the view: a list of records that only
  grows at the end, whose ids are positions counted from one, and whose
  `done` flags flip one at a time. It is not connected to the storage
  adapter.
*/
module Todos {

  datatype Todo = Todo(id: int, description: string, done: bool)

  /** How `toggleDone` ends: it flips a flag, or the index names no record and reading its `done` throws. */
  datatype ToggleOutcome = Toggled | ThrewTypeError

  /** The list after `add(description)`. */
  function Appended(list: seq<Todo>, description: string): seq<Todo>
  {
    list + [Todo(|list| + 1, description, false)]
  }

  /** The list after `toggleDone(index)` on an index that names a record. */
  function Flipped(list: seq<Todo>, index: int): seq<Todo>
    requires 0 <= index < |list|
  {
    list[index := list[index].(done := !list[index].done)]
  }

  /** Every record's id is its position plus one. */
  ghost predicate NumberedByPosition(list: seq<Todo>)
  {
    forall i :: 0 <= i < |list| ==> list[i].id == i + 1
  }

  /** `add` grows the list by one new, unfinished record at the end and keeps every earlier record where it was. */
  lemma AppendedExtends(list: seq<Todo>, description: string)
    ensures |Appended(list, description)| == |list| + 1
    ensures Appended(list, description)[..|list|] == list
    ensures Appended(list, description)[|list|] == Todo(|list| + 1, description, false)
    ensures NumberedByPosition(list) ==> NumberedByPosition(Appended(list, description))
  {
  }

  /** `toggleDone` negates one flag and changes nothing else. */
  lemma FlippedChangesOneFlag(list: seq<Todo>, index: int)
    requires 0 <= index < |list|
    ensures |Flipped(list, index)| == |list|
    ensures Flipped(list, index)[index].done == !list[index].done
    ensures Flipped(list, index)[index].id == list[index].id
    ensures Flipped(list, index)[index].description == list[index].description
    ensures forall i :: 0 <= i < |list| && i != index ==> Flipped(list, index)[i] == list[i]
    ensures NumberedByPosition(list) ==> NumberedByPosition(Flipped(list, index))
  {
  }

  /** Toggling the same record twice restores the list. */
  lemma FlipTwiceRestores(list: seq<Todo>, index: int)
    requires 0 <= index < |list|
    ensures Flipped(Flipped(list, index), index) == list
  {
  }

  /** Ids that are positions plus one are unique. */
  lemma NumberedIdsUnique(list: seq<Todo>, i: int, j: int)
    requires NumberedByPosition(list)
    requires 0 <= i < |list| && 0 <= j < |list| && list[i].id == list[j].id
    ensures i == j
  {
  }

  /** A call the view makes on the store. */
  datatype Command = AddTodo(description: string) | ToggleTodo(index: int)

  /** The list after one command; a toggle of a missing record throws and changes nothing. */
  function Apply(list: seq<Todo>, c: Command): seq<Todo>
  {
    match c
    case AddTodo(d) => Appended(list, d)
    case ToggleTodo(i) => if 0 <= i < |list| then Flipped(list, i) else list
  }

  /** The list after a fresh store has received `cmds` in order. */
  function Replay(cmds: seq<Command>): seq<Todo>
    decreases |cmds|
  {
    if cmds == [] then [] else Apply(Replay(cmds[..|cmds| - 1]), cmds[|cmds| - 1])
  }

  /** The descriptions added by `cmds`, in order. */
  function AddedDescriptions(cmds: seq<Command>): seq<string>
    decreases |cmds|
  {
    if cmds == [] then []
    else
      var init := AddedDescriptions(cmds[..|cmds| - 1]);
      match cmds[|cmds| - 1]
      case AddTodo(d) => init + [d]
      case ToggleTodo(_) => init
  }

  /**
    Whatever the order of adds and toggles, the list holds one record per
    add, in the order of the adds, with that add's description and with id
    its position plus one; toggles only ever touch `done`.
  */
  lemma {:induction false} ReplayFollowsAdds(cmds: seq<Command>)
    ensures |Replay(cmds)| == |AddedDescriptions(cmds)|
    ensures NumberedByPosition(Replay(cmds))
    ensures forall i :: 0 <= i < |Replay(cmds)| ==> Replay(cmds)[i].description == AddedDescriptions(cmds)[i]
    decreases |cmds|
  {
    if cmds != [] {
      var init := cmds[..|cmds| - 1];
      ReplayFollowsAdds(init);
      match cmds[|cmds| - 1]
      case AddTodo(d) =>
        AppendedExtends(Replay(init), d);
      case ToggleTodo(i) =>
        if 0 <= i < |Replay(init)| {
          FlippedChangesOneFlag(Replay(init), i);
        }
    }
  }

  /** The `TodoStore` class with its observable `todoList`. */
  class TodoStore {
    var todoList: seq<Todo>

    constructor ()
      ensures todoList == []
    {
      todoList := [];
    }

    /** `add(description)`: push a new unfinished record whose id is the old length plus one. */
    method Add(description: string)
      modifies this
      ensures todoList == Appended(old(todoList), description)
      ensures |todoList| == |old(todoList)| + 1
      ensures todoList[..|old(todoList)|] == old(todoList)
      ensures todoList[|old(todoList)|] == Todo(|old(todoList)| + 1, description, false)
      ensures NumberedByPosition(old(todoList)) ==> NumberedByPosition(todoList)
    {
      AppendedExtends(todoList, description);
      todoList := todoList + [Todo(|todoList| + 1, description, false)];
    }

    /**
      `toggleDone(index)`: negate `done` of the record at `index`. An index
      that names no record reads `done` of `undefined`, which throws before
      anything is written.
    */
    method ToggleDone(index: int) returns (outcome: ToggleOutcome)
      modifies this
      ensures outcome == Toggled <==> 0 <= index < |old(todoList)|
      ensures outcome == Toggled ==> todoList == Flipped(old(todoList), index)
      ensures outcome == ThrewTypeError ==> todoList == old(todoList)
      ensures |todoList| == |old(todoList)|
      ensures forall i :: 0 <= i < |todoList| && i != index ==> todoList[i] == old(todoList)[i]
      ensures forall i :: 0 <= i < |todoList| ==>
        todoList[i].id == old(todoList)[i].id && todoList[i].description == old(todoList)[i].description
    {
      if !(0 <= index < |todoList|) {
        return ThrewTypeError;
      }
      FlippedChangesOneFlag(todoList, index);
      todoList := todoList[index := todoList[index].(done := !todoList[index].done)];
      outcome := Toggled;
    }
  }
}
