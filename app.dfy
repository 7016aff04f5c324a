/** The component as objects whose fields change in place: `State` with its
    per-index helpers, and `Model`, which owns one `State`, dispatches the
    messages and writes the entry list to storage after each one. */
module App {
  import opened Todo

  /** The mutable component state: the entry list and the two buffers. */
  class State {
    var entries: seq<Entry>
    var value: string
    var editValue: string

    /** The state as a value, for the reducer `Todo.Step`. */
    function Abs(): AppState
      reads this
    {
      AppState(entries, value, editValue)
    }

    constructor (entries: seq<Entry>, value: string, editValue: string)
      ensures Abs() == AppState(entries, value, editValue)
    {
      this.entries := entries;
      this.value := value;
      this.editValue := editValue;
    }

    /** Flip the completion flag of entry `idx`; panics when out of range. */
    method Toggle(idx: nat)
      requires idx < |entries|
      modifies this
      ensures entries == ToggleAt(old(entries), idx)
      ensures value == old(value) && editValue == old(editValue)
    {
      var entry := entries[idx];
      entries := entries[idx := entry.(completed := !entry.completed)];
    }

    /** Flip the edit-mode flag of entry `idx`; panics when out of range. */
    method ToggleEdit(idx: nat)
      requires idx < |entries|
      modifies this
      ensures entries == ToggleEditAt(old(entries), idx)
      ensures value == old(value) && editValue == old(editValue)
    {
      var entry := entries[idx];
      entries := entries[idx := entry.(editing := !entry.editing)];
    }

    /** Store `val` as the description of entry `idx` and flip its
        edit-mode flag; panics when out of range. */
    method CompleteEdit(idx: nat, val: string)
      requires idx < |entries|
      modifies this
      ensures entries == CompleteEditAt(old(entries), idx, val)
      ensures value == old(value) && editValue == old(editValue)
    {
      var entry := entries[idx];
      entries := entries[idx := entry.(description := val, editing := !entry.editing)];
    }

    /** Delete entry `idx`; panics when out of range. */
    method Remove(idx: nat)
      requires idx < |entries|
      modifies this
      ensures entries == RemoveAt(old(entries), idx)
      ensures value == old(value) && editValue == old(editValue)
    {
      entries := entries[..idx] + entries[idx + 1..];
    }
  }

  /** The component: its state and what the browser storage would give back
      on the next start (`None` when nothing usable is stored). */
  class Model {
    const state: State
    var stored: Option<seq<Entry>>

    /** A restart would find the entries the component holds now. */
    ghost predicate Valid()
      reads this, state
    {
      Init(stored).entries == state.entries
    }

    /** `create`: start from what the storage restored, or from an empty
        list, with both buffers empty. */
    constructor Create(restored: Option<seq<Entry>>)
      ensures fresh(state)
      ensures state.Abs() == Init(restored)
      ensures stored == restored
      ensures Valid()
    {
      var entries := match restored case Some(list) => list case None => [];
      state := new State(entries, "", "");
      stored := restored;
    }

    /** `update`: apply one message as the reducer does, write the entry
        list to storage and ask for a re-render. */
    method Update(msg: Msg) returns (shouldRender: bool)
      requires InBounds(state.Abs(), msg)
      modifies this, state
      ensures Step(old(state.Abs()), msg) == Some(state.Abs())
      ensures stored == Some(state.entries)
      ensures Valid()
      ensures shouldRender
    {
      match msg {
        case Add =>
          var entry := Entry(state.value, false, false);
          state.entries := state.entries + [entry];
          state.value := "";
        case Edit(idx) =>
          var editValue := state.editValue;
          state.CompleteEdit(idx, editValue);
          state.editValue := "";
        case Update(val) =>
          state.value := val;
        case UpdateEdit(val) =>
          state.editValue := val;
        case Remove(idx) =>
          state.Remove(idx);
        case ToggleEdit(idx) =>
          state.editValue := state.entries[idx].description;
          state.ToggleEdit(idx);
        case Toggle(idx) =>
          state.Toggle(idx);
        case Nope =>
      }
      stored := Some(state.entries);
      shouldRender := true;
    }
  }

  /** A session against the component: nothing stored, add "A", add "B",
      complete "A", remove "B". Returns the entries held at the end and
      those a second component started on the same storage holds. */
  method AddToggleRemoveScenario() returns (entries: seq<Entry>, restored: seq<Entry>)
    ensures entries == [Entry("A", true, false)]
    ensures restored == entries
  {
    var m := new Model.Create(None);
    var render := m.Update(Update("A"));
    render := m.Update(Add);
    render := m.Update(Update("B"));
    render := m.Update(Add);
    render := m.Update(Toggle(0));
    render := m.Update(Remove(1));
    entries := m.state.entries;
    var restarted := new Model.Create(m.stored);
    restored := restarted.state.entries;
  }
}
