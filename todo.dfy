/** The todo-list component's state and its message reducer, as values.
    `Step` is the reducer of `Model::update`: it maps the current state and
    one message to the next state, or to `None` where the component panics
    on an index that is not a position of the entry list. */
module Todo {

  datatype Option<+T> = None | Some(value: T)

  /** One task of the list. */
  datatype Entry = Entry(description: string, completed: bool, editing: bool)

  /** The eight messages the view sends to the reducer. */
  datatype Msg =
    | Add
    | Edit(idx: nat)
    | Update(val: string)
    | UpdateEdit(val: string)
    | Remove(idx: nat)
    | ToggleEdit(idx: nat)
    | Toggle(idx: nat)
    | Nope
  {
    /** The messages that address one entry by its position. */
    predicate TakesIndex() {
      Edit? || Remove? || ToggleEdit? || Toggle?
    }
  }

  /** The component state: the ordered entries and the two input buffers. */
  datatype AppState = AppState(entries: seq<Entry>, value: string, editValue: string)

  /** The message can be handled without a panic: its index, if it has one,
      is a position of the entry list. */
  predicate InBounds(s: AppState, m: Msg) {
    m.TakesIndex() ==> m.idx < |s.entries|
  }

  /** The state `create` builds from what the storage restored
      (`None` when nothing usable was stored). */
  function Init(restored: Option<seq<Entry>>): (s: AppState)
    ensures s.value == "" && s.editValue == ""
    ensures restored.Some? ==> s.entries == restored.value
    ensures restored.None? ==> s.entries == []
  {
    match restored
    case Some(entries) => AppState(entries, "", "")
    case None => AppState([], "", "")
  }

  /** `State::toggle`: flip the completion flag of one entry. */
  function ToggleAt(entries: seq<Entry>, idx: nat): (r: seq<Entry>)
    requires idx < |entries|
    ensures |r| == |entries|
    ensures r[idx].completed == !entries[idx].completed
    ensures r[idx].description == entries[idx].description
    ensures r[idx].editing == entries[idx].editing
    ensures forall j :: 0 <= j < |r| && j != idx ==> r[j] == entries[j]
  {
    entries[idx := entries[idx].(completed := !entries[idx].completed)]
  }

  /** `State::toggle_edit`: flip the edit-mode flag of one entry. */
  function ToggleEditAt(entries: seq<Entry>, idx: nat): (r: seq<Entry>)
    requires idx < |entries|
    ensures |r| == |entries|
    ensures r[idx].editing == !entries[idx].editing
    ensures r[idx].description == entries[idx].description
    ensures r[idx].completed == entries[idx].completed
    ensures forall j :: 0 <= j < |r| && j != idx ==> r[j] == entries[j]
  {
    entries[idx := entries[idx].(editing := !entries[idx].editing)]
  }

  /** `State::complete_edit`: give one entry a new description and flip its
      edit-mode flag. */
  function CompleteEditAt(entries: seq<Entry>, idx: nat, val: string): (r: seq<Entry>)
    requires idx < |entries|
    ensures |r| == |entries|
    ensures r[idx].description == val
    ensures r[idx].editing == !entries[idx].editing
    ensures r[idx].completed == entries[idx].completed
    ensures forall j :: 0 <= j < |r| && j != idx ==> r[j] == entries[j]
  {
    entries[idx := Entry(val, entries[idx].completed, !entries[idx].editing)]
  }

  /** `State::remove`: delete one entry; the later ones move down by one. */
  function RemoveAt(entries: seq<Entry>, idx: nat): (r: seq<Entry>)
    requires idx < |entries|
    ensures |r| == |entries| - 1
    ensures forall j :: 0 <= j < idx ==> r[j] == entries[j]
    ensures forall j :: idx <= j < |r| ==> r[j] == entries[j + 1]
    ensures multiset(r) + multiset{entries[idx]} == multiset(entries)
  {
    assert entries == entries[..idx] + [entries[idx]] + entries[idx + 1..];
    entries[..idx] + entries[idx + 1..]
  }

  /** The reducer of `Model::update`. `None` stands for the panic on an
      index past the end of the list. */
  function Step(s: AppState, m: Msg): (r: Option<AppState>)
    ensures r.Some? <==> InBounds(s, m)
    ensures r.Some? ==>
      |r.value.entries| == |s.entries| + (if m.Add? then 1 else if m.Remove? then -1 else 0)
  {
    if !InBounds(s, m) then None
    else
      Some(match m
        case Add => AppState(s.entries + [Entry(s.value, false, false)], "", s.editValue)
        case Edit(idx) => AppState(CompleteEditAt(s.entries, idx, s.editValue), s.value, "")
        case Update(val) => s.(value := val)
        case UpdateEdit(val) => s.(editValue := val)
        case Remove(idx) => s.(entries := RemoveAt(s.entries, idx))
        case ToggleEdit(idx) =>
          AppState(ToggleEditAt(s.entries, idx), s.value, s.entries[idx].description)
        case Toggle(idx) => s.(entries := ToggleAt(s.entries, idx))
        case Nope => s)
  }

  /** A session: the messages dispatched one after another, each run to
      completion before the next. `None` once one of them panics. */
  function Run(s: AppState, msgs: seq<Msg>): Option<AppState>
    decreases |msgs|
  {
    if msgs == [] then Some(s)
    else
      match Step(s, msgs[0])
      case None => None
      case Some(t) => Run(t, msgs[1..])
  }

  /** How many `Add` messages a session holds. */
  function Adds(msgs: seq<Msg>): nat {
    if msgs == [] then 0 else (if msgs[0].Add? then 1 else 0) + Adds(msgs[1..])
  }

  /** How many `Remove` messages a session holds. */
  function Removes(msgs: seq<Msg>): nat {
    if msgs == [] then 0 else (if msgs[0].Remove? then 1 else 0) + Removes(msgs[1..])
  }

  /** Messages that only touch an input buffer, or nothing at all. */
  predicate BufferOnly(m: Msg) {
    m.Update? || m.UpdateEdit? || m.Nope?
  }
}
