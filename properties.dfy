/** What the reducer promises, one message at a time and over whole sessions. */
module TodoProperties {
  import opened Todo

  /** `Add` appends one fresh entry holding the typed text, whatever it is
      (an empty text too), keeps the earlier entries in order and clears the
      input buffer. */
  lemma AddAppendsEntry(s: AppState)
    ensures Step(s, Add).Some?
    ensures var t := Step(s, Add).value;
      && |t.entries| == |s.entries| + 1
      && t.entries[..|s.entries|] == s.entries
      && t.entries[|s.entries|] == Entry(s.value, false, false)
      && t.value == ""
      && t.editValue == s.editValue
  {
  }

  /** `Toggle(i)` flips the completion flag of entry `i` and changes nothing
      else. */
  lemma ToggleFlipsOnlyCompleted(s: AppState, i: nat)
    requires i < |s.entries|
    ensures Step(s, Toggle(i)).Some?
    ensures var t := Step(s, Toggle(i)).value;
      && |t.entries| == |s.entries|
      && t.entries[i] == s.entries[i].(completed := !s.entries[i].completed)
      && (forall j :: 0 <= j < |s.entries| && j != i ==> t.entries[j] == s.entries[j])
      && t.value == s.value
      && t.editValue == s.editValue
  {
  }

  /** Toggling the same entry twice gives back the state it started from. */
  lemma ToggleTwiceRestores(s: AppState, i: nat)
    requires i < |s.entries|
    ensures Run(s, [Toggle(i), Toggle(i)]) == Some(s)
  {
    var t := Step(s, Toggle(i)).value;
    var u := Step(t, Toggle(i)).value;
    assert u.entries == s.entries;
    assert [Toggle(i), Toggle(i)][1..] == [Toggle(i)];
    assert Run(t, [Toggle(i)]) == Run(u, []);
  }

  /** `Remove(i)` deletes entry `i`: the entries before it stay put, the
      ones after it move down by one, and the buffers are untouched. */
  lemma RemoveDeletesEntry(s: AppState, i: nat)
    requires i < |s.entries|
    ensures Step(s, Remove(i)).Some?
    ensures var t := Step(s, Remove(i)).value;
      && t.entries == s.entries[..i] + s.entries[i + 1..]
      && |t.entries| == |s.entries| - 1
      && (forall j :: i <= j < |t.entries| ==> t.entries[j] == s.entries[j + 1])
      && t.value == s.value
      && t.editValue == s.editValue
  {
  }

  /** `ToggleEdit(i)` loads the description of entry `i` into the edit
      buffer and flips that entry's edit-mode flag, nothing else. */
  lemma ToggleEditSeedsBuffer(s: AppState, i: nat)
    requires i < |s.entries|
    ensures Step(s, ToggleEdit(i)).Some?
    ensures var t := Step(s, ToggleEdit(i)).value;
      && |t.entries| == |s.entries|
      && t.editValue == s.entries[i].description
      && t.entries[i] == s.entries[i].(editing := !s.entries[i].editing)
      && (forall j :: 0 <= j < |s.entries| && j != i ==> t.entries[j] == s.entries[j])
      && t.value == s.value
  {
  }

  /** `Edit(i)` writes the edit buffer into entry `i`, flips its edit-mode
      flag and clears the buffer. */
  lemma EditCommitsBuffer(s: AppState, i: nat)
    requires i < |s.entries|
    ensures Step(s, Edit(i)).Some?
    ensures var t := Step(s, Edit(i)).value;
      && |t.entries| == |s.entries|
      && t.entries[i] == Entry(s.editValue, s.entries[i].completed, !s.entries[i].editing)
      && (forall j :: 0 <= j < |s.entries| && j != i ==> t.entries[j] == s.entries[j])
      && t.value == s.value
      && t.editValue == ""
  {
  }

  /** `Edit` flips the flag rather than clearing it: sent to an entry that
      is not being edited, it puts that entry into edit mode. */
  lemma EditOutsideEditModeEntersIt(s: AppState, i: nat)
    requires i < |s.entries| && !s.entries[i].editing
    ensures Step(s, Edit(i)).Some? && Step(s, Edit(i)).value.entries[i].editing
  {
  }

  /** `Update` and `UpdateEdit` set one buffer each; `Nope` changes nothing. */
  lemma BufferMessagesKeepEntries(s: AppState, text: string)
    ensures Step(s, Update(text)) == Some(AppState(s.entries, text, s.editValue))
    ensures Step(s, UpdateEdit(text)) == Some(AppState(s.entries, s.value, text))
    ensures Step(s, Nope) == Some(s)
  {
  }

  /** A session can be split anywhere: running `a + b` is running `a`, then
      `b` from where `a` left off. */
  lemma {:induction false} RunConcat(s: AppState, a: seq<Msg>, b: seq<Msg>)
    ensures Run(s, a + b) == match Run(s, a) case None => None case Some(t) => Run(t, b)
    decreases |a|
  {
    if a == [] {
      assert a + b == b;
    } else {
      assert (a + b)[0] == a[0];
      assert (a + b)[1..] == a[1..] + b;
      match Step(s, a[0])
      case None =>
      case Some(t) => RunConcat(t, a[1..], b);
    }
  }

  /** Over a whole session that does not panic, the list grows by one per
      `Add` and shrinks by one per `Remove`. */
  lemma {:induction false} RunLength(s: AppState, msgs: seq<Msg>)
    requires Run(s, msgs).Some?
    ensures |Run(s, msgs).value.entries| == |s.entries| + Adds(msgs) - Removes(msgs)
    decreases |msgs|
  {
    if msgs != [] {
      var t := Step(s, msgs[0]).value;
      RunLength(t, msgs[1..]);
    }
  }

  /** A session of buffer-only messages never panics and never changes the
      entry list. */
  lemma {:induction false} BufferSessionKeepsEntries(s: AppState, msgs: seq<Msg>)
    requires forall k :: 0 <= k < |msgs| ==> BufferOnly(msgs[k])
    ensures Run(s, msgs).Some? && Run(s, msgs).value.entries == s.entries
    decreases |msgs|
  {
    if msgs != [] {
      assert BufferOnly(msgs[0]);
      var t := Step(s, msgs[0]).value;
      assert forall k :: 0 <= k < |msgs[1..]| ==> BufferOnly(msgs[1..][k]) by {
        forall k | 0 <= k < |msgs[1..]| ensures BufferOnly(msgs[1..][k]) {
          assert msgs[1..][k] == msgs[k + 1];
        }
      }
      BufferSessionKeepsEntries(t, msgs[1..]);
    }
  }

  /** Entering edit mode, typing and leaving edit mode again with a second
      `ToggleEdit` discards what was typed: the entries are as before and
      the edit buffer holds the unchanged description. */
  lemma ToggleEditTwiceDiscardsEdit(s: AppState, i: nat, text: string)
    requires i < |s.entries|
    ensures Run(s, [ToggleEdit(i), UpdateEdit(text), ToggleEdit(i)])
         == Some(AppState(s.entries, s.value, s.entries[i].description))
  {
    var msgs := [ToggleEdit(i), UpdateEdit(text), ToggleEdit(i)];
    var t1 := Step(s, msgs[0]).value;
    var t2 := Step(t1, msgs[1]).value;
    var t3 := Step(t2, msgs[2]).value;
    assert t3.entries == s.entries;
    assert msgs[1..] == [UpdateEdit(text), ToggleEdit(i)];
    assert msgs[1..][1..] == [ToggleEdit(i)];
    assert Run(s, msgs) == Run(t1, msgs[1..]);
    assert Run(t1, msgs[1..]) == Run(t2, [ToggleEdit(i)]);
    assert Run(t2, [ToggleEdit(i)]) == Run(t3, []);
  }

  /** Entering edit mode, typing and committing replaces the description of
      entry `i` alone, leaves its flags as they were and clears the buffer. */
  lemma EditSessionCommitsText(s: AppState, i: nat, text: string)
    requires i < |s.entries|
    ensures Run(s, [ToggleEdit(i), UpdateEdit(text), Edit(i)])
         == Some(AppState(s.entries[i := s.entries[i].(description := text)], s.value, ""))
  {
    var msgs := [ToggleEdit(i), UpdateEdit(text), Edit(i)];
    var t1 := Step(s, msgs[0]).value;
    var t2 := Step(t1, msgs[1]).value;
    var t3 := Step(t2, msgs[2]).value;
    assert t3.entries == s.entries[i := s.entries[i].(description := text)];
    assert msgs[1..] == [UpdateEdit(text), Edit(i)];
    assert msgs[1..][1..] == [Edit(i)];
    assert Run(s, msgs) == Run(t1, msgs[1..]);
    assert Run(t1, msgs[1..]) == Run(t2, [Edit(i)]);
    assert Run(t2, [Edit(i)]) == Run(t3, []);
  }

  /** Nothing keeps edit mode to one entry: two entries can be in edit mode
      at once. */
  lemma TwoEntriesCanBeEditing()
    ensures var r := Run(Init(None), [Add, Add, ToggleEdit(0), ToggleEdit(1)]);
      r.Some? && |r.value.entries| == 2 && r.value.entries[0].editing && r.value.entries[1].editing
  {
    var msgs := [Add, Add, ToggleEdit(0), ToggleEdit(1)];
    assert msgs[1..] == [Add, ToggleEdit(0), ToggleEdit(1)];
    assert msgs[1..][1..] == [ToggleEdit(0), ToggleEdit(1)];
    assert msgs[1..][1..][1..] == [ToggleEdit(1)];
  }

  /** Start with nothing stored, add "A", add "B", complete "A", remove "B":
      one completed entry "A" is left. */
  lemma AddToggleRemoveSession()
    ensures Run(Init(None), [Update("A"), Add, Update("B"), Add, Toggle(0), Remove(1)])
         == Some(AppState([Entry("A", true, false)], "", ""))
  {
    var msgs := [Update("A"), Add, Update("B"), Add, Toggle(0), Remove(1)];
    var s1 := Step(Init(None), msgs[0]).value;
    var s2 := Step(s1, msgs[1]).value;
    var s3 := Step(s2, msgs[2]).value;
    var s4 := Step(s3, msgs[3]).value;
    var s5 := Step(s4, msgs[4]).value;
    var s6 := Step(s5, msgs[5]).value;
    assert s4.entries == [Entry("A", false, false), Entry("B", false, false)];
    assert s6.entries == [Entry("A", true, false)];
    RunConcat(Init(None), msgs[..4], msgs[4..]);
    assert msgs == msgs[..4] + msgs[4..];
    assert msgs[..4] == [Update("A"), Add, Update("B"), Add];
    assert msgs[4..] == [Toggle(0), Remove(1)];
    assert msgs[..4][1..] == [Add, Update("B"), Add];
    assert msgs[..4][1..][1..] == [Update("B"), Add];
    assert msgs[..4][1..][1..][1..] == [Add];
    assert msgs[4..][1..] == [Remove(1)];
  }
}
