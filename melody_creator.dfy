/**
 * melody_creator.py: the composer dashboard with a saved-melody library,
 * renaming, deletion and a four-slot sequencer. The live status and the
 * pending capture are the `LiveState` of ComposerQueue; this module adds the
 * library, the slots, the rename mode and the user operations on them.
 */
module MelodyCreator {
  import opened Options
  import opened ComposerQueue

  /** What a sequencer slot holds when no melody is assigned to it. */
  const EmptySlot := "(비워두기)"

  // ---------------------------------------------------------------------------
  // Slot cascade (rename and delete)
  // ---------------------------------------------------------------------------

  /** Every slot equal to `from` is set to `to`; the others keep their value. */
  function Cascade(slots: seq<string>, from: string, to: string): (r: seq<string>)
    ensures |r| == |slots|
    ensures forall k :: 0 <= k < |slots| ==> r[k] == (if slots[k] == from then to else slots[k])
  {
    if slots == [] then [] else [if slots[0] == from then to else slots[0]] + Cascade(slots[1..], from, to)
  }

  /** The cascade over the four slots written out. */
  lemma CascadeFour(a: string, b: string, c: string, d: string, from: string, to: string)
    ensures Cascade([a, b, c, d], from, to) ==
      [if a == from then to else a, if b == from then to else b,
       if c == from then to else c, if d == from then to else d]
  {
  }

  /** After a cascade from a name to a different one, no slot holds the old name. */
  lemma CascadeRemoves(slots: seq<string>, from: string, to: string)
    requires from != to
    ensures from !in Cascade(slots, from, to)
  {
    var r := Cascade(slots, from, to);
    forall k | 0 <= k < |r| ensures r[k] != from {
    }
  }

  /** A cascade touches only the slots that held the old name. */
  lemma CascadeKeepsOthers(slots: seq<string>, from: string, to: string, name: string)
    requires name != from && name != to
    ensures (name in Cascade(slots, from, to)) <==> name in slots
  {
    var r := Cascade(slots, from, to);
    if name in slots {
      var k :| 0 <= k < |slots| && slots[k] == name;
      assert r[k] == name;
    }
    if name in r {
      var k :| 0 <= k < |r| && r[k] == name;
      assert slots[k] == name;
    }
  }

  // ---------------------------------------------------------------------------
  // melody_map and the play sequence
  // ---------------------------------------------------------------------------

  /** `{m["name"]: m["notes"] for m in melodies}`: entries in list order, so a later name overwrites an earlier one. */
  function MelodyMap(ms: seq<Melody>): (r: map<string, seq<int>>)
    ensures forall j :: 0 <= j < |ms| ==> ms[j].name in r
    ensures forall n :: n in r ==> exists j :: 0 <= j < |ms| && ms[j].name == n && ms[j].notes == r[n]
    ensures ms != [] ==> r[ms[|ms| - 1].name] == ms[|ms| - 1].notes
    decreases |ms|
  {
    if ms == [] then map[]
    else
      var init, last := ms[..|ms| - 1], ms[|ms| - 1];
      assert forall j :: 0 <= j < |init| ==> init[j] == ms[j];
      MelodyMap(init)[last.name := last.notes]
  }

  /** The position of the last entry with the given name, if any. */
  function LastWithName(ms: seq<Melody>, name: string): (r: Option<nat>)
    ensures r.Some? ==> r.value < |ms| && ms[r.value].name == name
    ensures r.Some? ==> forall j :: r.value < j < |ms| ==> ms[j].name != name
    ensures r.None? ==> forall j :: 0 <= j < |ms| ==> ms[j].name != name
    decreases |ms|
  {
    if ms == [] then None
    else if ms[|ms| - 1].name == name then Some(|ms| - 1)
    else LastWithName(ms[..|ms| - 1], name)
  }

  /**
   * The notes a slot contributes, defined without the map: nothing for the
   * empty slot or a name that no entry has, else the last such entry's notes.
   */
  function ReferenceNotes(ms: seq<Melody>, name: string): (r: seq<int>)
    ensures name == EmptySlot ==> r == []
    ensures (forall j :: 0 <= j < |ms| ==> ms[j].name != name) ==> r == []
    ensures r != [] ==> exists j :: 0 <= j < |ms| && ms[j].name == name && ms[j].notes == r
  {
    if name == EmptySlot then []
    else match LastWithName(ms, name)
      case None => []
      case Some(j) => ms[j].notes
  }

  /** Concatenation of the slots' contributions, in slot order. */
  function ReferenceSequence(ms: seq<Melody>, names: seq<string>): (r: seq<int>)
    ensures (forall k :: 0 <= k < |names| ==> names[k] == EmptySlot) ==> r == []
    ensures forall x :: x in r ==> exists j :: 0 <= j < |ms| && x in ms[j].notes
    decreases |names|
  {
    if names == [] then []
    else ReferenceSequence(ms, names[..|names| - 1]) + ReferenceNotes(ms, names[|names| - 1])
  }

  /** `melody_map.get(name, [])` for a slot that is not the empty slot. */
  function SlotNotes(lib: map<string, seq<int>>, name: string): (r: seq<int>)
    ensures name == EmptySlot || name !in lib ==> r == []
    ensures r != [] ==> name in lib && lib[name] == r
  {
    if name == EmptySlot then [] else if name in lib then lib[name] else []
  }

  /**
   * The map holds exactly the names of the list, and each name maps to the
   * notes of the last entry that has it.
   */
  lemma {:induction false} MelodyMapLookup(ms: seq<Melody>, name: string)
    ensures (name in MelodyMap(ms)) <==> LastWithName(ms, name).Some?
    ensures name in MelodyMap(ms) ==> MelodyMap(ms)[name] == ms[LastWithName(ms, name).value].notes
    decreases |ms|
  {
    if ms != [] {
      var init := ms[..|ms| - 1];
      MelodyMapLookup(init, name);
      if ms[|ms| - 1].name != name {
        var j := LastWithName(init, name);
        if j.Some? {
          assert init[j.value] == ms[j.value];
        }
      }
    }
  }

  /** Looking a slot up in the map gives its reference contribution. */
  lemma SlotNotesMatch(ms: seq<Melody>, name: string)
    ensures SlotNotes(MelodyMap(ms), name) == ReferenceNotes(ms, name)
  {
    MelodyMapLookup(ms, name);
  }

  /** The sequence of four slots written out. */
  lemma FourSlots(ms: seq<Melody>, a: string, b: string, c: string, d: string)
    ensures ReferenceSequence(ms, [a, b, c, d]) ==
      ReferenceNotes(ms, a) + ReferenceNotes(ms, b) + ReferenceNotes(ms, c) + ReferenceNotes(ms, d)
  {
    var s := [a, b, c, d];
    assert s[..3] == [a, b, c] && [a, b, c][..2] == [a, b] && [a, b][..1] == [a] && [a][..0] == [];
    assert ReferenceSequence(ms, [a]) == ReferenceNotes(ms, a);
    assert ReferenceSequence(ms, [a, b]) == ReferenceNotes(ms, a) + ReferenceNotes(ms, b);
    assert ReferenceSequence(ms, [a, b, c]) == ReferenceNotes(ms, a) + ReferenceNotes(ms, b) + ReferenceNotes(ms, c);
  }

  // ---------------------------------------------------------------------------
  // Refresh decision
  // ---------------------------------------------------------------------------

  /**
   * The end of the script: rerun at once after a capture; otherwise hold
   * (no automatic refresh) while the save form or a rename is open; otherwise
   * sleep briefly and rerun to poll the queue again.
   */
  function Decide(rerunNeeded: bool, pending: Option<seq<int>>, editing: Option<nat>): (r: Refresh)
    ensures r == RerunNow <==> rerunNeeded
    ensures r == Hold <==> !rerunNeeded && (pending.Some? || editing.Some?)
    ensures r == DelayThenRerun <==> !rerunNeeded && pending.None? && editing.None?
  {
    if rerunNeeded then RerunNow
    else if pending.Some? then Hold
    else if editing.Some? then Hold
    else DelayThenRerun
  }

  /**
   * The decision taken after a drain that consumed every line: with a melody
   * already pending the script always holds; an immediate rerun happens only
   * when the drain captured a melody, so the rerun shows the save form; and
   * the script polls again only when nothing is pending and no rename is open.
   */
  lemma RefreshAfterDrain(c: Live, lines: seq<string>, clock: string, editing: Option<nat>)
    requires Drain(c, lines, clock).Drained?
    ensures var d := Drain(c, lines, clock); var r := Decide(d.rerun, d.after.pending, editing);
      && (c.pending.Some? ==> r == Hold)
      && (r == RerunNow <==> c.pending.None? && d.after.pending.Some?)
      && (r == DelayThenRerun <==> d.after.pending.None? && editing.None?)
  {
    RerunIffCaptured(c, lines, clock);
    if c.pending.Some? {
      PendingIsNeverOverwritten(c, lines, clock);
    }
  }

  // ---------------------------------------------------------------------------
  // The session
  // ---------------------------------------------------------------------------

  /**
   * `st.session_state` of melody_creator.py. `saved` is the list last
   * written to the JSON file.
   */
  class Session {
    const live: LiveState
    var melodies: seq<Melody>
    var slot1: string
    var slot2: string
    var slot3: string
    var slot4: string
    var editingMelodyIndex: Option<nat>
    ghost var saved: seq<Melody>

    /** `slot_1` to `slot_4` in order. */
    function Slots(): seq<string>
      reads this
    {
      [slot1, slot2, slot3, slot4]
    }

    predicate Valid()
      reads this, live
    {
      live.Valid()
    }

    /** The session defaults: the library loaded from the file, nothing pending, empty slots, no rename open. */
    constructor (loaded: seq<Melody>)
      ensures Valid() && fresh(live)
      ensures live.View() == Live(false, 0, 0, WaitingInfo, None, None)
      ensures melodies == loaded && saved == loaded
      ensures Slots() == [EmptySlot, EmptySlot, EmptySlot, EmptySlot]
      ensures editingMelodyIndex == None
    {
      live := new LiveState();
      melodies := loaded;
      saved := loaded;
      slot1, slot2, slot3, slot4 := EmptySlot, EmptySlot, EmptySlot, EmptySlot;
      editingMelodyIndex := None;
    }

    /** Typing in the name box of the save form, which is shown while a melody is pending. */
    method EditPendingName(text: string)
      requires Valid() && live.pendingMelody.Some? && live.pendingMelody.value != []
      modifies live
      ensures Valid()
      ensures live.View() == old(live.View()).(pendingName := Some(text))
    {
      live.pendingMelodyName := Some(text);
    }

    /**
     * Submitting the save form: the pending melody becomes the first entry
     * of the library under the name in the form, the file is rewritten, and
     * the pending melody and its name are cleared.
     */
    method Commit(createdAt: string)
      requires Valid() && live.pendingMelody.Some? && live.pendingMelody.value != []
      modifies this, live
      ensures Valid()
      ensures melodies == [Melody(old(live.pendingMelodyName).value, old(live.pendingMelody).value, createdAt)] + old(melodies)
      ensures saved == melodies
      ensures live.View() == old(live.View()).(pending := None, pendingName := None)
      ensures Slots() == old(Slots()) && editingMelodyIndex == old(editingMelodyIndex)
    {
      var melody := Melody(live.pendingMelodyName.value, live.pendingMelody.value, createdAt);
      melodies := [melody] + melodies;
      saved := melodies;
      live.pendingMelody := None;
      if live.pendingMelodyName.Some? {
        live.pendingMelodyName := None;
      }
    }

    /** The rename button of an entry shown in normal mode: that entry enters rename mode. */
    method StartRename(i: nat)
      requires Valid() && i < |melodies| && editingMelodyIndex != Some(i)
      modifies this
      ensures Valid()
      ensures editingMelodyIndex == Some(i)
      ensures melodies == old(melodies) && saved == old(saved) && Slots() == old(Slots())
    {
      editingMelodyIndex := Some(i);
    }

    /**
     * The save button of the entry in rename mode: every slot naming the
     * entry follows the new name, only that entry's name changes, the file is
     * rewritten and rename mode ends.
     */
    method Rename(i: nat, newName: string)
      requires Valid() && editingMelodyIndex == Some(i) && i < |melodies|
      modifies this
      ensures Valid()
      ensures Slots() == Cascade(old(Slots()), old(melodies[i].name), newName)
      ensures melodies == old(melodies)[i := old(melodies[i]).(name := newName)]
      ensures saved == melodies
      ensures editingMelodyIndex == None
    {
      var oldName := melodies[i].name;
      CascadeFour(slot1, slot2, slot3, slot4, oldName, newName);
      if slot1 == oldName { slot1 := newName; }
      if slot2 == oldName { slot2 := newName; }
      if slot3 == oldName { slot3 := newName; }
      if slot4 == oldName { slot4 := newName; }
      melodies := melodies[i := melodies[i].(name := newName)];
      saved := melodies;
      editingMelodyIndex := None;
    }

    /**
     * The delete button of an entry shown in normal mode: every slot naming
     * the entry is emptied, the entry is removed with the others kept in
     * order, and the file is rewritten. The rename index is left as it is.
     */
    method Delete(i: nat)
      requires Valid() && i < |melodies| && editingMelodyIndex != Some(i)
      modifies this
      ensures Valid()
      ensures Slots() == Cascade(old(Slots()), old(melodies[i].name), EmptySlot)
      ensures old(melodies[i].name) != EmptySlot ==> old(melodies[i].name) !in Slots()
      ensures melodies == old(melodies[..i] + melodies[i + 1..])
      ensures saved == melodies
      ensures editingMelodyIndex == old(editingMelodyIndex)
    {
      var deletedName := melodies[i].name;
      CascadeFour(slot1, slot2, slot3, slot4, deletedName, EmptySlot);
      slot1, slot2, slot3, slot4 :=
        if slot1 == deletedName then EmptySlot else slot1,
        if slot2 == deletedName then EmptySlot else slot2,
        if slot3 == deletedName then EmptySlot else slot3,
        if slot4 == deletedName then EmptySlot else slot4;
      melodies := melodies[..i] + melodies[i + 1..];
      saved := melodies;
      if deletedName != EmptySlot {
        CascadeRemoves(old(Slots()), deletedName, EmptySlot);
      }
    }

    /** Slot button `k` (1 to 4) of an entry shown in normal mode: that slot takes the entry's name. */
    method AssignSlot(k: nat, i: nat)
      requires Valid() && 1 <= k <= 4 && i < |melodies| && editingMelodyIndex != Some(i)
      modifies this
      ensures Valid()
      ensures melodies == old(melodies) && saved == old(saved) && editingMelodyIndex == old(editingMelodyIndex)
      ensures Slots() == old(Slots())[k - 1 := melodies[i].name]
    {
      var name := melodies[i].name;
      if k == 1 {
        slot1 := name;
      } else if k == 2 {
        slot2 := name;
      } else if k == 3 {
        slot3 := name;
      } else {
        slot4 := name;
      }
    }

    /** The clear button of the sequencer: all four slots become empty. */
    method ClearSlots()
      requires Valid()
      modifies this
      ensures Valid()
      ensures Slots() == [EmptySlot, EmptySlot, EmptySlot, EmptySlot]
      ensures melodies == old(melodies) && saved == old(saved) && editingMelodyIndex == old(editingMelodyIndex)
    {
      slot1, slot2, slot3, slot4 := EmptySlot, EmptySlot, EmptySlot, EmptySlot;
    }

    /**
     * The play button of the sequencer: the notes of slots 1 to 4 in order,
     * each slot contributing the notes of the last library entry with its
     * name, or nothing when it is empty or names no entry. The script plays
     * the result when it is non-empty and shows a warning otherwise.
     */
    method BuildSequence() returns (sequence: seq<int>)
      ensures sequence == ReferenceNotes(melodies, slot1) + ReferenceNotes(melodies, slot2)
                          + ReferenceNotes(melodies, slot3) + ReferenceNotes(melodies, slot4)
    {
      var lib := MelodyMap(melodies);
      var keys := Slots();
      sequence := [];
      for k := 0 to 4
        invariant sequence == ReferenceSequence(melodies, keys[..k])
      {
        var selected := keys[k];
        SlotNotesMatch(melodies, selected);
        if selected != EmptySlot {
          sequence := sequence + SlotNotes(lib, selected);
        }
        assert keys[..k + 1][..k] == keys[..k];
      }
      assert keys[..4] == keys;
      FourSlots(melodies, slot1, slot2, slot3, slot4);
    }
  }
}
