/**
 * 3-6.py: the earlier composer dashboard. Its queue drain and session
 * defaults are those of melody_creator.py (the `LiveState` of ComposerQueue);
 * its library has no rename, delete or sequencer, and its refresh decision
 * has no rename mode to wait for.
 */
module EarlyComposer {
  import opened Options
  import opened ComposerQueue
  import MelodyCreator

  /**
   * The end of the script: rerun at once after a capture; hold while the
   * save form is open; otherwise sleep briefly and rerun.
   */
  function Decide(rerunNeeded: bool, pending: Option<seq<int>>): (r: Refresh)
    ensures r == RerunNow <==> rerunNeeded
    ensures r == Hold <==> !rerunNeeded && pending.Some?
    ensures r == DelayThenRerun <==> !rerunNeeded && pending.None?
  {
    if rerunNeeded then RerunNow
    else if pending.Some? then Hold
    else DelayThenRerun
  }

  /** With no rename open, melody_creator.py decides exactly as this script does. */
  lemma SameDecisionWithoutRename(rerunNeeded: bool, pending: Option<seq<int>>)
    ensures Decide(rerunNeeded, pending) == MelodyCreator.Decide(rerunNeeded, pending, None)
  {
  }

  /**
   * After a drain that consumed every line: a script that already had a
   * melody pending holds, one that captured a melody reruns at once, and one
   * with nothing pending polls again.
   */
  lemma RefreshAfterDrain(c: Live, lines: seq<string>, clock: string)
    requires Drain(c, lines, clock).Drained?
    ensures var d := Drain(c, lines, clock); var r := Decide(d.rerun, d.after.pending);
      && (c.pending.Some? ==> r == Hold)
      && (r == RerunNow <==> c.pending.None? && d.after.pending.Some?)
      && (r == DelayThenRerun <==> d.after.pending.None?)
  {
    RerunIffCaptured(c, lines, clock);
    if c.pending.Some? {
      PendingIsNeverOverwritten(c, lines, clock);
    }
  }

  /** `st.session_state` of 3-6.py. `saved` is the list last written to the JSON file. */
  class Session {
    const live: LiveState
    var melodies: seq<Melody>
    ghost var saved: seq<Melody>

    predicate Valid()
      reads this, live
    {
      live.Valid()
    }

    /** The session defaults: the library loaded from the file and nothing pending. */
    constructor (loaded: seq<Melody>)
      ensures Valid() && fresh(live)
      ensures live.View() == Live(false, 0, 0, WaitingInfo, None, None)
      ensures melodies == loaded && saved == loaded
    {
      live := new LiveState();
      melodies := loaded;
      saved := loaded;
    }

    /** Typing in the name box of the save form, which is shown while a melody is pending. */
    method EditPendingName(text: string)
      requires Valid() && live.pendingMelody.Some? && live.pendingMelody.value != []
      modifies live
      ensures Valid()
      ensures live.View() == old(live.View()).(pendingName := Some(text))
    {
      live.pendingMelodyName := Some(text);
    }

    /**
     * Submitting the save form: the pending melody becomes the first entry
     * under the name in the form, the file is rewritten, and the pending
     * melody and its name are cleared.
     */
    method Commit(createdAt: string)
      requires Valid() && live.pendingMelody.Some? && live.pendingMelody.value != []
      modifies this, live
      ensures Valid()
      ensures melodies == [Melody(old(live.pendingMelodyName).value, old(live.pendingMelody).value, createdAt)] + old(melodies)
      ensures saved == melodies
      ensures live.View() == old(live.View()).(pending := None, pendingName := None)
    {
      var melody := Melody(live.pendingMelodyName.value, live.pendingMelody.value, createdAt);
      melodies := [melody] + melodies;
      saved := melodies;
      live.pendingMelody := None;
      if live.pendingMelodyName.Some? {
        live.pendingMelodyName := None;
      }
    }
  }
}
