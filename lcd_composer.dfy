/**
 * 2-1.py: the LCD-mirroring composer page. `read_arduino` reads every
 * waiting line: a STATUS line rewrites the LCD text from fields 1, 3 and 4,
 * a SAVE_SONG line pushes its notes onto the melody stack and clears the
 * current melody. Nothing is guarded: a short STATUS line raises IndexError
 * and a SAVE_SONG field that is not an integer raises ValueError, which ends
 * the read with the remaining lines unread and the earlier lines' effects in
 * place.
 */
module LcdComposer {
  import opened Options
  import opened PyText
  import opened Protocol

  /** `melody_stack`, `current_melody` and `lcd_message` of the session. */
  datatype PageState = PageState(melodyStack: seq<seq<int>>, currentMelody: seq<int>, lcdMessage: string)

  /** The two exceptions a line can raise. */
  datatype Failure = IndexError | ValueError

  /** The effect of one line: the new state, or the exception it raised. */
  datatype Effect = Applied(state: PageState) | Failed(failure: Failure)

  /** The end of a read: every line consumed, or an exception with the lines not yet read. */
  datatype Outcome =
    | Finished(after: PageState)
    | Raised(after: PageState, failure: Failure, unread: seq<string>)

  /** `f"Notes:{parts[1]} Oct:{parts[3]} Note:{parts[4]}"` */
  function LcdText(parts: seq<string>): (r: string)
    requires |parts| >= 5
    ensures |r| == |parts[1]| + |parts[3]| + |parts[4]| + 17
    ensures r[..6] == "Notes:" && r[|r| - |parts[4]|..] == parts[4]
  {
    "Notes:" + parts[1] + " Oct:" + parts[3] + " Note:" + parts[4]
  }

  /**
   * One stripped line. STATUS needs at least five comma fields; SAVE_SONG
   * needs every comma field of its payload to be an integer (an empty
   * payload is one empty field). Other lines change nothing.
   */
  function LineEffect(s: PageState, line: string): (e: Effect)
    ensures e.Failed? ==> StartsWith(line, StatusPrefix) || StartsWith(line, SavePrefix)
    ensures e.Applied? && StartsWith(line, StatusPrefix) ==> e.state.melodyStack == s.melodyStack
    ensures e.Applied? && !StartsWith(line, SavePrefix) ==> e.state.melodyStack == s.melodyStack && e.state.currentMelody == s.currentMelody
    ensures e.Applied? && StartsWith(line, SavePrefix) && !StartsWith(line, StatusPrefix) ==>
      |e.state.melodyStack| == |s.melodyStack| + 1 && e.state.melodyStack[..|s.melodyStack|] == s.melodyStack
      && e.state.currentMelody == [] && e.state.lcdMessage == s.lcdMessage
  {
    if StartsWith(line, StatusPrefix) then
      var parts := Split(line[|StatusPrefix|..], ',');
      if |parts| < 5 then Failed(IndexError)
      else Applied(s.(lcdMessage := LcdText(parts)))
    else if StartsWith(line, SavePrefix) then
      match ParseAll(Split(line[|SavePrefix|..], ','))
      case None => Failed(ValueError)
      case Some(notes) =>
        assert (s.melodyStack + [notes])[..|s.melodyStack|] == s.melodyStack;
        Applied(s.(melodyStack := s.melodyStack + [notes], currentMelody := []))
    else Applied(s)
  }

  /** `read_arduino` over the waiting lines, each decoded with undecodable bytes dropped, then stripped. */
  function Read(s: PageState, waiting: seq<string>): (r: Outcome)
    ensures r.Raised? ==> |r.unread| < |waiting|
    ensures |s.melodyStack| <= |r.after.melodyStack| <= |s.melodyStack| + |waiting|
    decreases |waiting|
  {
    if waiting == [] then Finished(s)
    else
      match LineEffect(s, Strip(waiting[0]))
      case Failed(f) => Raised(s, f, waiting[1..])
      case Applied(s1) => Read(s1, waiting[1..])
  }

  // ---------------------------------------------------------------------------
  // Properties
  // ---------------------------------------------------------------------------

  /** A STATUS payload with fewer than five fields raises IndexError; with five or more it never raises. */
  lemma StatusFieldGuard(s: PageState, payload: string)
    ensures LineEffect(s, StatusPrefix + payload).Failed? <==> |Split(payload, ',')| < 5
    ensures |Split(payload, ',')| < 5 ==> LineEffect(s, StatusPrefix + payload) == Failed(IndexError)
  {
    var line := StatusPrefix + payload;
    assert line[..|StatusPrefix|] == StatusPrefix;
    assert line[|StatusPrefix|..] == payload;
  }

  /** The LCD text of a STATUS line as the firmware writes it: note count, octave and note name. */
  lemma LcdShowsReading(s: PageState, r: Reading)
    requires ',' !in r.noteName
    requires r.noteName == [] || !IsSpace(r.noteName[|r.noteName| - 1])
    ensures LineEffect(s, Strip(StatusLine(r)))
      == Applied(s.(lcdMessage := "Notes:" + IntToString(r.noteCount) + " Oct:" + IntToString(r.octave) + " Note:" + r.noteName))
  {
    StatusLineStripped(r);
    assert StatusLine(r) == StatusPrefix + StatusPayload(r);
    SplitStatusPayload(r);
    StatusEffect(s, StatusPayload(r));
    LcdFields(r);
  }

  lemma LcdFields(r: Reading)
    ensures LcdText(StatusTexts(r)) == "Notes:" + IntToString(r.noteCount) + " Oct:" + IntToString(r.octave) + " Note:" + r.noteName
  {
  }

  lemma StatusEffect(s: PageState, payload: string)
    requires |Split(payload, ',')| >= 5
    ensures LineEffect(s, StatusPrefix + payload) == Applied(s.(lcdMessage := LcdText(Split(payload, ','))))
  {
    var line := StatusPrefix + payload;
    assert line[..|StatusPrefix|] == StatusPrefix;
    assert line[|StatusPrefix|..] == payload;
  }

  /** A SAVE_SONG line as the firmware writes it pushes its notes and clears the current melody. */
  lemma SavePushesMelody(s: PageState, xs: seq<int>)
    requires xs != []
    ensures LineEffect(s, Strip(SaveLine(xs)))
      == Applied(s.(melodyStack := s.melodyStack + [xs], currentMelody := []))
  {
    SaveLineStripped(xs);
    ParseFormatInts(xs);
    SaveEffect(s, FormatInts(xs));
  }

  lemma SaveEffect(s: PageState, payload: string)
    ensures var line := SavePrefix + payload;
      LineEffect(s, line) == match ParseAll(Split(payload, ','))
        case None => Failed(ValueError)
        case Some(notes) => Applied(s.(melodyStack := s.melodyStack + [notes], currentMelody := []))
  {
    var line := SavePrefix + payload;
    assert line[..|SavePrefix|] == SavePrefix;
    assert line[|SavePrefix|..] == payload;
    assert line[1] == 'A';
    DiffersAt(line, StatusPrefix, 1);
  }

  /**
   * A waiting line that, once stripped, has neither prefix runs neither
   * branch: the LCD text, the stack and the current melody stay, and the
   * read goes on.
   */
  lemma OtherLinesIgnored(s: PageState, raw: string)
    requires !StartsWith(Strip(raw), StatusPrefix) && !StartsWith(Strip(raw), SavePrefix)
    ensures LineEffect(s, Strip(raw)) == Applied(s)
    ensures Read(s, [raw]) == Finished(s)
  {
    assert [raw][1..] == [];
  }

  /** An empty SAVE_SONG payload is one empty field, which `int()` rejects. */
  lemma EmptySaveRaises(s: PageState)
    ensures LineEffect(s, SavePrefix) == Failed(ValueError)
  {
    var payload: string := [];
    SplitEmptyOnly(payload, ',');
    EmptyIsNotInt();
    assert SavePrefix + payload == SavePrefix;
    BadSaveFieldRaises(s, payload, 0);
  }

  /** `int("")` raises ValueError. */
  lemma EmptyIsNotInt()
    ensures ParseInt([]).None?
  {
    assert IntStrip([]) == [];
  }

  /** Any SAVE_SONG field that is not an integer raises ValueError and pushes nothing. */
  lemma BadSaveFieldRaises(s: PageState, payload: string, k: nat)
    requires k < |Split(payload, ',')| && ParseInt(Split(payload, ',')[k]).None?
    ensures LineEffect(s, SavePrefix + payload) == Failed(ValueError)
  {
    SaveEffect(s, payload);
  }

  /**
   * A read that raises stops at the line that raised: the lines before it
   * read through without error to the state the read ends in, that line
   * fails from this state with the exception reported, and exactly the lines
   * after it are left unread.
   */
  lemma {:induction false} ReadStopsAtFailure(s: PageState, waiting: seq<string>)
    ensures var o := Read(s, waiting);
      o.Raised? ==> var n := |waiting| - |o.unread| - 1;
                    && 0 <= n < |waiting| && o.unread == waiting[n + 1..]
                    && Read(s, waiting[..n]) == Finished(o.after)
                    && LineEffect(o.after, Strip(waiting[n])) == Failed(o.failure)
    decreases |waiting|
  {
    if waiting != [] {
      var e := LineEffect(s, Strip(waiting[0]));
      if e.Applied? {
        var tail := waiting[1..];
        ReadStopsAtFailure(e.state, tail);
        var o := Read(e.state, tail);
        if o.Raised? {
          var n := |waiting| - |o.unread| - 1;
          assert n >= 1;
          assert waiting[..n][0] == waiting[0] && waiting[..n][1..] == tail[..n - 1];
          assert tail[n - 1] == waiting[n] && tail[n..] == waiting[n + 1..];
        }
      } else {
        assert waiting[..0] == [];
      }
    }
  }

  /** A read, whether it finishes or raises, only pushes melodies on top of the stack. */
  lemma {:induction false} ReadOnlyPushes(s: PageState, waiting: seq<string>)
    ensures |s.melodyStack| <= |Read(s, waiting).after.melodyStack|
    ensures Read(s, waiting).after.melodyStack[..|s.melodyStack|] == s.melodyStack
    decreases |waiting|
  {
    assert s.melodyStack[..|s.melodyStack|] == s.melodyStack;
    if waiting != [] {
      var line := Strip(waiting[0]);
      var e := LineEffect(s, line);
      if e.Applied? {
        ReadOnlyPushes(e.state, waiting[1..]);
        EffectOnlyPushes(s, line);
        var s0, s1, s2 := s.melodyStack, e.state.melodyStack, Read(e.state, waiting[1..]).after.melodyStack;
        assert s2[..|s0|] == s2[..|s1|][..|s0|];
      }
    }
  }

  /** Reading from line `k` on handles line `k`, then stops or reads on from line `k + 1`. */
  lemma ReadUnrolls(s: PageState, waiting: seq<string>, k: nat)
    requires k < |waiting|
    ensures Read(s, waiting[k..]) == match LineEffect(s, Strip(waiting[k]))
      case Failed(f) => Raised(s, f, waiting[k + 1..])
      case Applied(s1) => Read(s1, waiting[k + 1..])
  {
    assert waiting[k..][0] == waiting[k] && waiting[k..][1..] == waiting[k + 1..];
  }

  /** One line leaves the stack as it was or pushes one melody on top. */
  lemma EffectOnlyPushes(s: PageState, line: string)
    requires LineEffect(s, line).Applied?
    ensures var t := LineEffect(s, line).state.melodyStack;
      |s.melodyStack| <= |t| && t[..|s.melodyStack|] == s.melodyStack
  {
    assert s.melodyStack[..|s.melodyStack|] == s.melodyStack;
  }

  // ---------------------------------------------------------------------------
  // The session and the read loop
  // ---------------------------------------------------------------------------

  /** The session state of 2-1.py. */
  class Session {
    var melodyStack: seq<seq<int>>
    var currentMelody: seq<int>
    var lcdMessage: string

    function View(): PageState
      reads this
    {
      PageState(melodyStack, currentMelody, lcdMessage)
    }

    /** The defaults: no melodies, an empty current melody, an empty LCD text. */
    constructor ()
      ensures View() == PageState([], [], "")
    {
      melodyStack := [];
      currentMelody := [];
      lcdMessage := "";
    }

    /** One stripped line; `failure` is the exception it raised, with nothing changed. */
    method HandleLine(line: string) returns (failure: Option<Failure>)
      modifies this
      ensures LineEffect(old(View()), line) == if failure.None? then Applied(View()) else Failed(failure.value)
      ensures failure.Some? ==> View() == old(View())
    {
      failure := None;
      if StartsWith(line, StatusPrefix) {
        var parts := Split(line[|StatusPrefix|..], ',');
        if |parts| < 5 {
          failure := Some(IndexError);
          return;
        }
        lcdMessage := LcdText(parts);
      } else if StartsWith(line, SavePrefix) {
        var notes := ParseAll(Split(line[|SavePrefix|..], ','));
        if notes.None? {
          failure := Some(ValueError);
          return;
        }
        melodyStack := melodyStack + [notes.value];
        currentMelody := [];
      }
    }

    /** `read_arduino`: the waiting lines in order, until one raises. */
    method ReadArduino(waiting: seq<string>) returns (o: Outcome)
      modifies this
      ensures o == Read(old(View()), waiting)
      ensures View() == o.after
    {
      var k := 0;
      while k < |waiting|
        invariant 0 <= k <= |waiting|
        invariant Read(View(), waiting[k..]) == Read(old(View()), waiting)
      {
        ReadUnrolls(View(), waiting, k);
        var failure := HandleLine(Strip(waiting[k]));
        if failure.Some? {
          return Raised(View(), failure.value, waiting[k + 1..]);
        }
        k := k + 1;
      }
      o := Finished(View());
    }
  }
}
