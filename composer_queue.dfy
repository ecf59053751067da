/**
 * The queue-draining step of the two Streamlit composer dashboards
 * (`process_queue`, word for word the same in melody_creator.py and 3-6.py),
 * as functions on the part of the session state it touches: the live status
 * and the pending capture. The session classes in MelodyCreator and
 * EarlyComposer are proved to follow these functions.
 */
module ComposerQueue {
  import opened Options
  import opened PyText
  import opened Protocol

  /** `current_note_info` before any STATUS line arrives. */
  const WaitingInfo := "아두이노 연결 대기 중..."
  /** Default pending name: this prefix followed by the capture time as HHMMSS. */
  const DefaultNamePrefix := "멜로디_"

  /**
   * The session fields that `process_queue` writes. `pendingName` is `None`
   * while the key `pending_melody_name` is absent from the session.
   */
  datatype Live = Live(
    isPlaying: bool,
    noteCount: int,
    displayNum: int,
    noteInfo: string,
    pending: Option<seq<int>>,
    pendingName: Option<string>)

  /** One saved melody of the library: `{"name", "notes", "created_at"}`. */
  datatype Melody = Melody(name: string, notes: seq<int>, createdAt: string)

  /** Effect of one line: the new state, whether it captured a melody, whether `int()` raised. */
  datatype Step = Step(after: Live, captured: bool, raised: bool)

  /** Outcome of draining a list of lines: all consumed, or an uncaught `ValueError` with the lines still queued. */
  datatype Drained = Drained(after: Live, rerun: bool) | Raised(after: Live, remaining: seq<string>)

  /** `current_note_info` while playing: the playback time in seconds. */
  function PlayingInfo(displayNum: int): string {
    "재생 시간: " + IntToString(displayNum) + "초"
  }

  /** `current_note_info` while composing: the note name and the octave field as sent. */
  function ComposingInfo(noteName: string, octave: string): string {
    noteName + " (옥타브 " + octave + ")"
  }

  /** `line.replace("STATUS:", "").split(",")` */
  function StatusFields(line: string): seq<string> {
    Split(RemoveAll(line, StatusPrefix), ',')
  }

  /** `line.replace("SAVE_SONG:", "").split(",")` */
  function SaveTokens(line: string): seq<string> {
    Split(RemoveAll(line, SavePrefix), ',')
  }

  /**
   * A STATUS line: with fewer than five fields nothing happens; otherwise the
   * playing flag is written first, then `int()` of the note count and of the
   * display number, either of which may raise after the earlier writes.
   */
  function ApplyStatus(c: Live, line: string): (s: Step)
    ensures !s.captured
    ensures s.after.pending == c.pending && s.after.pendingName == c.pendingName
    ensures s.raised ==> |StatusFields(line)| >= 5 && s.after.isPlaying == (StatusFields(line)[0] == "1")
                         && s.after.noteInfo == c.noteInfo && s.after.displayNum == c.displayNum
  {
    var parts := StatusFields(line);
    if |parts| < 5 then Step(c, false, false)
    else
      var c1 := c.(isPlaying := parts[0] == "1");
      match ParseInt(parts[1])
      case None => Step(c1, false, true)
      case Some(count) =>
        var c2 := c1.(noteCount := count);
        match ParseInt(parts[2])
        case None => Step(c2, false, true)
        case Some(display) =>
          var info := if c2.isPlaying then PlayingInfo(display) else ComposingInfo(parts[4], parts[3]);
          Step(c2.(displayNum := display, noteInfo := info), false, false)
  }

  /** Whether one token survives the filter `n.strip().isdigit()`. */
  predicate IsDigitToken(t: string) {
    IsDigits(Strip(t))
  }

  /** A token that passes the filter but that `int()` rejects: the comprehension raises `ValueError`. */
  predicate TokenRaises(t: string) {
    IsDigitToken(t) && ParseInt(t).None?
  }

  /** Whether `[int(n) for n in tokens if n.strip().isdigit()]` raises. */
  predicate FilterRaises(tokens: seq<string>) {
    exists k :: 0 <= k < |tokens| && TokenRaises(tokens[k])
  }

  /** What one token contributes to the filtered list when nothing raises: its value, or nothing. */
  function TokenNote(t: string): seq<int> {
    if IsDigitToken(t) && ParseInt(t).Some? then [ParseInt(t).value] else []
  }

  /** `[int(n) for n in tokens if n.strip().isdigit()]` */
  function DigitNotes(tokens: seq<string>): (notes: seq<int>)
    ensures |notes| <= |tokens|
  {
    if tokens == [] then [] else TokenNote(tokens[0]) + DigitNotes(tokens[1..])
  }

  /**
   * A SAVE_SONG line seen while nothing is pending. The comprehension is
   * evaluated before any write, so when it raises nothing has changed.
   */
  function ApplySave(c: Live, line: string, clock: string): (s: Step)
    ensures s.raised <==> FilterRaises(SaveTokens(line))
    ensures s.captured <==> !s.raised && DigitNotes(SaveTokens(line)) != []
    ensures s.captured ==> s.after.pending == Some(DigitNotes(SaveTokens(line)))
    ensures !s.captured ==> s.after == c
    ensures s.after.(pending := c.pending, pendingName := c.pendingName) == c
    ensures c.pendingName.Some? ==> s.after.pendingName == c.pendingName
    ensures s.captured && c.pendingName.None? ==> s.after.pendingName == Some(DefaultNamePrefix + clock)
  {
    var tokens := SaveTokens(line);
    if FilterRaises(tokens) then Step(c, false, true)
    else
      var notes := DigitNotes(tokens);
      if notes == [] then Step(c, false, false)
      else
        var name := if c.pendingName.None? then Some(DefaultNamePrefix + clock) else c.pendingName;
        Step(c.(pending := Some(notes), pendingName := name), true, false)
  }

  /**
   * One line of the `if/elif` chain. `clock` is the HHMMSS time at which a
   * capture happens (at most one capture per drain, see `AtMostOneCapture`).
   */
  function ApplyLine(c: Live, line: string, clock: string): (s: Step)
    ensures s.captured ==> !s.raised && c.pending.None? && s.after.pending.Some?
    ensures s.raised ==> StartsWith(line, StatusPrefix) || (StartsWith(line, SavePrefix) && c.pending.None?)
    ensures c.pending.Some? ==> s.after.pending == c.pending && s.after.pendingName == c.pendingName
  {
    if StartsWith(line, StatusPrefix) then ApplyStatus(c, line)
    else if StartsWith(line, SavePrefix) && c.pending.None? then ApplySave(c, line, clock)
    else Step(c, false, false)
  }

  /** `while not q.empty(): line = q.get(); ...`, FIFO, stopping at an uncaught `ValueError`. */
  function Drain(c: Live, lines: seq<string>, clock: string): (d: Drained)
    ensures d.Raised? ==> |d.remaining| < |lines|
    ensures c.pending.Some? ==> d.after.pending == c.pending
    ensures d.Drained? && d.rerun ==> d.after.pending.Some?
    decreases |lines|
  {
    if lines == [] then Drained(c, false)
    else
      var s := ApplyLine(c, lines[0], clock);
      if s.raised then Raised(s.after, lines[1..])
      else
        match Drain(s.after, lines[1..], clock)
        case Drained(a, r) => Drained(a, r || s.captured)
        case Raised(a, rem) => Raised(a, rem)
  }

  // ---------------------------------------------------------------------------
  // STATUS lines
  // ---------------------------------------------------------------------------

  /**
   * A STATUS line with fewer than five fields changes nothing; with five or
   * more whose count and display fields are integers it sets exactly the four
   * live fields and leaves the pending capture alone.
   */
  lemma StatusEffect(c: Live, line: string, clock: string)
    requires StartsWith(line, StatusPrefix)
    ensures var parts := StatusFields(line); var s := ApplyLine(c, line, clock);
      && !s.captured
      && s.after.pending == c.pending && s.after.pendingName == c.pendingName
      && (|parts| < 5 ==> s == Step(c, false, false))
      && (|parts| >= 5 && ParseInt(parts[1]).Some? && ParseInt(parts[2]).Some? ==>
            && !s.raised
            && s.after.isPlaying == (parts[0] == "1")
            && s.after.noteCount == ParseInt(parts[1]).value
            && s.after.displayNum == ParseInt(parts[2]).value
            && s.after.noteInfo == (if parts[0] == "1" then PlayingInfo(ParseInt(parts[2]).value)
                                    else ComposingInfo(parts[4], parts[3])))
      && (|parts| >= 5 && (ParseInt(parts[1]).None? || ParseInt(parts[2]).None?) ==>
            s.raised && s.after.isPlaying == (parts[0] == "1") && s.after.noteInfo == c.noteInfo)
  {
  }

  lemma ApplyStatusShort(c: Live, line: string)
    requires |StatusFields(line)| < 5
    ensures ApplyStatus(c, line) == Step(c, false, false)
  {
  }

  lemma ApplyStatusBadCount(c: Live, line: string)
    requires var parts := StatusFields(line); |parts| >= 5 && ParseInt(parts[1]).None?
    ensures var parts := StatusFields(line);
      ApplyStatus(c, line) == Step(c.(isPlaying := parts[0] == "1"), false, true)
  {
  }

  lemma ApplyStatusBadDisplay(c: Live, line: string, count: int)
    requires var parts := StatusFields(line);
      |parts| >= 5 && ParseInt(parts[1]) == Some(count) && ParseInt(parts[2]).None?
    ensures var parts := StatusFields(line);
      ApplyStatus(c, line) == Step(c.(isPlaying := parts[0] == "1", noteCount := count), false, true)
  {
  }

  lemma ApplyStatusFull(c: Live, line: string, count: int, display: int)
    requires var parts := StatusFields(line);
      |parts| >= 5 && ParseInt(parts[1]) == Some(count) && ParseInt(parts[2]) == Some(display)
    ensures var parts := StatusFields(line); var playing := parts[0] == "1";
      ApplyStatus(c, line) == Step(Live(playing, count, display,
        if playing then PlayingInfo(display) else ComposingInfo(parts[4], parts[3]),
        c.pending, c.pendingName), false, false)
  {
  }

  /** Fields after the fifth are ignored: two STATUS lines that agree on the first five fields act alike. */
  lemma StatusIgnoresExtraFields(c: Live, line1: string, line2: string, clock: string)
    requires StartsWith(line1, StatusPrefix) && StartsWith(line2, StatusPrefix)
    requires |StatusFields(line1)| >= 5 && |StatusFields(line2)| >= 5
    requires StatusFields(line1)[..5] == StatusFields(line2)[..5]
    ensures ApplyLine(c, line1, clock) == ApplyLine(c, line2, clock)
  {
    var p1, p2 := StatusFields(line1), StatusFields(line2);
    forall k | 0 <= k < 5 ensures p1[k] == p2[k] {
      assert p1[k] == p1[..5][k];
    }
  }

  /** `replace` on a line that starts with the prefix and has no further occurrence of it. */
  lemma {:induction false} RemoveAllAfterNumerals(a: string, b: string, pat: string)
    requires pat != [] && pat[0] !in a
    ensures RemoveAll(a + b, pat) == a + RemoveAll(b, pat)
    decreases |a|
  {
    if a == [] {
      assert a + b == b;
    } else {
      var s := a + b;
      ConsAppend(a, b);
      assert a[0] in a && forall x :: x in a[1..] ==> x in a;
      RemoveAllAfterNumerals(a[1..], b, pat);
      if |s| < |pat| {
        RemoveAllShort(b, pat);
      } else {
        assert s[..|pat|][0] == a[0] != pat[0];
      }
      AppendAssoc([a[0]], a[1..], RemoveAll(b, pat));
      HeadTail(a);
    }
  }

  lemma RemoveAllShort(s: string, pat: string)
    requires pat != [] && |s| < |pat|
    ensures RemoveAll(s, pat) == s
  {
  }

  /**
   * Round trip of a STATUS line: the line the firmware writes for a reading is
   * read back as that reading, as long as the note name holds no comma and no
   * copy of the prefix.
   */
  lemma StatusLineRead(c: Live, r: Reading, clock: string)
    requires ',' !in r.noteName
    requires forall i :: !OccursAt(r.noteName, StatusPrefix, i)
    ensures ApplyLine(c, StatusLine(r), clock) ==
      Step(c.(isPlaying := r.playing, noteCount := r.noteCount, displayNum := r.displayNum,
              noteInfo := if r.playing then PlayingInfo(r.displayNum)
                          else ComposingInfo(r.noteName, IntToString(r.octave))),
           false, false)
  {
    var line := StatusLine(r);
    var payload := StatusPayload(r);
    assert line[..|StatusPrefix|] == StatusPrefix && line[|StatusPrefix|..] == payload;
    assert RemoveAll(line, StatusPrefix) == RemoveAll(payload, StatusPrefix);
    StatusPayloadShape(r);
    RemoveAllAfterNumerals(StatusNumerals(r), r.noteName, StatusPrefix);
    RemoveAllAbsent(r.noteName, StatusPrefix);
    assert RemoveAll(line, StatusPrefix) == payload;
    SplitStatusPayload(r);
    ParseIntToString(r.noteCount);
    ParseIntToString(r.displayNum);
  }

  /** Example, an instance of `StatusLineRead`: the reading `STATUS:1,12,7,4,C4` while playing. */
  lemma StatusScenario(c: Live, clock: string)
    ensures ApplyLine(c, "STATUS:1,12,7,4,C4", clock) ==
      Step(c.(isPlaying := true, noteCount := 12, displayNum := 7, noteInfo := "재생 시간: 7초"), false, false)
  {
    var r := Reading(true, 12, 7, 4, "C4");
    ScenarioLine(r);
    NotOccursWithoutHead(r.noteName, StatusPrefix);
    StatusLineRead(c, r, clock);
    ScenarioInfo();
  }

  /** Example helper: the info text for seven seconds of playback. */
  lemma ScenarioInfo()
    ensures PlayingInfo(7) == "재생 시간: 7초"
  {
    SmallNumerals();
  }

  /** Example helper: the firmware line of the example reading. */
  lemma ScenarioLine(r: Reading)
    requires r == Reading(true, 12, 7, 4, "C4")
    ensures StatusLine(r) == "STATUS:1,12,7,4,C4"
  {
    ScenarioTexts(r);
    JoinFive("1", "12", "7", "4", "C4");
  }

  /** Example helper: the five fields of the example reading. */
  lemma ScenarioTexts(r: Reading)
    requires r == Reading(true, 12, 7, 4, "C4")
    ensures StatusTexts(r) == ["1", "12", "7", "4", "C4"]
  {
    SmallNumerals();
  }

  /** Five pieces joined by commas. */
  lemma JoinFive(a: string, b: string, c: string, d: string, e: string)
    ensures Join([a, b, c, d, e], ',') == a + ([','] + (b + ([','] + (c + ([','] + (d + ([','] + e)))))))
  {
    var ps := [a, b, c, d, e];
    assert ps[1..] == [b, c, d, e];
    JoinFour(b, c, d, e);
  }

  /** Four pieces joined by commas. */
  lemma JoinFour(a: string, b: string, c: string, d: string)
    ensures Join([a, b, c, d], ',') == a + ([','] + (b + ([','] + (c + ([','] + d)))))
  {
    var ps := [a, b, c, d];
    assert ps[1..] == [b, c, d];
    assert ps[1..][1..] == [c, d];
    assert ps[1..][1..][1..] == [d];
    assert Join([c, d], ',') == c + ([','] + d);
    assert Join([b, c, d], ',') == b + ([','] + (c + ([','] + d)));
  }

  /** Decimal strings used by the concrete scenarios. */
  lemma SmallNumerals()
    ensures IntToString(0) == "0" && IntToString(4) == "4" && IntToString(7) == "7"
    ensures IntToString(12) == "12" && IntToString(440) == "440" && IntToString(523) == "523"
  {
    assert NatToString(12) == NatToString(1) + [DigitChar(2)];
    assert NatToString(440) == NatToString(44) + [DigitChar(0)];
    assert NatToString(44) == NatToString(4) + [DigitChar(4)];
    assert NatToString(523) == NatToString(52) + [DigitChar(3)];
    assert NatToString(52) == NatToString(5) + [DigitChar(2)];
  }

  // ---------------------------------------------------------------------------
  // SAVE_SONG lines
  // ---------------------------------------------------------------------------

  /** The filter distributes over concatenation: each token is kept or dropped on its own. */
  lemma {:induction false} DigitNotesAppend(a: seq<string>, b: seq<string>)
    ensures DigitNotes(a + b) == DigitNotes(a) + DigitNotes(b)
  {
    if a == [] {
      assert a + b == b;
    } else {
      DigitNotesAppend(a[1..], b);
      ConsAppend(a, b);
      AppendAssoc(TokenNote(a[0]), DigitNotes(a[1..]), DigitNotes(b));
    }
  }

  /** Every note the filter keeps is a non-negative number. */
  lemma {:induction false} DigitNotesNonNegative(tokens: seq<string>)
    ensures NonNegative(DigitNotes(tokens))
  {
    if tokens != [] {
      var h, rest := TokenNote(tokens[0]), DigitNotes(tokens[1..]);
      DigitNotesNonNegative(tokens[1..]);
      TokenNoteValue(tokens[0]);
      assert NonNegative(h);
      NonNegativeAppend(h, rest);
    }
  }

  /** Every element of `xs` is at least zero. */
  predicate NonNegative(xs: seq<int>) {
    forall k :: 0 <= k < |xs| ==> xs[k] >= 0
  }

  lemma NonNegativeAppend(a: seq<int>, b: seq<int>)
    requires NonNegative(a) && NonNegative(b)
    ensures NonNegative(a + b)
  {
    forall k | 0 <= k < |a + b| ensures (a + b)[k] >= 0 {
      if k < |a| {
        assert (a + b)[k] == a[k];
      } else {
        assert (a + b)[k] == b[k - |a|];
      }
    }
  }

  /** The filter handles the first token on its own. */
  lemma DigitNotesCons(t: string, ts: seq<string>)
    ensures DigitNotes([t] + ts) == TokenNote(t) + DigitNotes(ts)
  {
    ConsOne(t, ts);
  }

  /**
   * A token passes the filter exactly when it is all digits after stripping;
   * `int()` then either reads it as its digits' value or raises.
   */
  lemma TokenNoteValue(t: string)
    ensures IsDigitToken(t) ==> TokenRaises(t) || TokenNote(t) == [DigitsValue(Strip(t))]
    ensures !IsDigitToken(t) ==> TokenNote(t) == [] && !TokenRaises(t)
  {
    if IsDigitToken(t) && ParseInt(t).Some? {
      ParseDigitToken(t);
    }
  }

  /**
   * `"\x1c5"` passes `n.strip().isdigit()`, but `int()` does not skip U+001C,
   * so the comprehension raises.
   */
  lemma SeparatorTokenRaises()
    ensures TokenRaises("\U{1C}5")
  {
    SeparatorNotSkipped();
  }

  /**
   * With nothing pending, a SAVE_SONG line with a token that passes the
   * filter but not `int()` raises out of the loop and changes nothing.
   */
  lemma UnreadableTokenRaises(c: Live, line: string, clock: string, k: nat)
    requires c.pending.None? && !StartsWith(line, StatusPrefix) && StartsWith(line, SavePrefix)
    requires k < |SaveTokens(line)| && TokenRaises(SaveTokens(line)[k])
    ensures ApplyLine(c, line, clock) == Step(c, false, true)
  {
  }

  /** Negative numbers never survive the filter. */
  lemma NegativeDropped(n: int)
    requires n < 0
    ensures TokenNote(IntToString(n)) == []
  {
    var s := IntToString(n);
    StripNumerals(s);
    assert s[0] == '-';
    assert !IsDigitToken(s);
  }

  /** Blank tokens never survive the filter. */
  lemma BlankDropped(blank: string)
    requires forall i :: 0 <= i < |blank| ==> IsSpace(blank[i])
    ensures TokenNote(blank) == []
  {
    BlankStrips(blank);
    assert !IsDigitToken(blank);
  }

  /** The token of a non-negative number is kept as that number. */
  lemma NatTokenKept(n: int)
    requires n >= 0
    ensures TokenNote(IntToString(n)) == [n]
  {
    var t := IntToString(n);
    StripNumerals(t);
    assert IsDigitToken(t);
    ParseIntToString(n);
  }

  /** On the tokens of a list of non-negative numbers the filter keeps them all. */
  lemma {:induction false} DigitNotesOfNats(xs: seq<int>)
    requires forall k :: 0 <= k < |xs| ==> xs[k] >= 0
    ensures DigitNotes(Tokens(xs)) == xs
  {
    if xs != [] {
      var rest := xs[1..];
      assert forall k :: 0 <= k < |rest| ==> rest[k] == xs[k + 1];
      DigitNotesOfNats(rest);
      DigitNotesOfNatsStep(xs);
    }
  }

  lemma DigitNotesOfNatsStep(xs: seq<int>)
    requires xs != [] && xs[0] >= 0 && DigitNotes(Tokens(xs[1..])) == xs[1..]
    ensures DigitNotes(Tokens(xs)) == xs
  {
    var ts := Tokens(xs);
    NatTokenKept(xs[0]);
    assert ts[0] == IntToString(xs[0]) && ts[1..] == Tokens(xs[1..]);
    assert DigitNotes(ts) == [xs[0]] + xs[1..];
    HeadTail(xs);
  }

  /**
   * Round trip of a SAVE_SONG line: with nothing pending, the line the
   * firmware writes for a non-empty list of non-negative frequencies becomes
   * the pending melody, a default name is set only if none exists, and the
   * rerun flag is raised.
   */
  lemma SaveLineCaptured(c: Live, xs: seq<int>, clock: string)
    requires c.pending.None?
    requires xs != [] && forall k :: 0 <= k < |xs| ==> xs[k] >= 0
    ensures ApplyLine(c, SaveLine(xs), clock) ==
      Step(c.(pending := Some(xs),
              pendingName := if c.pendingName.None? then Some(DefaultNamePrefix + clock) else c.pendingName),
           true, false)
  {
    var line := SaveLine(xs);
    assert line[..|SavePrefix|] == SavePrefix;
    assert line[..|StatusPrefix|] != StatusPrefix by {
      assert line[1] == 'A';
    }
    FormatIntsHasNoS(xs);
    RemoveAllPrefix(SavePrefix, FormatInts(xs));
    SplitFormatInts(xs);
    DigitNotesOfNats(xs);
    NumeralsNeverRaise(xs);
  }

  /** The tokens of a list of numbers are all read by `int()`, so the filter never raises on them. */
  lemma NumeralsNeverRaise(xs: seq<int>)
    ensures !FilterRaises(Tokens(xs))
  {
    var ts := Tokens(xs);
    forall k | 0 <= k < |ts| ensures !TokenRaises(ts[k]) {
      ParseIntToString(xs[k]);
    }
  }

  /** Example, an instance of `SaveLineCaptured`: the SAVE_SONG line `440,0,523,523` with nothing pending. */
  lemma SaveScenario(c: Live, clock: string)
    requires c.pending.None?
    ensures var s := ApplyLine(c, "SAVE_SONG:440,0,523,523", clock);
      s.captured && s.after.pending == Some([440, 0, 523, 523])
  {
    var xs := [440, 0, 523, 523];
    ScenarioSaveLine(xs);
    SaveLineCaptured(c, xs, clock);
  }

  /** Example helper: the firmware line of the example melody. */
  lemma ScenarioSaveLine(xs: seq<int>)
    requires xs == [440, 0, 523, 523]
    ensures SaveLine(xs) == "SAVE_SONG:440,0,523,523"
  {
    ScenarioTokens(xs);
    JoinFour("440", "0", "523", "523");
  }

  /** Example helper: the tokens of the example melody. */
  lemma ScenarioTokens(xs: seq<int>)
    requires xs == [440, 0, 523, 523]
    ensures Tokens(xs) == ["440", "0", "523", "523"]
  {
    SmallNumerals();
  }

  /** Lines with any other prefix, `SONG:` among them, change nothing. */
  lemma OtherLinesIgnored(c: Live, line: string, clock: string)
    requires !StartsWith(line, StatusPrefix) && !StartsWith(line, SavePrefix)
    ensures ApplyLine(c, line, clock) == Step(c, false, false)
  {
  }

  /** A `SONG:` line is neither a STATUS nor a SAVE_SONG line. */
  lemma SongLineIgnored(c: Live, line: string, clock: string)
    requires StartsWith(line, SongPrefix)
    ensures ApplyLine(c, line, clock) == Step(c, false, false)
  {
    assert line[1] == 'O';
    assert StatusPrefix[1] == 'T' && SavePrefix[1] == 'A';
    OtherLinesIgnored(c, line, clock);
  }

  // ---------------------------------------------------------------------------
  // The drain
  // ---------------------------------------------------------------------------

  /** What one line can do to the pending capture, gathered for the proofs about whole drains. */
  lemma LineFacts(c: Live, line: string, clock: string)
    ensures var s := ApplyLine(c, line, clock);
      && (s.captured ==> !s.raised && c.pending.None?)
      && (s.captured <==> (c.pending.None? && s.after.pending.Some?))
      && (!s.captured ==> s.after.pending == c.pending && s.after.pendingName == c.pendingName)
      && (s.captured ==> s.after.pending == Some(DigitNotes(SaveTokens(line))) && s.after.pending.value != [])
      && (s.captured <==> c.pending.None? && !StartsWith(line, StatusPrefix) && StartsWith(line, SavePrefix)
                          && !FilterRaises(SaveTokens(line)) && DigitNotes(SaveTokens(line)) != [])
  {
    if StartsWith(line, StatusPrefix) {
      StatusEffect(c, line, clock);
    }
  }


  /**
   * While a melody is pending every SAVE_SONG line is dropped: the pending
   * melody and its name come out of any drain unchanged and no rerun is asked for.
   */
  lemma {:induction false} PendingIsNeverOverwritten(c: Live, lines: seq<string>, clock: string)
    requires c.pending.Some?
    ensures Drain(c, lines, clock).after.pending == c.pending
    ensures Drain(c, lines, clock).after.pendingName == c.pendingName
    ensures Drain(c, lines, clock).Drained? ==> !Drain(c, lines, clock).rerun
    decreases |lines|
  {
    if lines != [] {
      var s := ApplyLine(c, lines[0], clock);
      LineFacts(c, lines[0], clock);
      if !s.raised {
        PendingIsNeverOverwritten(s.after, lines[1..], clock);
      }
    }
  }

  /**
   * `process_queue` returns true exactly when the drain created a pending
   * melody, which can only happen when none was pending before.
   */
  lemma {:induction false} RerunIffCaptured(c: Live, lines: seq<string>, clock: string)
    requires Drain(c, lines, clock).Drained?
    ensures Drain(c, lines, clock).rerun <==> (c.pending.None? && Drain(c, lines, clock).after.pending.Some?)
    decreases |lines|
  {
    if lines != [] {
      var s := ApplyLine(c, lines[0], clock);
      LineFacts(c, lines[0], clock);
      if s.captured {
        PendingIsNeverOverwritten(s.after, lines[1..], clock);
      } else {
        RerunIffCaptured(s.after, lines[1..], clock);
      }
    }
  }

  /** The melody a drain would capture from nothing pending: the first SAVE_SONG line with a digit token. */
  function FirstCapture(lines: seq<string>): Option<seq<int>> {
    if lines == [] then None
    else if !StartsWith(lines[0], StatusPrefix) && StartsWith(lines[0], SavePrefix)
            && !FilterRaises(SaveTokens(lines[0])) && DigitNotes(SaveTokens(lines[0])) != []
    then Some(DigitNotes(SaveTokens(lines[0])))
    else FirstCapture(lines[1..])
  }

  /**
   * Within one drain only the first capture counts: starting with nothing
   * pending, a drain that consumes every line ends with the first SAVE_SONG
   * line's notes pending (or nothing, if no line captured).
   */
  lemma {:induction false} FirstCaptureWins(c: Live, lines: seq<string>, clock: string)
    requires c.pending.None?
    requires Drain(c, lines, clock).Drained?
    ensures Drain(c, lines, clock).after.pending == FirstCapture(lines)
    decreases |lines|
  {
    if lines != [] {
      var s := ApplyLine(c, lines[0], clock);
      LineFacts(c, lines[0], clock);
      if s.captured {
        PendingIsNeverOverwritten(s.after, lines[1..], clock);
      } else {
        FirstCaptureWins(s.after, lines[1..], clock);
      }
    }
  }

  /**
   * Line `n` is where a drain from `c` stops: the lines before it drain
   * without error, line `n` raises from the state they leave, and the drain
   * ends in the state the raise leaves with the lines after `n` still queued.
   */
  predicate StopsAt(c: Live, lines: seq<string>, clock: string, n: int) {
    && 0 <= n < |lines|
    && Drain(c, lines[..n], clock).Drained?
    && ApplyLine(Drain(c, lines[..n], clock).after, lines[n], clock).raised
    && Drain(c, lines, clock) == Raised(ApplyLine(Drain(c, lines[..n], clock).after, lines[n], clock).after, lines[n + 1..])
  }

  /**
   * A drain that raises stops at the bad line: the lines before it drain
   * normally, the bad line raises from the state they leave, and the lines
   * after it stay queued.
   */
  lemma {:induction false} RaiseStopsDrain(c: Live, lines: seq<string>, clock: string)
    requires Drain(c, lines, clock).Raised?
    ensures StopsAt(c, lines, clock, |lines| - |Drain(c, lines, clock).remaining| - 1)
    decreases |lines|
  {
    var s := ApplyLine(c, lines[0], clock);
    if s.raised {
      StopsAtHead(c, lines, clock);
    } else {
      RaiseStopsDrain(s.after, lines[1..], clock);
      StopsLater(c, lines, clock, |lines[1..]| - |Drain(s.after, lines[1..], clock).remaining| - 1);
    }
  }

  lemma StopsAtHead(c: Live, lines: seq<string>, clock: string)
    requires lines != [] && ApplyLine(c, lines[0], clock).raised
    ensures StopsAt(c, lines, clock, 0)
    ensures |Drain(c, lines, clock).remaining| == |lines| - 1
  {
    assert lines[..0] == [];
  }

  lemma StopsLater(c: Live, lines: seq<string>, clock: string, m: int)
    requires lines != [] && !ApplyLine(c, lines[0], clock).raised
    requires StopsAt(ApplyLine(c, lines[0], clock).after, lines[1..], clock, m)
    ensures StopsAt(c, lines, clock, m + 1)
    ensures |Drain(c, lines, clock).remaining| == |lines| - m - 2
  {
    var tail := lines[1..];
    assert lines[..m + 1][0] == lines[0] && lines[..m + 1][1..] == tail[..m];
    assert tail[m] == lines[m + 1] && tail[m + 1..] == lines[m + 2..];
  }

  /** Number of lines of a drain that capture a melody. */
  function Captures(c: Live, lines: seq<string>, clock: string): nat
    decreases |lines|
  {
    if lines == [] then 0
    else
      var s := ApplyLine(c, lines[0], clock);
      (if s.captured then 1 else 0) + (if s.raised then 0 else Captures(s.after, lines[1..], clock))
  }

  /** A drain captures at most once, so one clock reading per drain is enough. */
  lemma {:induction false} AtMostOneCapture(c: Live, lines: seq<string>, clock: string)
    ensures Captures(c, lines, clock) <= 1
    ensures c.pending.Some? ==> Captures(c, lines, clock) == 0
    decreases |lines|
  {
    if lines != [] {
      var s := ApplyLine(c, lines[0], clock);
      LineFacts(c, lines[0], clock);
      if !s.raised {
        AtMostOneCapture(s.after, lines[1..], clock);
      }
    }
  }

  /** The captured notes are never negative. */
  lemma {:induction false} PendingNotesNonNegative(c: Live, lines: seq<string>, clock: string)
    requires c.pending.Some? ==> forall k :: 0 <= k < |c.pending.value| ==> c.pending.value[k] >= 0
    ensures var p := Drain(c, lines, clock).after.pending;
      p.Some? ==> p.value != [] || p == c.pending
    ensures var p := Drain(c, lines, clock).after.pending;
      p.Some? ==> forall k :: 0 <= k < |p.value| ==> p.value[k] >= 0
    decreases |lines|
  {
    if lines != [] {
      var s := ApplyLine(c, lines[0], clock);
      LineFacts(c, lines[0], clock);
      DigitNotesNonNegative(SaveTokens(lines[0]));
      if !s.raised {
        PendingNotesNonNegative(s.after, lines[1..], clock);
      }
    }
  }

  // ---------------------------------------------------------------------------
  // Refresh decision
  // ---------------------------------------------------------------------------

  /** What the end of the script does: `st.rerun()` now, nothing (hold for user input), or sleep then rerun. */
  datatype Refresh = RerunNow | Hold | DelayThenRerun

  /** `Drained` with an earlier rerun request folded in; a raise is passed through unchanged. */
  function Resume(d: Drained, earlier: bool): Drained {
    match d
    case Drained(a, r) => Drained(a, r || earlier)
    case Raised(_, _) => d
  }

  /** A drain keeps the invariant that a pending melody always has a name. */
  lemma {:induction false} PendingHasName(c: Live, lines: seq<string>, clock: string)
    requires c.pending.Some? ==> c.pendingName.Some?
    ensures var a := Drain(c, lines, clock).after; a.pending.Some? ==> a.pendingName.Some?
    decreases |lines|
  {
    if lines != [] {
      var s := ApplyLine(c, lines[0], clock);
      LineFacts(c, lines[0], clock);
      if !s.raised {
        PendingHasName(s.after, lines[1..], clock);
      }
    }
  }

  // ---------------------------------------------------------------------------
  // The queue and the session fields, as the scripts update them
  // ---------------------------------------------------------------------------

  /**
   * The `queue.Queue` that the serial listener thread fills. The model sees
   * the lines present when the drain starts; lines arriving during a drain
   * are not modelled.
   */
  class LineQueue {
    var items: seq<string>

    constructor (lines: seq<string>)
      ensures items == lines
    {
      items := lines;
    }

    /** `q.empty()` */
    method Empty() returns (e: bool)
      ensures e <==> items == []
    {
      e := items == [];
    }

    /** `q.get()`: the oldest line. */
    method Get() returns (line: string)
      requires items != []
      modifies this
      ensures line == old(items)[0] && items == old(items)[1..]
    {
      line := items[0];
      items := items[1..];
    }
  }

  /**
   * The session keys that `process_queue` reads and writes, as fields.
   * `pendingMelodyName` is `None` while the key is absent from the session.
   */
  class LiveState {
    var isPlaying: bool
    var noteCount: int
    var displayNum: int
    var currentNoteInfo: string
    var pendingMelody: Option<seq<int>>
    var pendingMelodyName: Option<string>

    /** The fields as a `Live` value, the state the functions above work on. */
    function View(): Live
      reads this
    {
      Live(isPlaying, noteCount, displayNum, currentNoteInfo, pendingMelody, pendingMelodyName)
    }

    /** A pending melody always has a name (the capture sets one, the commit clears both). */
    predicate Valid()
      reads this
    {
      pendingMelody.Some? ==> pendingMelodyName.Some?
    }

    /** The session defaults for these keys on the first run of the script. */
    constructor ()
      ensures View() == Live(false, 0, 0, WaitingInfo, None, None)
      ensures Valid()
    {
      isPlaying := false;
      noteCount := 0;
      displayNum := 0;
      currentNoteInfo := WaitingInfo;
      pendingMelody := None;
      pendingMelodyName := None;
    }

    /** The body of the drain loop for one line. */
    method HandleLine(line: string, clock: string) returns (captured: bool, raised: bool)
      modifies this
      ensures ApplyLine(old(View()), line, clock) == Step(View(), captured, raised)
    {
      captured, raised := false, false;
      if StartsWith(line, StatusPrefix) {
        raised := HandleStatus(line);
      } else if StartsWith(line, SavePrefix) && pendingMelody.None? {
        captured, raised := HandleSave(line, clock);
      }
    }

    /** The `STATUS:` branch of the loop body. */
    method HandleStatus(line: string) returns (raised: bool)
      modifies this
      ensures ApplyStatus(old(View()), line) == Step(View(), false, raised)
    {
      raised := false;
      ghost var c := View();
      var parts := StatusFields(line);
      if |parts| < 5 {
        ApplyStatusShort(c, line);
        return;
      }
      isPlaying := parts[0] == "1";
      var count := ParseInt(parts[1]);
      if count.None? {
        raised := true;
        ApplyStatusBadCount(c, line);
        return;
      }
      noteCount := count.value;
      var display := ParseInt(parts[2]);
      if display.None? {
        raised := true;
        ApplyStatusBadDisplay(c, line, count.value);
        return;
      }
      displayNum := display.value;
      if isPlaying {
        currentNoteInfo := PlayingInfo(displayNum);
      } else {
        currentNoteInfo := ComposingInfo(parts[4], parts[3]);
      }
      ApplyStatusFull(c, line, count.value, display.value);
    }

    /** The `SAVE_SONG:` branch of the loop body, taken while nothing is pending. */
    method HandleSave(line: string, clock: string) returns (captured: bool, raised: bool)
      requires pendingMelody.None?
      modifies this
      ensures ApplySave(old(View()), line, clock) == Step(View(), captured, raised)
    {
      captured, raised := false, false;
      var tokens := SaveTokens(line);
      if FilterRaises(tokens) {
        raised := true;
        return;
      }
      var notes := DigitNotes(tokens);
      if notes != [] {
        pendingMelody := Some(notes);
        if pendingMelodyName.None? {
          pendingMelodyName := Some(DefaultNamePrefix + clock);
        }
        captured := true;
      }
    }

    /**
     * `process_queue(q)`: take lines in FIFO order until the queue is empty
     * and report whether a melody was captured. When `int()` raises, the
     * exception leaves the loop: `raised` is set, the lines after the bad one
     * stay queued and the writes made so far stay in the session.
     */
    method ProcessQueue(q: LineQueue, clock: string) returns (rerun: bool, raised: bool)
      requires Valid()
      modifies this, q
      ensures Valid()
      ensures match Drain(old(View()), old(q.items), clock)
        case Drained(a, r) => View() == a && rerun == r && !raised && q.items == []
        case Raised(a, rest) => View() == a && raised && q.items == rest
    {
      ghost var start, all := View(), q.items;
      rerun, raised := false, false;
      var empty := q.Empty();
      while !empty
        invariant empty <==> q.items == []
        invariant Resume(Drain(View(), q.items, clock), rerun) == Drain(start, all, clock)
        invariant Valid()
        decreases |q.items|
      {
        ghost var before, queued := View(), q.items;
        PendingHasName(before, queued, clock);
        var line := q.Get();
        var captured;
        captured, raised := HandleLine(line, clock);
        LineFacts(before, line, clock);
        if raised {
          return;
        }
        rerun := rerun || captured;
        empty := q.Empty();
      }
    }
  }
}
