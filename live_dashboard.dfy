/**
 * testUI4.py: the live dashboard that reads the serial port in an endless
 * loop. Each arriving line updates the status panels, the live preview of
 * the song being composed, or the playlist of saved songs. The model is the
 * body of that loop, one line at a time, over the script's own variables.
 */
module LiveDashboard {
  import opened Options
  import opened PyText
  import opened Protocol
  import opened Playlist

  /**
   * One line together with the outcome of the MIDI rendering the line would
   * trigger (`create_and_save_score_audio` returning an existing file), which
   * the model takes as given.
   */
  datatype Arrival = Arrival(line: RawLine, renderOk: bool)

  /** What the live-preview panel shows. */
  datatype Preview =
    | Blank               // nothing drawn yet
    | Score(freqs: seq<int>) // the rendered audio of these frequencies
    | RenderFailed        // the rendering warning
    | NoNotes             // the "no stored notes" notice
    | SavedNotice         // the "song saved" notice

  /**
   * The loop's state: `current_song_frequencies`, `last_rendered_song_hash`
   * (as the list it was taken from; `None` before any render), the playlist,
   * the reading shown in the status panels (`None` while they still show the
   * initial values), the preview panel, and whether the loop has ended on an
   * exception that no `except` clause catches.
   */
  datatype Board = Board(
    currentSong: seq<int>,
    lastRendered: Option<seq<int>>,
    savedSongs: seq<SavedSong>,
    status: Option<Reading>,
    preview: Preview,
    halted: bool)

  /** `MAX_NOTES`: the denominator of the progress bar. */
  const MaxNotes := 100

  /**
   * `st.progress` accepts a fraction in [0.0, 1.0] and raises otherwise, so
   * `note_count / MAX_NOTES` is accepted iff the count is in 0..MAX_NOTES.
   */
  predicate ProgressAccepts(noteCount: int) {
    0 <= noteCount <= MaxNotes
  }

  // ---------------------------------------------------------------------------
  // Parsing the three kinds of line
  // ---------------------------------------------------------------------------

  /**
   * The payload of a STATUS line: exactly five fields, with the count,
   * display and octave fields integers; anything else is `None` (a wrong
   * count is ignored, a bad integer is a `ValueError` caught by the loop).
   */
  function ParseStatus(payload: string): (r: Option<Reading>)
    ensures var p := Split(payload, ',');
      r.Some? <==> |p| == 5 && ParseInt(p[1]).Some? && ParseInt(p[2]).Some? && ParseInt(p[3]).Some?
    ensures var p := Split(payload, ',');
      r.Some? ==> && r.value.playing == (p[0] == "1")
                  && r.value.noteCount == ParseInt(p[1]).value
                  && r.value.displayNum == ParseInt(p[2]).value
                  && r.value.octave == ParseInt(p[3]).value
                  && r.value.noteName == p[4] && ',' !in r.value.noteName
  {
    var parts := Split(payload, ',');
    if |parts| != 5 then None
    else
      match (ParseInt(parts[1]), ParseInt(parts[2]), ParseInt(parts[3]))
      case (Some(count), Some(display), Some(octave)) =>
        Some(Reading(parts[0] == "1", count, display, octave, parts[4]))
      case _ => None
  }

  /**
   * The frequency list of a SONG or SAVE_SONG payload: the empty payload
   * gives the empty list, otherwise every comma field must be an integer
   * (`None` is the `ValueError`).
   */
  function ParseFrequencies(payload: string): (r: Option<seq<int>>)
    ensures r == Some([]) <==> payload == []
    ensures payload != [] ==> r == ParseAll(Split(payload, ','))
  {
    SplitEmptyOnly(payload, ',');
    var pieces := Split(payload, ',');
    if pieces == [[]] then Some([]) else ParseAll(pieces)
  }

  // ---------------------------------------------------------------------------
  // One line
  // ---------------------------------------------------------------------------

  /**
   * A STATUS line: the panels show the reading, or nothing changes. The
   * metrics are written before the progress bar, so a count outside
   * 0..MAX_NOTES shows its reading and then ends the loop.
   */
  function StatusStep(b: Board, payload: string): (r: Board)
    ensures r.(status := b.status, halted := b.halted) == b
    ensures r.status != b.status ==> r.status == ParseStatus(payload)
    ensures ParseStatus(payload).Some? ==> r.status == ParseStatus(payload)
    ensures r.halted <==> b.halted || (ParseStatus(payload).Some? && !ProgressAccepts(ParseStatus(payload).value.noteCount))
  {
    match ParseStatus(payload)
    case None => b
    case Some(r) =>
      if ProgressAccepts(r.noteCount) then b.(status := Some(r))
      else b.(status := Some(r), halted := true)
  }

  /**
   * A SONG line: the current song becomes the parsed list, then the preview
   * is brought up to date; a list that does not parse changes nothing.
   */
  function SongStep(b: Board, payload: string, renderOk: bool): (r: Board)
    ensures ParseFrequencies(payload).None? ==> r == b
    ensures ParseFrequencies(payload).Some? ==> r.currentSong == ParseFrequencies(payload).value
    ensures r.savedSongs == b.savedSongs && r.status == b.status && r.halted == b.halted
  {
    match ParseFrequencies(payload)
    case None => b
    case Some(freqs) => Redraw(b.(currentSong := freqs), renderOk)
  }

  /**
   * The preview is redrawn only when the current song differs from the last
   * one rendered. A non-empty song is rendered, and remembered only if
   * rendering succeeded; the empty song shows the notice and is remembered.
   */
  function Redraw(b: Board, renderOk: bool): (r: Board)
    ensures b.lastRendered == Some(b.currentSong) ==> r == b
    ensures r.currentSong == b.currentSong && r.savedSongs == b.savedSongs && r.status == b.status && r.halted == b.halted
    ensures r.lastRendered != b.lastRendered ==> r.lastRendered == Some(b.currentSong)
    ensures renderOk || b.currentSong == [] ==> r.lastRendered == Some(b.currentSong)
    ensures r.preview != b.preview ==> r.preview == (if b.currentSong == [] then NoNotes
                                                     else if renderOk then Score(b.currentSong) else RenderFailed)
  {
    if b.lastRendered == Some(b.currentSong) then b
    else if b.currentSong != [] then
      if renderOk then b.(preview := Score(b.currentSong), lastRendered := Some(b.currentSong))
      else b.(preview := RenderFailed)
    else b.(preview := NoNotes, lastRendered := Some(b.currentSong))
  }

  /**
   * A SAVE_SONG line: a non-empty, fully parsed list is appended to the
   * playlist as the next numbered song and the preview shows the saved
   * notice; a bad or empty list changes nothing.
   */
  function SaveStep(b: Board, payload: string): (r: Board)
    ensures r.currentSong == b.currentSong && r.lastRendered == b.lastRendered && r.status == b.status && r.halted == b.halted
    ensures r.savedSongs != b.savedSongs <==> ParseFrequencies(payload).Some? && payload != []
    ensures r.savedSongs != b.savedSongs ==>
      r.savedSongs == WithSong(b.savedSongs, ParseFrequencies(payload).value) && r.preview == SavedNotice
    ensures r.savedSongs == b.savedSongs ==> r == b
  {
    var saved := ParseFrequencies(payload);
    if saved.None? || saved.value == [] then b
    else
      b.(savedSongs := WithSong(b.savedSongs, saved.value), preview := SavedNotice)
  }

  /** The dispatch on a stripped line: blank lines and unknown prefixes change nothing. */
  function LineStep(b: Board, line: string, renderOk: bool): (r: Board)
    ensures line == [] ==> r == b
    ensures r.status != b.status || r.halted != b.halted ==> StartsWith(line, StatusPrefix)
    ensures r.currentSong != b.currentSong ==> StartsWith(line, SongPrefix)
    ensures r.savedSongs != b.savedSongs ==> StartsWith(line, SavePrefix)
    ensures |b.savedSongs| <= |r.savedSongs| <= |b.savedSongs| + 1
  {
    if line == [] then b
    else if StartsWith(line, StatusPrefix) then StatusStep(b, line[|StatusPrefix|..])
    else if StartsWith(line, SongPrefix) then SongStep(b, line[|SongPrefix|..], renderOk)
    else if StartsWith(line, SavePrefix) then SaveStep(b, line[|SavePrefix|..])
    else b
  }

  /** One pass of the loop body for an arriving line: undecodable bytes are skipped, text is stripped. */
  function Step(b: Board, a: Arrival): (r: Board)
    ensures a.line.Undecodable? ==> r == b
    ensures r.savedSongs != b.savedSongs ==> a.line.Text? && StartsWith(Strip(a.line.text), SavePrefix)
    ensures |b.savedSongs| <= |r.savedSongs| <= |b.savedSongs| + 1
  {
    match a.line
    case Undecodable => b
    case Text(raw) => LineStep(b, Strip(raw), a.renderOk)
  }

  /** The loop over a finite stretch of arrivals, which ends early once an uncaught exception halts it. */
  function Run(b: Board, arrivals: seq<Arrival>): (r: Board)
    ensures |b.savedSongs| <= |r.savedSongs| <= |b.savedSongs| + |arrivals|
    ensures b.halted ==> r == b
    decreases |arrivals|
  {
    if arrivals == [] || b.halted then b else Run(Step(b, arrivals[0]), arrivals[1..])
  }

  // ---------------------------------------------------------------------------
  // Properties
  // ---------------------------------------------------------------------------

  /** Undecodable, empty and blank lines change nothing. */
  lemma BlankLinesSkipped(b: Board, raw: string, renderOk: bool)
    requires forall i :: 0 <= i < |raw| ==> IsSpace(raw[i])
    ensures Step(b, Arrival(Text(raw), renderOk)) == b
    ensures Step(b, Arrival(Undecodable, renderOk)) == b
  {
    BlankStrips(raw);
  }

  /** A STATUS payload is read back as the reading it encodes, when the note name holds no comma. */
  lemma StatusPayloadRead(r: Reading)
    requires ',' !in r.noteName
    ensures ParseStatus(StatusPayload(r)) == Some(r)
  {
    SplitStatusPayload(r);
    ParseIntToString(r.noteCount);
    ParseIntToString(r.displayNum);
    ParseIntToString(r.octave);
    StatusFieldsRead(StatusPayload(r), r);
  }

  lemma StatusFieldsRead(payload: string, r: Reading)
    requires Split(payload, ',') == StatusTexts(r)
    requires ParseInt(IntToString(r.noteCount)) == Some(r.noteCount)
    requires ParseInt(IntToString(r.displayNum)) == Some(r.displayNum)
    requires ParseInt(IntToString(r.octave)) == Some(r.octave)
    ensures ParseStatus(payload) == Some(r)
  {
    var p := StatusTexts(r);
    assert (p[0] == "1") == r.playing;
  }

  /** A STATUS payload with more or fewer than five fields changes nothing, whatever the fields hold. */
  lemma WrongFieldCountIgnored(b: Board, payload: string)
    requires |Split(payload, ',')| != 5
    ensures StatusStep(b, payload) == b
  {
  }

  /** A STATUS payload with five fields but a non-integer count, display or octave changes nothing. */
  lemma BadStatusNumberIgnored(b: Board, payload: string)
    requires |Split(payload, ',')| == 5
    requires var p := Split(payload, ',');
      ParseInt(p[1]).None? || ParseInt(p[2]).None? || ParseInt(p[3]).None?
    ensures StatusStep(b, payload) == b
  {
  }

  /** The frequency payload the firmware writes for any list is read back as that list. */
  lemma FrequenciesRead(xs: seq<int>)
    ensures ParseFrequencies(FormatInts(xs)) == Some(xs)
  {
    if xs != [] {
      ParseFormatInts(xs);
      var ts := Tokens(xs);
      assert |ts[0]| > 0;
      SplitFormatInts(xs);
      assert Split(FormatInts(xs), ',') != [[]] by {
        if |xs| == 1 {
          assert Split(FormatInts(xs), ',')[0] == ts[0];
        }
      }
    }
  }

  /** A payload with a non-integer field leaves the current song as it was, and the preview too. */
  lemma BadSongIgnored(b: Board, payload: string, renderOk: bool)
    requires ParseFrequencies(payload).None?
    ensures SongStep(b, payload, renderOk) == b
  {
  }

  /** The preview is redrawn only when the new list differs from the last rendered one. */
  lemma SameSongNotRedrawn(b: Board, payload: string, renderOk: bool)
    requires b.lastRendered.Some? && ParseFrequencies(payload) == b.lastRendered
    ensures SongStep(b, payload, renderOk) == b.(currentSong := b.lastRendered.value)
  {
  }

  /**
   * The remembered list changes only to a list that was drawn: a rendered
   * score or the empty list's notice; a failed rendering leaves it alone, so
   * the same list is tried again when it next arrives.
   */
  lemma RememberedOnlyWhenDrawn(b: Board, payload: string, renderOk: bool)
    ensures var b2 := SongStep(b, payload, renderOk);
      b2.lastRendered != b.lastRendered ==>
        && b2.lastRendered == Some(b2.currentSong)
        && b2.preview == (if b2.currentSong == [] then NoNotes else Score(b2.currentSong))
    ensures var b2 := SongStep(b, payload, renderOk);
      !renderOk && b2.currentSong != [] ==> b2.lastRendered == b.lastRendered
    ensures var p := ParseFrequencies(payload);
      p.Some? && p != b.lastRendered && p.value != [] && !renderOk ==>
        SongStep(b, payload, renderOk).preview == RenderFailed
  {
  }

  /** Saving keeps the playlist numbered and appends at the end without touching earlier entries. */
  lemma SaveKeepsNumbering(b: Board, payload: string)
    requires SongsNumbered(b.savedSongs)
    ensures var b2 := SaveStep(b, payload);
      && SongsNumbered(b2.savedSongs)
      && |b.savedSongs| <= |b2.savedSongs| <= |b.savedSongs| + 1
      && b2.savedSongs[..|b.savedSongs|] == b.savedSongs
  {
    assert b.savedSongs[..|b.savedSongs|] == b.savedSongs;
  }

  /** An empty SAVE_SONG payload, or one with a non-integer field, appends nothing. */
  lemma EmptyOrBadSaveIgnored(b: Board, payload: string)
    requires payload == [] || ParseFrequencies(payload).None?
    ensures SaveStep(b, payload) == b
  {
  }

  /** Round trip of a SAVE_SONG payload: a non-empty list is appended under the next number. */
  lemma SavePayloadAppended(b: Board, xs: seq<int>)
    requires xs != []
    ensures SaveStep(b, FormatInts(xs)).savedSongs == WithSong(b.savedSongs, xs)
  {
    FrequenciesRead(xs);
  }

  /**
   * A STATUS line as the firmware writes it puts its reading on the panels
   * and changes nothing else, except that a count outside 0..MAX_NOTES
   * then ends the loop.
   */
  lemma StatusLineShown(b: Board, r: Reading, renderOk: bool)
    requires ',' !in r.noteName
    requires r.noteName == [] || !IsSpace(r.noteName[|r.noteName| - 1])
    ensures Step(b, Arrival(Text(StatusLine(r)), renderOk))
      == b.(status := Some(r), halted := b.halted || !ProgressAccepts(r.noteCount))
  {
    StatusPayloadEnd(r);
    StatusDispatch(b, StatusPayload(r), renderOk);
    StatusPayloadRead(r);
  }

  /**
   * A firmware STATUS line whose count is outside 0..MAX_NOTES shows its
   * reading and ends the loop: no later arrival is handled.
   */
  lemma CountOutOfRangeEndsLoop(b: Board, r: Reading, renderOk: bool, later: seq<Arrival>)
    requires ',' !in r.noteName
    requires r.noteName == [] || !IsSpace(r.noteName[|r.noteName| - 1])
    requires !b.halted && !ProgressAccepts(r.noteCount)
    ensures Run(b, [Arrival(Text(StatusLine(r)), renderOk)] + later) == b.(status := Some(r), halted := true)
  {
    var arrivals := [Arrival(Text(StatusLine(r)), renderOk)] + later;
    StatusLineShown(b, r, renderOk);
    assert arrivals[0] == Arrival(Text(StatusLine(r)), renderOk) && arrivals[1..] == later;
  }

  /** A `STATUS:` line is handled as one, with the text after the prefix as its payload. */
  lemma StatusDispatch(b: Board, payload: string, renderOk: bool)
    requires payload == [] || !IsSpace(payload[|payload| - 1])
    ensures Step(b, Arrival(Text(StatusPrefix + payload), renderOk)) == StatusStep(b, payload)
  {
    var line := StatusPrefix + payload;
    PrefixedStripped(StatusPrefix, payload);
    StrippedDispatch(b, line, renderOk);
  }

  /** A SONG line as the firmware writes it makes its list the current song, whatever the list. */
  lemma SongLineShown(b: Board, xs: seq<int>, renderOk: bool)
    ensures Step(b, Arrival(Text(SongLine(xs)), renderOk)) == SongStep(b, FormatInts(xs), renderOk)
    ensures Step(b, Arrival(Text(SongLine(xs)), renderOk)).currentSong == xs
  {
    FormatIntsNoTrailingSpace(xs);
    SongDispatch(b, FormatInts(xs), renderOk);
    FrequenciesRead(xs);
  }

  /** A SAVE_SONG line as the firmware writes it, with at least one note, appends its list as the next song. */
  lemma SaveLineAppended(b: Board, xs: seq<int>, renderOk: bool)
    requires xs != []
    ensures Step(b, Arrival(Text(SaveLine(xs)), renderOk)).savedSongs
      == WithSong(b.savedSongs, xs)
  {
    FormatIntsNoTrailingSpace(xs);
    SaveDispatch(b, FormatInts(xs), renderOk);
    SavePayloadAppended(b, xs);
  }

  /** A `SONG:` line is handled as one, with the text after the prefix as its payload. */
  lemma SongDispatch(b: Board, payload: string, renderOk: bool)
    requires payload == [] || !IsSpace(payload[|payload| - 1])
    ensures Step(b, Arrival(Text(SongPrefix + payload), renderOk)) == SongStep(b, payload, renderOk)
  {
    var line := SongPrefix + payload;
    assert line[1] == 'O';
    DiffersAt(line, StatusPrefix, 1);
    PrefixedStripped(SongPrefix, payload);
    StrippedDispatch(b, line, renderOk);
  }

  /** A `SAVE_SONG:` line is handled as one, with the text after the prefix as its payload. */
  lemma SaveDispatch(b: Board, payload: string, renderOk: bool)
    requires payload == [] || !IsSpace(payload[|payload| - 1])
    ensures Step(b, Arrival(Text(SavePrefix + payload), renderOk)) == SaveStep(b, payload)
  {
    var line := SavePrefix + payload;
    assert line[1] == 'A';
    DiffersAt(line, StatusPrefix, 1);
    DiffersAt(line, SongPrefix, 1);
    PrefixedStripped(SavePrefix, payload);
    StrippedDispatch(b, line, renderOk);
  }

  /** A line that `strip()` leaves alone is dispatched as it arrived. */
  lemma StrippedDispatch(b: Board, line: string, renderOk: bool)
    requires Strip(line) == line
    ensures Step(b, Arrival(Text(line), renderOk)) == LineStep(b, line, renderOk)
  {
  }

  /** Running from arrival `k` on, while the loop has not ended, handles arrival `k`, then runs from arrival `k + 1`. */
  lemma RunUnrolls(b: Board, arrivals: seq<Arrival>, k: nat)
    requires k < |arrivals| && !b.halted
    ensures Run(b, arrivals[k..]) == Run(Step(b, arrivals[k]), arrivals[k + 1..])
  {
    assert arrivals[k..][0] == arrivals[k] && arrivals[k..][1..] == arrivals[k + 1..];
  }

  /** Every stretch of the loop keeps the playlist numbered and only ever appends to it. */
  lemma {:induction false} RunKeepsNumbering(b: Board, arrivals: seq<Arrival>)
    requires SongsNumbered(b.savedSongs)
    ensures SongsNumbered(Run(b, arrivals).savedSongs)
    ensures |b.savedSongs| <= |Run(b, arrivals).savedSongs|
    ensures Run(b, arrivals).savedSongs[..|b.savedSongs|] == b.savedSongs
    decreases |arrivals|
  {
    if arrivals != [] {
      var b1 := Step(b, arrivals[0]);
      StepKeepsNumbering(b, arrivals[0]);
      RunKeepsNumbering(b1, arrivals[1..]);
      var s0, s1, s2 := b.savedSongs, b1.savedSongs, Run(b1, arrivals[1..]).savedSongs;
      assert s2[..|s0|] == s2[..|s1|][..|s0|];
    }
  }

  lemma StepKeepsNumbering(b: Board, a: Arrival)
    requires SongsNumbered(b.savedSongs)
    ensures var b2 := Step(b, a);
      && SongsNumbered(b2.savedSongs)
      && |b.savedSongs| <= |b2.savedSongs|
      && b2.savedSongs[..|b.savedSongs|] == b.savedSongs
  {
    assert b.savedSongs[..|b.savedSongs|] == b.savedSongs;
    if a.line.Text? {
      var line := Strip(a.line.text);
      OnlySavesTouchPlaylist(b, line, a.renderOk);
      if StartsWith(line, SavePrefix) {
        SaveKeepsNumbering(b, line[|SavePrefix|..]);
      }
    }
  }

  /** Only a SAVE_SONG line changes the playlist. */
  lemma OnlySavesTouchPlaylist(b: Board, line: string, renderOk: bool)
    ensures || LineStep(b, line, renderOk).savedSongs == b.savedSongs
            || (StartsWith(line, SavePrefix) && LineStep(b, line, renderOk) == SaveStep(b, line[|SavePrefix|..]))
  {
  }

  // ---------------------------------------------------------------------------
  // The loop, as the script runs it
  // ---------------------------------------------------------------------------

  /** The script's variables and the panels they drive. */
  class Dashboard {
    var currentSong: seq<int>
    var lastRendered: Option<seq<int>>
    var savedSongs: seq<SavedSong>
    var status: Option<Reading>
    var preview: Preview
    var halted: bool

    function View(): Board
      reads this
    {
      Board(currentSong, lastRendered, savedSongs, status, preview, halted)
    }

    predicate Valid()
      reads this
    {
      SongsNumbered(savedSongs)
    }

    /** The start of the script: empty current song, nothing rendered, empty playlist, initial panels. */
    constructor ()
      ensures View() == Board([], None, [], None, Blank, false)
      ensures Valid()
    {
      currentSong := [];
      lastRendered := None;
      savedSongs := [];
      status := None;
      preview := Blank;
      halted := false;
    }

    /** The body of the main loop for one arriving line. */
    method HandleArrival(a: Arrival)
      requires Valid()
      modifies this
      ensures Valid()
      ensures View() == Step(old(View()), a)
    {
      StepKeepsNumbering(View(), a);
      if a.line.Undecodable? {
        return;
      }
      var line := Strip(a.line.text);
      if line == [] {
        return;
      }
      if StartsWith(line, StatusPrefix) {
        HandleStatus(line[|StatusPrefix|..]);
      } else if StartsWith(line, SongPrefix) {
        HandleSong(line[|SongPrefix|..], a.renderOk);
      } else if StartsWith(line, SavePrefix) {
        HandleSave(line[|SavePrefix|..]);
      }
    }

    method HandleStatus(payload: string)
      modifies this
      ensures View() == StatusStep(old(View()), payload)
    {
      var reading := ParseStatus(payload);
      if reading.Some? {
        status := reading;
        if !ProgressAccepts(reading.value.noteCount) {
          halted := true;
        }
      }
    }

    method HandleSong(payload: string, renderOk: bool)
      modifies this
      ensures View() == SongStep(old(View()), payload, renderOk)
    {
      var parsed := ParseFrequencies(payload);
      if parsed.None? {
        return;
      }
      currentSong := parsed.value;
      assert View() == old(View()).(currentSong := parsed.value);
      if lastRendered != Some(currentSong) {
        if currentSong != [] {
          if renderOk {
            preview := Score(currentSong);
            lastRendered := Some(currentSong);
          } else {
            preview := RenderFailed;
          }
        } else {
          preview := NoNotes;
          lastRendered := Some(currentSong);
        }
      }
    }

    method HandleSave(payload: string)
      modifies this
      ensures View() == SaveStep(old(View()), payload)
    {
      var saved := ParseFrequencies(payload);
      if saved.None? {
        return;
      }
      if saved.value != [] {
        savedSongs := WithSong(savedSongs, saved.value);
        preview := SavedNotice;
      }
    }

    /** The main loop over a finite stretch of arrivals, in order, until an uncaught exception ends it. */
    method Consume(arrivals: seq<Arrival>)
      requires Valid()
      modifies this
      ensures Valid()
      ensures View() == Run(old(View()), arrivals)
    {
      var k := 0;
      while k < |arrivals| && !halted
        invariant 0 <= k <= |arrivals|
        invariant Valid()
        invariant Run(old(View()), arrivals) == Run(View(), arrivals[k..])
      {
        RunUnrolls(View(), arrivals, k);
        HandleArrival(arrivals[k]);
        k := k + 1;
      }
    }
  }
}
