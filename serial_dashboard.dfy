/**
 * 2.py: the first serial dashboard. Each run of the page drains the lines
 * waiting on the port (`process_serial_data`): SAVE_SONG lines append to the
 * playlist, STATUS and SONG lines replace the status text. The function
 * reports whether the playlist grew, which decides whether the sidebar is
 * redrawn.
 */
module SerialDashboard {
  import opened Options
  import opened PyText
  import opened Protocol
  import opened Playlist

  const PreviewLabel := "Live Preview: "

  /** `st.session_state.saved_songs` and `st.session_state.status_text`. */
  datatype Panel = Panel(savedSongs: seq<SavedSong>, statusText: string)

  /** The result of one line: the new panel and whether a song was appended. */
  datatype Outcome = Outcome(panel: Panel, appended: bool)

  /** `[f for f in tokens if f.strip()]`: the tokens that are not blank, in order. */
  function KeepNonBlank(tokens: seq<string>): (r: seq<string>)
    ensures |r| <= |tokens|
  {
    if tokens == [] then [] else Kept(tokens[0]) + KeepNonBlank(tokens[1..])
  }

  /** One token through the filter: itself when it is not blank, nothing otherwise. */
  function Kept(t: string): seq<string> {
    if Strip(t) != [] then [t] else []
  }

  /**
   * The frequencies of a SAVE_SONG payload: the payload is stripped, blank
   * tokens are dropped, and every remaining token must be an integer.
   * `None` is a payload that is blank or holds a token that is not an
   * integer; both are skipped.
   */
  function SaveFrequencies(payload: string): (r: Option<seq<int>>)
    ensures Strip(payload) == [] ==> r.None?
    ensures r.Some? ==> |r.value| <= |Split(Strip(payload), ',')|
    ensures Strip(payload) != [] ==> r == ParseAll(KeepNonBlank(Split(Strip(payload), ',')))
  {
    var data := Strip(payload);
    if data == [] then None
    else ParseAll(KeepNonBlank(Split(data, ',')))
  }

  /** A SAVE_SONG line: a non-empty list is appended as the next song; anything else is skipped. */
  function SaveStep(p: Panel, payload: string): (o: Outcome)
    ensures !o.appended ==> o.panel == p
    ensures o.appended ==> |o.panel.savedSongs| == |p.savedSongs| + 1 && o.panel.savedSongs[..|p.savedSongs|] == p.savedSongs
    ensures SongsNumbered(p.savedSongs) ==> SongsNumbered(o.panel.savedSongs)
    ensures o.appended <==> SaveFrequencies(payload).Some? && SaveFrequencies(payload).value != []
    ensures o.appended ==> o.panel == p.(savedSongs := WithSong(p.savedSongs, SaveFrequencies(payload).value))
  {
    match SaveFrequencies(payload)
    case Some(freqs) =>
      if freqs != [] then Outcome(p.(savedSongs := WithSong(p.savedSongs, freqs)), true)
      else Outcome(p, false)
    case None => Outcome(p, false)
  }

  /** The body of the drain loop for a line that decoded and was stripped. */
  function LineStep(p: Panel, line: string): (o: Outcome)
    ensures !o.appended ==> o.panel.savedSongs == p.savedSongs
    ensures o.appended ==> |o.panel.savedSongs| == |p.savedSongs| + 1 && o.panel.savedSongs[..|p.savedSongs|] == p.savedSongs
    ensures SongsNumbered(p.savedSongs) ==> SongsNumbered(o.panel.savedSongs)
  {
    if line == [] then Outcome(p, false)
    else if StartsWith(line, SavePrefix) then SaveStep(p, line[|SavePrefix|..])
    else if StartsWith(line, StatusPrefix) then Outcome(p.(statusText := line[|StatusPrefix|..]), false)
    else if StartsWith(line, SongPrefix) then Outcome(p.(statusText := PreviewLabel + line[|SongPrefix|..]), false)
    else Outcome(p, false)
  }

  /** One waiting line: bytes that fail to decode are skipped, text is stripped. */
  function Step(p: Panel, line: RawLine): (o: Outcome)
    ensures line.Undecodable? ==> o == Outcome(p, false)
    ensures !o.appended ==> o.panel.savedSongs == p.savedSongs
    ensures o.appended ==> line.Text? && StartsWith(Strip(line.text), SavePrefix)
    ensures o.appended ==> |o.panel.savedSongs| == |p.savedSongs| + 1
  {
    match line
    case Undecodable => Outcome(p, false)
    case Text(raw) => LineStep(p, Strip(raw))
  }

  /** The drain over the waiting lines, `updated` set once any line appended a song. */
  function Drain(p: Panel, lines: seq<RawLine>): (o: Outcome)
    ensures !o.appended ==> o.panel.savedSongs == p.savedSongs
    ensures |p.savedSongs| <= |o.panel.savedSongs|
    ensures o.appended ==> |o.panel.savedSongs| > |p.savedSongs|
    decreases |lines|
  {
    if lines == [] then Outcome(p, false)
    else
      var o := Step(p, lines[0]);
      var rest := Drain(o.panel, lines[1..]);
      Outcome(rest.panel, o.appended || rest.appended)
  }

  // ---------------------------------------------------------------------------
  // Properties
  // ---------------------------------------------------------------------------

  /**
   * `process_serial_data` returns true exactly when the playlist grew, and
   * the drain only ever appends numbered entries to it.
   */
  lemma {:induction false} DrainReportsGrowth(p: Panel, lines: seq<RawLine>)
    requires SongsNumbered(p.savedSongs)
    ensures var o := Drain(p, lines);
      && (o.appended <==> |o.panel.savedSongs| > |p.savedSongs|)
      && |p.savedSongs| <= |o.panel.savedSongs|
      && o.panel.savedSongs[..|p.savedSongs|] == p.savedSongs
      && SongsNumbered(o.panel.savedSongs)
    decreases |lines|
  {
    assert p.savedSongs[..|p.savedSongs|] == p.savedSongs;
    if lines != [] {
      var o := Step(p, lines[0]);
      StepKeepsNumbering(p, lines[0]);
      DrainReportsGrowth(o.panel, lines[1..]);
      var s0, s1, s2 := p.savedSongs, o.panel.savedSongs, Drain(o.panel, lines[1..]).panel.savedSongs;
      assert Drain(p, lines).panel.savedSongs == s2;
      assert s2[..|s0|] == s2[..|s1|][..|s0|];
    }
  }

  lemma StepKeepsNumbering(p: Panel, line: RawLine)
    requires SongsNumbered(p.savedSongs)
    ensures var o := Step(p, line);
      && (o.appended <==> |o.panel.savedSongs| > |p.savedSongs|)
      && |p.savedSongs| <= |o.panel.savedSongs|
      && o.panel.savedSongs[..|p.savedSongs|] == p.savedSongs
      && SongsNumbered(o.panel.savedSongs)
  {
    assert p.savedSongs[..|p.savedSongs|] == p.savedSongs;
  }

  /** The filter keeps exactly the tokens that are not blank. */
  lemma {:induction false} KeepNonBlankKeeps(tokens: seq<string>)
    ensures forall t :: t in KeepNonBlank(tokens) <==> t in tokens && Strip(t) != []
    decreases |tokens|
  {
    if tokens != [] {
      KeepNonBlankKeeps(tokens[1..]);
      HeadTail(tokens);
    }
  }

  /** Draining from line `k` on handles line `k`, then drains from line `k + 1`. */
  lemma DrainUnrolls(p: Panel, waiting: seq<RawLine>, k: nat)
    requires k < |waiting|
    ensures var o := Step(p, waiting[k]); var rest := Drain(o.panel, waiting[k + 1..]);
      Drain(p, waiting[k..]) == Outcome(rest.panel, o.appended || rest.appended)
  {
    assert waiting[k..][0] == waiting[k] && waiting[k..][1..] == waiting[k + 1..];
  }

  /** Dropping blank tokens commutes with concatenation. */
  lemma {:induction false} KeepNonBlankAppend(a: seq<string>, b: seq<string>)
    ensures KeepNonBlank(a + b) == KeepNonBlank(a) + KeepNonBlank(b)
    decreases |a|
  {
    if a == [] {
      assert a + b == b;
    } else {
      KeepNonBlankAppend(a[1..], b);
      ConsAppend(a, b);
      AppendAssoc(Kept(a[0]), KeepNonBlank(a[1..]), KeepNonBlank(b));
    }
  }

  /** A blank token anywhere in a SAVE_SONG payload (`440,,523`, `440, ,523`) is ignored. */
  lemma BlankTokenIgnored(a: seq<string>, t: string, b: seq<string>)
    requires Strip(t) == []
    ensures KeepNonBlank(a + [t] + b) == KeepNonBlank(a + b)
  {
    assert [t][1..] == [];
    assert KeepNonBlank([t]) == [];
    KeepNonBlankAppend(a, [t]);
    assert KeepNonBlank(a + [t]) == KeepNonBlank(a);
    KeepNonBlankAppend(a + [t], b);
    KeepNonBlankAppend(a, b);
  }

  /** Tokens that are not blank pass the filter unchanged. */
  lemma {:induction false} NonBlankKept(tokens: seq<string>)
    requires forall k :: 0 <= k < |tokens| ==> Strip(tokens[k]) != []
    ensures KeepNonBlank(tokens) == tokens
    decreases |tokens|
  {
    if tokens != [] {
      NonBlankKept(tokens[1..]);
      HeadTail(tokens);
    }
  }

  /** Round trip of a SAVE_SONG payload: the list the firmware formatted is read back. */
  lemma SaveFrequenciesRead(xs: seq<int>)
    requires xs != []
    ensures SaveFrequencies(FormatInts(xs)) == Some(xs)
  {
    var payload := FormatInts(xs);
    FormatIntsNoTrailingSpace(xs);
    FormatIntsNumerals(xs);
    NumeralNotSpace(payload[0]);
    StripIdentity(payload);
    SplitFormatInts(xs);
    var ts := Tokens(xs);
    forall k | 0 <= k < |ts| ensures Strip(ts[k]) != [] {
      TokenSurvivesStrip(xs[k]);
    }
    NonBlankKept(ts);
    ParseFormatInts(xs);
  }

  /** A decimal token is its own strip and is not blank. */
  lemma TokenSurvivesStrip(n: int)
    ensures Strip(IntToString(n)) == IntToString(n) != []
  {
    var t := IntToString(n);
    NumeralNotSpace(t[0]);
    NumeralNotSpace(t[|t| - 1]);
    StripIdentity(t);
  }

  /** A SAVE_SONG line as the firmware writes it, with at least one note, appends its list as the next song. */
  lemma SaveLineAppended(p: Panel, xs: seq<int>)
    requires xs != []
    ensures Step(p, Text(SaveLine(xs))) == Outcome(p.(savedSongs := WithSong(p.savedSongs, xs)), true)
  {
    FormatIntsNoTrailingSpace(xs);
    SaveDispatch(p, FormatInts(xs));
    SaveFrequenciesRead(xs);
  }

  /** A `SAVE_SONG:` line is handled as one, with the text after the prefix as its payload. */
  lemma SaveDispatch(p: Panel, payload: string)
    requires payload == [] || !IsSpace(payload[|payload| - 1])
    ensures Step(p, Text(SavePrefix + payload)) == SaveStep(p, payload)
  {
    var line := SavePrefix + payload;
    PrefixedStripped(SavePrefix, payload);
    StrippedStep(p, line);
  }

  /** A STATUS line puts its raw payload in the status text, a SONG line its payload after the preview label. */
  lemma StatusAndSongText(p: Panel, payload: string)
    requires payload == [] || !IsSpace(payload[|payload| - 1])
    ensures Step(p, Text(StatusPrefix + payload)) == Outcome(p.(statusText := payload), false)
    ensures Step(p, Text(SongPrefix + payload)) == Outcome(p.(statusText := PreviewLabel + payload), false)
  {
    StatusTextStep(p, payload);
    SongTextStep(p, payload);
  }

  lemma StatusTextStep(p: Panel, payload: string)
    requires payload == [] || !IsSpace(payload[|payload| - 1])
    ensures Step(p, Text(StatusPrefix + payload)) == Outcome(p.(statusText := payload), false)
  {
    var line := StatusPrefix + payload;
    assert line[1] == 'T';
    DiffersAt(line, SavePrefix, 1);
    PrefixedStripped(StatusPrefix, payload);
    StrippedStep(p, line);
  }

  lemma SongTextStep(p: Panel, payload: string)
    requires payload == [] || !IsSpace(payload[|payload| - 1])
    ensures Step(p, Text(SongPrefix + payload)) == Outcome(p.(statusText := PreviewLabel + payload), false)
  {
    var line := SongPrefix + payload;
    assert line[1] == 'O';
    DiffersAt(line, SavePrefix, 1);
    DiffersAt(line, StatusPrefix, 1);
    PrefixedStripped(SongPrefix, payload);
    StrippedStep(p, line);
  }

  /** A line that `strip()` leaves alone is handled as it arrived. */
  lemma StrippedStep(p: Panel, line: string)
    requires Strip(line) == line
    ensures Step(p, Text(line)) == LineStep(p, line)
  {
  }

  /**
   * One token that is not blank and not an integer makes `int()` raise; the
   * `except ValueError` skips the whole line, so none of its numbers are saved.
   */
  lemma BadTokenSkipsLine(p: Panel, payload: string, k: nat)
    requires Strip(payload) != []
    requires var ts := Split(Strip(payload), ',');
      k < |ts| && Strip(ts[k]) != [] && ParseInt(ts[k]).None?
    ensures SaveFrequencies(payload).None?
    ensures SaveStep(p, payload) == Outcome(p, false)
  {
    var ts := Split(Strip(payload), ',');
    var kept := KeepNonBlank(ts);
    KeepNonBlankKeeps(ts);
    assert ts[k] in ts;
    var j :| 0 <= j < |kept| && kept[j] == ts[k];
    assert ParseInt(kept[j]).None?;
  }

  /** Bytes that fail to decode, empty lines and lines of white space only change nothing. */
  lemma BlankLinesSkipped(p: Panel, raw: string)
    requires forall i :: 0 <= i < |raw| ==> IsSpace(raw[i])
    ensures Step(p, Undecodable) == Outcome(p, false)
    ensures Step(p, Text(raw)) == Outcome(p, false)
  {
    BlankStrips(raw);
  }

  /** A SAVE_SONG payload that is blank, or whose tokens are all blank, appends nothing. */
  lemma BlankSaveSkipped(p: Panel, payload: string)
    requires Strip(payload) == [] || SaveFrequencies(payload) == Some([])
    ensures SaveStep(p, payload) == Outcome(p, false)
  {
  }

  // ---------------------------------------------------------------------------
  // The session and the drain
  // ---------------------------------------------------------------------------

  /** The session state of 2.py. */
  class Session {
    var savedSongs: seq<SavedSong>
    var statusText: string

    function View(): Panel
      reads this
    {
      Panel(savedSongs, statusText)
    }

    predicate Valid()
      reads this
    {
      SongsNumbered(savedSongs)
    }

    /** The defaults: an empty playlist and an empty status text. */
    constructor ()
      ensures View() == Panel([], "")
      ensures Valid()
    {
      savedSongs := [];
      statusText := "";
    }

    /** One waiting line; `appended` is whether a song was added. */
    method HandleLine(line: RawLine) returns (appended: bool)
      modifies this
      ensures Step(old(View()), line) == Outcome(View(), appended)
    {
      appended := false;
      if line.Undecodable? {
        return;
      }
      var dataLine := Strip(line.text);
      if dataLine == [] {
        return;
      }
      if StartsWith(dataLine, SavePrefix) {
        var saved := SaveFrequencies(dataLine[|SavePrefix|..]);
        if saved.Some? && saved.value != [] {
          savedSongs := WithSong(savedSongs, saved.value);
          appended := true;
        }
      } else if StartsWith(dataLine, StatusPrefix) {
        statusText := dataLine[|StatusPrefix|..];
      } else if StartsWith(dataLine, SongPrefix) {
        statusText := PreviewLabel + dataLine[|SongPrefix|..];
      }
    }

    /**
     * `process_serial_data`: every waiting line in order; the result is true
     * exactly when the playlist grew.
     */
    method ProcessSerialData(waiting: seq<RawLine>) returns (updated: bool)
      requires Valid()
      modifies this
      ensures Valid()
      ensures Drain(old(View()), waiting) == Outcome(View(), updated)
      ensures updated <==> |savedSongs| > |old(savedSongs)|
    {
      DrainReportsGrowth(View(), waiting);
      updated := false;
      var k := 0;
      while k < |waiting|
        invariant 0 <= k <= |waiting|
        invariant Valid()
        invariant var rest := Drain(View(), waiting[k..]);
          Drain(old(View()), waiting) == Outcome(rest.panel, updated || rest.appended)
      {
        StepKeepsNumbering(View(), waiting[k]);
        DrainUnrolls(View(), waiting, k);
        var appended := HandleLine(waiting[k]);
        updated := updated || appended;
        k := k + 1;
      }
    }
  }
}
