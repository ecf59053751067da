/**
 * The newline-delimited text lines the joystick composer sends over the
 * serial link, written as an encoder: `STATUS:`, `SONG:` and `SAVE_SONG:`.
 * The dashboards are decoders of these lines; their modules prove that they
 * read back what the encoder wrote.
 */
module Protocol {
  import opened Options
  import opened PyText

  /** A line read from the port: its text, or bytes that are not valid UTF-8. */
  datatype RawLine = Text(text: string) | Undecodable

  const StatusPrefix := "STATUS:"
  const SongPrefix := "SONG:"
  const SavePrefix := "SAVE_SONG:"

  /** The five fields of a `STATUS:` line: playing flag, note count, display number, octave, note name. */
  datatype Reading = Reading(playing: bool, noteCount: int, displayNum: int, octave: int, noteName: string)

  /** The five fields of a `STATUS:` line as text; the flag is `1` while playing. */
  function StatusTexts(r: Reading): seq<string> {
    [if r.playing then "1" else "0", IntToString(r.noteCount), IntToString(r.displayNum),
     IntToString(r.octave), r.noteName]
  }

  /** The comma-separated payload of a `STATUS:` line. */
  function StatusPayload(r: Reading): string {
    Join(StatusTexts(r), ',')
  }

  /** The payload before the note name: four numeric fields, each followed by a comma. */
  function StatusNumerals(r: Reading): string {
    Join(StatusTexts(r)[..4], ',') + [',']
  }

  /** Splitting the payload gives back the five fields when the note name holds no comma. */
  lemma SplitStatusPayload(r: Reading)
    requires ',' !in r.noteName
    ensures Split(StatusPayload(r), ',') == StatusTexts(r)
  {
    var ps := StatusTexts(r);
    forall k | 0 <= k < 4 ensures ',' !in ps[k] {
      assert forall i :: 0 <= i < |ps[k]| ==> IsNumeralChar(ps[k][i]) && ps[k][i] != ',';
    }
    JoinSplit(ps, ',');
  }

  /** The payload is its numeric part followed by the note name, and the numeric part has no letter `S`. */
  lemma StatusPayloadShape(r: Reading)
    ensures StatusPayload(r) == StatusNumerals(r) + r.noteName
    ensures 'S' !in StatusNumerals(r)
  {
    var ps := StatusTexts(r);
    JoinLast(ps, ',');
    assert ps[..|ps| - 1] == ps[..4];
    var nums := ps[..4];
    assert forall k, i :: 0 <= k < |nums| && 0 <= i < |nums[k]| ==> IsNumeralChar(nums[k][i]);
    JoinNumerals(nums);
  }

  function StatusLine(r: Reading): string {
    StatusPrefix + StatusPayload(r)
  }

  /** The decimal tokens of a frequency list. */
  function Tokens(xs: seq<int>): (ts: seq<string>)
    ensures |ts| == |xs|
    ensures forall k :: 0 <= k < |xs| ==> ts[k] == IntToString(xs[k])
  {
    if xs == [] then [] else [IntToString(xs[0])] + Tokens(xs[1..])
  }

  /** A frequency list as the firmware writes it: decimal integers joined by commas. */
  function FormatInts(xs: seq<int>): string {
    Join(Tokens(xs), ',')
  }

  function SongLine(xs: seq<int>): string {
    SongPrefix + FormatInts(xs)
  }

  function SaveLine(xs: seq<int>): string {
    SavePrefix + FormatInts(xs)
  }

  /** Characters that a formatted number or list never contains. */
  lemma {:induction false} JoinNumerals(ps: seq<string>)
    requires forall k, i :: 0 <= k < |ps| && 0 <= i < |ps[k]| ==> IsNumeralChar(ps[k][i])
    ensures forall i :: 0 <= i < |Join(ps, ',')| ==> IsNumeralChar(Join(ps, ',')[i])
  {
    if |ps| > 1 {
      JoinNumerals(ps[1..]);
      var j := Join(ps, ',');
      assert j == ps[0] + [','] + Join(ps[1..], ',');
      forall i | 0 <= i < |j| ensures IsNumeralChar(j[i]) {
        if i < |ps[0]| {
          assert j[i] == ps[0][i];
        } else if i > |ps[0]| {
          assert j[i] == Join(ps[1..], ',')[i - |ps[0]| - 1];
        }
      }
    }
  }

  /** A formatted list consists of digits, minus signs and commas only. */
  lemma FormatIntsNumerals(xs: seq<int>)
    ensures forall i :: 0 <= i < |FormatInts(xs)| ==> IsNumeralChar(FormatInts(xs)[i])
  {
    JoinNumerals(Tokens(xs));
  }

  /** The tokens of a formatted list are the list's decimal strings, each `int()`-parsable. */
  lemma SplitFormatInts(xs: seq<int>)
    requires xs != []
    ensures Split(FormatInts(xs), ',') == Tokens(xs)
  {
    JoinSplit(Tokens(xs), ',');
  }

  /**
   * Round trip of a frequency list: `[int(f) for f in FormatInts(xs).split(",")]`
   * is `xs`, for every non-empty list.
   */
  lemma ParseFormatInts(xs: seq<int>)
    requires xs != []
    ensures ParseAll(Split(FormatInts(xs), ',')) == Some(xs)
  {
    SplitFormatInts(xs);
    var ts := Tokens(xs);
    forall k | 0 <= k < |ts| ensures ParseInt(ts[k]) == Some(xs[k]) {
      ParseIntToString(xs[k]);
    }
    assert ParseAll(ts).value == xs;
  }

  /** The prefix's first letter does not occur in a formatted list. */
  lemma FormatIntsHasNoS(xs: seq<int>)
    ensures 'S' !in FormatInts(xs)
  {
    FormatIntsNumerals(xs);
  }
  /** A prefixed line whose payload does not end in white space is left alone by `strip()`. */
  lemma PrefixedStripped(prefix: string, payload: string)
    requires prefix != [] && prefix[0] == 'S' && prefix[|prefix| - 1] == ':'
    requires payload == [] || !IsSpace(payload[|payload| - 1])
    ensures Strip(prefix + payload) == prefix + payload
    ensures (prefix + payload)[|prefix|..] == payload
    ensures StartsWith(prefix + payload, prefix)
  {
    var line := prefix + payload;
    assert line[..|prefix|] == prefix;
    assert line[0] == 'S';
    assert line[|line| - 1] == if payload == [] then ':' else payload[|payload| - 1];
    StripIdentity(line);
  }

  /** A formatted list never ends in white space. */
  lemma FormatIntsNoTrailingSpace(xs: seq<int>)
    ensures FormatInts(xs) == [] || !IsSpace(FormatInts(xs)[|FormatInts(xs)| - 1])
  {
    FormatIntsNumerals(xs);
    if FormatInts(xs) != [] {
      NumeralNotSpace(FormatInts(xs)[|FormatInts(xs)| - 1]);
    }
  }

  /** A `SONG:` line survives `strip()` and carries its list after the prefix. */
  lemma SongLineStripped(xs: seq<int>)
    ensures Strip(SongLine(xs)) == SongLine(xs)
    ensures SongLine(xs)[|SongPrefix|..] == FormatInts(xs)
  {
    FormatIntsNoTrailingSpace(xs);
    PrefixedStripped(SongPrefix, FormatInts(xs));
  }

  /** A `SAVE_SONG:` line survives `strip()` and carries its list after the prefix. */
  lemma SaveLineStripped(xs: seq<int>)
    ensures Strip(SaveLine(xs)) == SaveLine(xs)
    ensures SaveLine(xs)[|SavePrefix|..] == FormatInts(xs)
  {
    FormatIntsNoTrailingSpace(xs);
    PrefixedStripped(SavePrefix, FormatInts(xs));
  }

  /** A `STATUS:` line survives `strip()` when the note name does not end in white space. */
  lemma StatusLineStripped(r: Reading)
    requires r.noteName == [] || !IsSpace(r.noteName[|r.noteName| - 1])
    ensures Strip(StatusLine(r)) == StatusLine(r)
    ensures StatusLine(r)[|StatusPrefix|..] == StatusPayload(r)
  {
    StatusPayloadEnd(r);
    PrefixedStripped(StatusPrefix, StatusPayload(r));
  }

  /** The payload ends in the note name's last character, or in the comma before an empty name. */
  lemma StatusPayloadEnd(r: Reading)
    requires r.noteName == [] || !IsSpace(r.noteName[|r.noteName| - 1])
    ensures StatusPayload(r) != [] && !IsSpace(StatusPayload(r)[|StatusPayload(r)| - 1])
  {
    StatusPayloadShape(r);
    EndOfAppend(StatusNumerals(r), r.noteName);
    var nums := StatusNumerals(r);
    assert nums[|nums| - 1] == ',';
  }

  lemma EndOfAppend(a: string, b: string)
    requires a != []
    ensures (a + b)[|a + b| - 1] == if b == [] then a[|a| - 1] else b[|b| - 1]
  {
  }
}
