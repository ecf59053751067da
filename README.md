# Joystick composer dashboards — a Dafny model

An Arduino joystick composer sends newline-terminated text lines over a
serial link:

- `STATUS:<playing>,<count>,<display>,<octave>,<note>` is the live reading;
- `SONG:<f1>,<f2>,...` is the song being composed;
- `SAVE_SONG:<f1>,<f2>,...` is a song the player asked to keep.

Five Streamlit pages read these lines. This project models what each page
does with them.

- **melody_creator.py** drains a queue filled by a listener thread. A STATUS
  line updates the live panel. A SAVE_SONG line becomes the *pending* melody
  when none is pending. The page also keeps:
  - a library of saved melodies, which can be renamed and deleted;
  - a four-slot sequencer.

  At the end of each run the page decides to rerun at once, to hold for user
  input, or to sleep and poll again.
- **3-6.py** is the earlier version of the same page. Its queue drain and
  session defaults are the same; it has no rename, no delete and no
  sequencer.
- **testUI4.py** loops over the port forever. For each line it updates the
  status panels, a live preview of the song being composed, or a playlist of
  numbered saved songs (`Song 1`, `Song 2`, ...).
- **2.py** drains the waiting lines on each run. SAVE_SONG lines append to
  the playlist. STATUS and SONG lines replace a status text.
- **2-1.py** drains the waiting lines with no error handling. A STATUS line
  rewrites an LCD mirror text. A SAVE_SONG line pushes a melody onto a
  stack. A short STATUS line raises `IndexError`. A SAVE_SONG field that is
  not an integer raises `ValueError`, and so does the empty payload.

The modules are:

- `PyText`: the Python string operations the pages use, on `seq<char>`:
  - `startswith`, `replace(p, "")`, `split(",")`, `strip()`, `isdigit()`;
  - `int(str)`, including a sign, single underscores between digits, and
    the white space `int()` itself skips at either end (the ASCII space,
    tab, line feed, vertical tab, form feed and carriage return, and the
    non-ASCII spaces). Unlike `strip()`, `int()` does not skip the
    separators U+001C to U+001F;
  - `str(int)`.
- `Protocol`: the firmware's line encoder, which the round-trip lemmas read
  back.
- `Playlist`: the numbered playlist shared by testUI4.py and 2.py.
- `ComposerQueue`: `process_queue` of melody_creator.py and 3-6.py, as
  functions and as the `LiveState` class. The class's
  `ProcessQueue` method is proved against the `Drain` function.
- `MelodyCreator` and `EarlyComposer`: the rest of those two pages, as
  `Session` classes.
- `LiveDashboard`: the testUI4.py loop body, as functions and the
  `Dashboard` class.
- `SerialDashboard`: `process_serial_data` of 2.py.
- `LcdComposer`: `read_arduino` of 2-1.py.

Where a page mutates `st.session_state`, the model is a class whose fields
are the session keys. Each method is proved to move those fields exactly as
a function of the old state says, and the lemmas state what those functions
guarantee.

## Model

| member | source | states |
|---|---|---|
| ComposerQueue.LiveState.ProcessQueue | melody_creator.py:87-110 | The method consumes the queue in FIFO order. It ends in the state the `Drain` function gives, with the rerun flag it gives. On an uncaught `int()` error it stops, with the later lines still queued and the earlier writes kept. It keeps "a pending melody has a name". |
| ComposerQueue.LiveState.HandleLine | melody_creator.py:91-109 | One loop pass: a STATUS branch, a SAVE_SONG branch taken only while nothing is pending, and no change for any other line. |
| ComposerQueue.LiveState.HandleStatus | melody_creator.py:91-101 | The STATUS branch. Fewer than five fields changes nothing. Otherwise the playing flag is written first, then `int()` of the count and of the display, either of which may raise after the earlier writes. Then the info text is written. |
| ComposerQueue.LiveState.HandleSave | melody_creator.py:102-109 | The SAVE_SONG branch. It raises, before any write, when a token passes the filter but not `int()`. Otherwise a non-empty filtered list becomes the pending melody, a default name is set only when none exists, and the capture is reported. |
| ComposerQueue.LiveState.constructor | melody_creator.py:146-150 | The session defaults for the live keys: not playing, counts 0, the waiting text, nothing pending. |
| ComposerQueue.LineQueue.Get | melody_creator.py:90 | `q.get()` returns the oldest line and removes it. |
| ComposerQueue.LineQueue.Empty | melody_creator.py:89 | `q.empty()` is true exactly when no line is left. |
| ComposerQueue.DigitNotes | melody_creator.py:104 | The filter `[int(n) for n in ... if n.strip().isdigit()]` keeps at most as many notes as there are tokens. |
| ComposerQueue.StatusEffect | melody_creator.py:91-101 | A short STATUS line changes nothing. With valid numbers it sets the four live fields, with the info text chosen by the playing flag. With a bad number it raises after writing the flag. It never touches the pending capture. |
| ComposerQueue.StatusIgnoresExtraFields | melody_creator.py:93-94 | Fields after the fifth are ignored: two lines that agree on the first five fields act alike. |
| ComposerQueue.StatusLineRead | melody_creator.py:91-101 | Round trip: a firmware STATUS line for any reading (note name without comma or prefix) sets the live fields to that reading. |
| ComposerQueue.StatusScenario | melody_creator.py:91-99 | Example of `StatusLineRead`: `STATUS:1,12,7,4,C4` sets playing, count 12, display 7 and the text `재생 시간: 7초`. |
| ComposerQueue.ApplySave | melody_creator.py:102-109 | With nothing pending, a SAVE_SONG line raises exactly when some token passes `n.strip().isdigit()` but not `int()`, and it then changes nothing. It captures exactly when nothing raises and the filtered notes are non-empty, and those notes become the pending melody. A name already present is kept; otherwise the default name is set. Nothing but the pending melody and its name changes. |
| ComposerQueue.ApplyStatus | melody_creator.py:91-101 | A STATUS line never captures and never touches the pending melody or its name. When it raises, the playing flag has been written but the display number and info text have not. |
| ComposerQueue.ApplyLine | melody_creator.py:91-109 | A capture happens only when nothing was pending, and never together with a raise. Only a STATUS line, or a SAVE_SONG line while nothing is pending, can raise. A pending melody and its name are never changed. |
| ComposerQueue.Drain | melody_creator.py:89-110 | A drain that raises leaves fewer lines queued than it was given. A pending melody survives any drain. A rerun request means a melody is pending at the end. |
| ComposerQueue.RaiseStopsDrain | melody_creator.py:89-104 | A drain that raises stops at the failing line. The lines before it drain without error, that line raises from the state they leave, the drain ends in the state the raise leaves, and the later lines stay queued. |
| ComposerQueue.SeparatorTokenRaises | melody_creator.py:104 | The token `"\x1c5"` passes `n.strip().isdigit()`, but `int()` rejects it. |
| ComposerQueue.UnreadableTokenRaises | melody_creator.py:102-104 | With nothing pending, a SAVE_SONG line holding such a token raises and changes nothing. |
| ComposerQueue.NumeralsNeverRaise | melody_creator.py:104 | The decimal tokens of any list of numbers never make the comprehension raise. |
| ComposerQueue.SaveLineCaptured | melody_creator.py:102-109 | Round trip: a firmware SAVE_SONG line for a non-empty list of non-negative frequencies becomes exactly that pending melody. |
| ComposerQueue.SaveScenario | melody_creator.py:102-109 | Example of `SaveLineCaptured`: `SAVE_SONG:440,0,523,523` captures `[440, 0, 523, 523]`. |
| ComposerQueue.DigitNotesAppend | melody_creator.py:104 | The filter decides each token on its own: it distributes over concatenation. |
| ComposerQueue.DigitNotesNonNegative | melody_creator.py:104 | Every note that passes the filter is non-negative. |
| ComposerQueue.NegativeDropped | melody_creator.py:104 | A negative frequency's token never passes `isdigit()`. |
| ComposerQueue.BlankDropped | melody_creator.py:104 | Blank tokens are dropped. |
| ComposerQueue.NatTokenKept | melody_creator.py:104 | The token of a non-negative number is kept as that number. |
| ComposerQueue.DigitNotesOfNats | melody_creator.py:104 | On the tokens of a list of non-negative numbers the filter returns the list. |
| ComposerQueue.TokenNoteValue | melody_creator.py:104 | A token passes the filter exactly when it is all ASCII digits after `strip()`. A token that passes is either read as its digits' value or makes `int()` raise. A token that does not pass contributes nothing and never raises. |
| ComposerQueue.OtherLinesIgnored | melody_creator.py:91-102 | A line with neither prefix changes nothing. |
| ComposerQueue.SongLineIgnored | melody_creator.py:91-102 | A `SONG:` line changes nothing on this page. |
| ComposerQueue.LineFacts | melody_creator.py:102-109 | One line captures exactly when nothing was pending, the line is a SAVE_SONG line, no token makes `int()` raise, and the filtered notes are non-empty. Otherwise the pending melody and name are untouched. |
| ComposerQueue.PendingIsNeverOverwritten | melody_creator.py:102 | While a melody is pending, no drain changes it or its name, and none asks for a rerun. |
| ComposerQueue.RerunIffCaptured | melody_creator.py:88-110 | `process_queue` returns true exactly when it created the pending melody. |
| ComposerQueue.FirstCaptureWins | melody_creator.py:102-109 | Starting from nothing pending, the first capturing SAVE_SONG line of a drain wins. |
| ComposerQueue.AtMostOneCapture | melody_creator.py:102-109 | A drain captures at most once, and never while a melody is pending. |
| ComposerQueue.PendingNotesNonNegative | melody_creator.py:104-106 | A pending melody created by a drain is non-empty and holds no negative note. |
| ComposerQueue.PendingHasName | melody_creator.py:106-108 | A drain keeps "a pending melody has a name". |
| MelodyCreator.Session.constructor | melody_creator.py:145-156 | Defaults: the loaded library, the live defaults, four empty slots, no rename open. |
| MelodyCreator.Session.EditPendingName | melody_creator.py:183 | The name box edits the pending name only. |
| MelodyCreator.Session.Commit | melody_creator.py:185-197 | The pending melody is inserted at the head of the library under the form's name, and the library is written. The pending melody and its name are cleared. Slots and rename mode are unchanged. |
| MelodyCreator.Session.StartRename | melody_creator.py:270-272 | The rename button puts that entry in rename mode and changes nothing else. |
| MelodyCreator.Session.Rename | melody_creator.py:225-237 | Slots naming the entry follow the new name. Only that entry's name changes, the library is written, and rename mode ends. |
| MelodyCreator.Session.Delete | melody_creator.py:275-290 | Slots naming the entry are emptied, and none names it afterwards. The entry is removed with the others kept in order, and the library is written. The rename index is untouched. |
| MelodyCreator.Session.AssignSlot | melody_creator.py:247-258 | Slot button k sets slot k to the entry's name and nothing else. |
| MelodyCreator.Session.ClearSlots | melody_creator.py:326-331 | All four slots become empty and nothing else changes. |
| MelodyCreator.Session.BuildSequence | melody_creator.py:310-318 | The play sequence is the four slots' notes in order. Each slot contributes the notes of the last library entry with its name, or nothing if it is empty or unknown. |
| MelodyCreator.Cascade | melody_creator.py:228-231 | The slot cascade replaces every slot equal to the old name and keeps the others. |
| MelodyCreator.CascadeRemoves | melody_creator.py:278-281 | After deleting, no slot holds the deleted name. |
| MelodyCreator.CascadeKeepsOthers | melody_creator.py:228-231 | A cascade leaves every other name's presence in the slots unchanged. |
| MelodyCreator.LastWithName | melody_creator.py:208 | Finds the last library entry with a name, or reports that none has it. |
| MelodyCreator.MelodyMap | melody_creator.py:208 | Every library name is a key. Every key is the name of some entry and maps to that entry's notes. The last entry's notes win for its name. |
| MelodyCreator.ReferenceNotes | melody_creator.py:316-317 | The empty slot, and a name no entry has, contribute nothing. Any notes contributed are the notes of an entry with that name. |
| MelodyCreator.ReferenceSequence | melody_creator.py:311-317 | With every slot empty the sequence is empty. Every note of the sequence belongs to some library entry. |
| MelodyCreator.SlotNotes | melody_creator.py:317 | `melody_map.get(name, [])` gives nothing for the empty slot or an unknown name. Any notes it gives are the map's entry for that name. |
| MelodyCreator.MelodyMapLookup | melody_creator.py:208 | The name map holds exactly the library's names. Each maps to the notes of the last entry with that name. |
| MelodyCreator.SlotNotesMatch | melody_creator.py:317 | `melody_map.get(name, [])` equals the reference contribution of a slot. |
| MelodyCreator.FourSlots | melody_creator.py:314-317 | The reference sequence of four slots is their four contributions in order. |
| MelodyCreator.Decide | melody_creator.py:336-344 | Rerun now iff the drain captured. Otherwise hold while a melody is pending or a rename is open. Otherwise sleep and rerun. |
| MelodyCreator.RefreshAfterDrain | melody_creator.py:336-344 | After a full drain: an earlier pending melody means hold. An immediate rerun happens iff the drain captured. Polling continues iff nothing is pending and no rename is open. |
| EarlyComposer.Session.constructor | 3-6.py:136-141 | Defaults: the loaded library, the live defaults. |
| EarlyComposer.Session.EditPendingName | 3-6.py:168-171 | The name box edits the pending name only. |
| EarlyComposer.Session.Commit | 3-6.py:174-188 | The pending melody is inserted at the head under the form's name, and the library is written. The pending melody and its name are cleared. |
| EarlyComposer.Decide | 3-6.py:217-229 | Rerun now iff captured. Otherwise hold while pending. Otherwise sleep and rerun. |
| EarlyComposer.SameDecisionWithoutRename | 3-6.py:217-229 | With no rename open, the decision equals melody_creator.py's. |
| EarlyComposer.RefreshAfterDrain | 3-6.py:217-229 | After a full drain: an earlier pending melody means hold. An immediate rerun happens iff captured. Polling continues iff nothing is pending. |
| LiveDashboard.Dashboard.HandleArrival | testUI4.py:147-245 | One loop pass moves the script state exactly as `Step` says, and keeps the playlist numbered. |
| LiveDashboard.Dashboard.HandleStatus | testUI4.py:156-172 | The STATUS branch moves the state as `StatusStep` says. |
| LiveDashboard.Dashboard.HandleSong | testUI4.py:175-197 | The SONG branch moves the state as `SongStep` says. |
| LiveDashboard.Dashboard.HandleSave | testUI4.py:200-235 | The SAVE_SONG branch moves the state as `SaveStep` says. |
| LiveDashboard.Dashboard.Consume | testUI4.py:147-153 | A stretch of the endless loop moves the state as `Run` says, stopping when an uncaught exception ends it, and keeps the playlist numbered. |
| LiveDashboard.Dashboard.constructor | testUI4.py:134-143 | The start: empty current song, nothing rendered, empty playlist, initial panels, loop running. |
| LiveDashboard.ParseStatus | testUI4.py:157-163 | A payload is a reading iff it has exactly five fields and count, display and octave are integers. The reading's playing flag is whether the first field is `"1"`. Its count, display and octave are `int()` of the second, third and fourth fields. Its note name is the fifth field. |
| LiveDashboard.ParseFrequencies | testUI4.py:176-180 | The empty payload, and only it, gives the empty list. Any other payload gives exactly `int()` of each comma field, or nothing if one field is not an integer. |
| LiveDashboard.StatusStep | testUI4.py:156-172 | A STATUS payload changes only the status panels and whether the loop has ended. The panels change only to the parsed reading, and always do when the payload parses. The loop ends iff the payload parses to a count outside 0..MAX_NOTES, which the progress bar rejects. |
| LiveDashboard.SongStep | testUI4.py:175-197 | A SONG payload that does not parse changes nothing. One that parses becomes the current song. The playlist and status panels are untouched. |
| LiveDashboard.Redraw | testUI4.py:182-197 | A song equal to the last rendered one changes nothing. The remembered song changes only to the current song, and does so after a successful render or for the empty song. A changed preview shows the empty notice, the score, or the failure warning, as the case requires. |
| LiveDashboard.SaveStep | testUI4.py:200-231 | A save never changes the current song, the remembered song or the status panels. The playlist changes iff the payload is non-empty and parses, and then gets exactly the parsed list as its next song, with the saved notice shown. Otherwise nothing changes. |
| LiveDashboard.LineStep | testUI4.py:150-231 | An empty line changes nothing. Only a STATUS line changes the status panels, only a SONG line the current song, and only a SAVE_SONG line the playlist, by at most one entry. |
| LiveDashboard.Step | testUI4.py:147-245 | An undecodable line changes nothing. The playlist changes only for a decoded line whose stripped text starts with `SAVE_SONG:`, and by at most one entry. |
| LiveDashboard.Run | testUI4.py:147-245 | A stretch of the loop never shrinks the playlist and adds at most one song per arrival. Once the loop has ended, later arrivals change nothing. |
| LiveDashboard.BlankLinesSkipped | testUI4.py:150-153 | Undecodable, empty and blank lines change nothing. |
| LiveDashboard.StatusPayloadRead | testUI4.py:157-163 | Round trip: a firmware STATUS payload parses back to its reading. |
| LiveDashboard.WrongFieldCountIgnored | testUI4.py:158 | A STATUS payload with other than five fields changes nothing. |
| LiveDashboard.BadStatusNumberIgnored | testUI4.py:158-162 | A non-integer count, display or octave is caught and changes nothing. |
| LiveDashboard.StatusLineShown | testUI4.py:156-172 | A firmware STATUS line shows exactly its reading. It changes nothing else, except that a count outside 0..MAX_NOTES ends the loop. |
| LiveDashboard.CountOutOfRangeEndsLoop | testUI4.py:156-172 | A firmware STATUS line with a count outside 0..MAX_NOTES shows its reading and ends the loop, so no later line is handled. |
| LiveDashboard.FrequenciesRead | testUI4.py:176-180 | Round trip: the firmware's frequency payload for any list, empty included, parses back to it. |
| LiveDashboard.SongLineShown | testUI4.py:175-180 | A firmware SONG line makes its list the current song. |
| LiveDashboard.BadSongIgnored | testUI4.py:176-180 | A SONG payload with a non-integer field changes nothing. |
| LiveDashboard.SameSongNotRedrawn | testUI4.py:182-184 | A song equal to the last rendered one only updates the current song. The preview is not redrawn. |
| LiveDashboard.RememberedOnlyWhenDrawn | testUI4.py:184-197 | The last-rendered song changes only when a song was drawn or the empty notice was shown. A failed render leaves it as it was. |
| LiveDashboard.SaveKeepsNumbering | testUI4.py:213-222 | A save appends at the end, keeps earlier entries and keeps `Song k` numbering. |
| LiveDashboard.EmptyOrBadSaveIgnored | testUI4.py:203-213 | An empty SAVE_SONG payload or a non-integer field appends nothing. |
| LiveDashboard.SavePayloadAppended | testUI4.py:203-222 | Round trip: a non-empty frequency payload is appended as the next numbered song with exactly those frequencies. |
| LiveDashboard.SaveLineAppended | testUI4.py:200-222 | A firmware SAVE_SONG line with at least one note appends its list as the next numbered song. |
| LiveDashboard.RunKeepsNumbering | testUI4.py:147-245 | Any stretch of the loop keeps the playlist numbered and only appends to it. |
| LiveDashboard.OnlySavesTouchPlaylist | testUI4.py:156-222 | Only a SAVE_SONG line changes the playlist. |
| Playlist.WithSong | testUI4.py:215-222 | Appending keeps earlier entries, stores the frequencies in the new last entry, and keeps the `Song {i+1}` numbering. |
| SerialDashboard.Session.ProcessSerialData | 2.py:53-89 | The drain moves the state as `Drain` says. It returns true exactly when the playlist grew, and keeps the numbering. |
| SerialDashboard.Session.HandleLine | 2.py:56-87 | One waiting line moves the state as `Step` says and reports an append. |
| SerialDashboard.Session.constructor | 2.py:20-24 | Defaults: empty playlist, empty status text. |
| SerialDashboard.KeepNonBlank | 2.py:69 | The blank-token filter never grows the list. |
| SerialDashboard.KeepNonBlankKeeps | 2.py:69 | The filter keeps exactly the tokens that are not blank. |
| SerialDashboard.KeepNonBlankAppend | 2.py:69 | The filter distributes over concatenation. |
| SerialDashboard.BlankTokenIgnored | 2.py:69 | A blank token anywhere in the payload is ignored. |
| SerialDashboard.NonBlankKept | 2.py:69 | Non-blank tokens pass unchanged. |
| SerialDashboard.SaveFrequencies | 2.py:66-74 | A blank payload gives nothing. Otherwise the result is `int()` of each non-blank comma field of the stripped payload, or nothing if one of them is not an integer. A parsed list is no longer than the split. |
| SerialDashboard.SaveFrequenciesRead | 2.py:66-72 | Round trip: a firmware frequency payload parses back to its list. |
| SerialDashboard.SaveStep | 2.py:65-79 | A save appends iff the payload parses to a non-empty list, and then the playlist gets exactly that list as its next numbered song with nothing else changed. Otherwise nothing changes. The numbering is kept. |
| SerialDashboard.Step | 2.py:56-87 | Undecodable bytes change nothing. A line that appends is a decoded line starting with `SAVE_SONG:` after stripping, and it adds exactly one entry; any other line leaves the playlist alone. |
| SerialDashboard.Drain | 2.py:53-89 | The drain never shrinks the playlist. Without an append the playlist is unchanged; with one it has grown. |
| SerialDashboard.BadTokenSkipsLine | 2.py:69-74 | One non-blank token that is not an integer makes the whole SAVE_SONG line be skipped: none of its numbers are saved. |
| SerialDashboard.BlankLinesSkipped | 2.py:56-62 | Bytes that fail to decode, empty lines and lines of white space only change nothing. |
| SerialDashboard.LineStep | 2.py:61-87 | Only a SAVE_SONG line changes the playlist, by one appended entry, and the numbering is kept. |
| SerialDashboard.SaveLineAppended | 2.py:65-79 | A firmware SAVE_SONG line with at least one note appends its list as the next numbered song. |
| SerialDashboard.BlankSaveSkipped | 2.py:66-76 | A blank payload, or one whose tokens are all blank, appends nothing. |
| SerialDashboard.StatusAndSongText | 2.py:82-87 | A STATUS line sets the status text to its raw payload. A SONG line sets it to the preview label followed by its payload. |
| SerialDashboard.DrainReportsGrowth | 2.py:54-89 | The drain's flag is true exactly when the playlist grew. The drain only appends numbered entries. |
| LcdComposer.Session.ReadArduino | 2-1.py:30-40 | The read moves the state as `Read` says: lines in order until one raises, with the earlier effects kept. |
| LcdComposer.Session.HandleLine | 2-1.py:33-39 | One line moves the state as `LineEffect` says. A line that raises changes nothing. |
| LcdComposer.Session.constructor | 2-1.py:11-16 | Defaults: empty stack, empty current melody, empty LCD text. |
| LcdComposer.LineEffect | 2-1.py:33-39 | Only STATUS or SAVE_SONG lines can raise. Only SAVE_SONG touches the stack: it pushes one melody and clears the current one. |
| LcdComposer.OtherLinesIgnored | 2-1.py:31-39 | A waiting line that, stripped, starts with neither `STATUS:` nor `SAVE_SONG:` runs neither branch: the LCD text, the stack and the current melody all stay, and the read goes on. |
| LcdComposer.StatusFieldGuard | 2-1.py:34-35 | A STATUS line raises `IndexError` iff it has fewer than five fields. |
| LcdComposer.LcdShowsReading | 2-1.py:33-35 | A firmware STATUS line sets the LCD text to the count, octave and note name of its reading. |
| LcdComposer.SavePushesMelody | 2-1.py:36-39 | A firmware SAVE_SONG line with at least one note pushes exactly its list and clears the current melody. |
| LcdComposer.EmptySaveRaises | 2-1.py:37 | An empty SAVE_SONG payload raises `ValueError`. |
| LcdComposer.BadSaveFieldRaises | 2-1.py:37 | Any non-integer field raises `ValueError`. |
| LcdComposer.ReadStopsAtFailure | 2-1.py:31-37 | A read that raises stops at the failing line. The lines before it read through without error to the state the read ends in, the failing line raises the reported exception from that state, and exactly the later lines stay unread. |
| LcdComposer.Read | 2-1.py:30-39 | A read that raises leaves fewer lines unread than it was given. The stack never shrinks and grows by at most one melody per line. |
| LcdComposer.LcdText | 2-1.py:35 | The LCD text starts with `Notes:`, ends with the note name, and is the count, octave and note name plus 17 fixed characters. |
| LcdComposer.ReadOnlyPushes | 2-1.py:31-39 | A read, finished or not, only pushes melodies on top of the stack. |
| Protocol.ParseFormatInts | 2-1.py:37 | Round trip: `int()` of each comma field of a formatted non-empty list gives the list back. |
| Protocol.SplitStatusPayload | testUI4.py:157 | Splitting a STATUS payload gives its five fields back when the note name has no comma. |
| Protocol.StatusLineStripped | testUI4.py:150 | A firmware STATUS line survives `strip()` when the note name does not end in white space. |
| Protocol.SaveLineStripped | testUI4.py:150 | A firmware SAVE_SONG line survives `strip()`. |
| PyText.ParseIntToString | testUI4.py:160 | `int(str(n)) == n` for every integer. |
| PyText.SeparatorNotSkipped | melody_creator.py:104 | `"\x1c5".strip()` is all digits, yet `int("\x1c5")` fails: `int()` does not skip the separators U+001C to U+001F that `strip()` removes. |
| PyText.ParseIntStrips | testUI4.py:160 | Whenever `int()` accepts a string, the white space it skipped is exactly what `strip()` removes. |
| PyText.JoinSplit | testUI4.py:157 | Splitting a join of comma-free pieces gives the pieces back. |
| PyText.SplitJoin | testUI4.py:176 | Joining a split gives the string back. |
| PyText.SplitEmptyOnly | testUI4.py:177 | `s.split(",") == [""]` exactly when `s` is empty. |
| PyText.ParseAll | 2-1.py:37 | The comprehension succeeds iff every token parses. The results agree with `int()` element by element. |
| PyText.Strip | testUI4.py:150 | `strip()` is never longer and leaves no white space at either end. |
| PyText.StripIdentity | testUI4.py:150 | `strip()` is the identity exactly when neither end is white space. |

## Left out

- The serial port, the listener thread, `queue.Queue` timing and reconnects
  are not modelled. Lines are given as a finite sequence. A line that does
  not decode as UTF-8 is the value `Undecodable`. Lines read with
  `errors='ignore'` are taken as the already decoded text.
- The endless loop of testUI4.py is modelled over a finite stretch of
  arrivals (`Run`, `Consume`).
- The Streamlit reruns themselves are not modelled, and neither is the
  autorefresh of 2-1.py (`st_autorefresh` at 2-1.py:75). For melody_creator.py
  and 3-6.py only the choice between rerunning now, holding and sleeping is
  modelled (`Decide`). In 2-1.py an exception from `read_arduino()` at line
  74 ends the run before `st_autorefresh` at line 75 is reached; the model
  reports that exception (`Raised`) and does not model what follows.
- ComposerQueue.LiveState.ProcessQueue: lines that arrive while a drain is
  running are not modelled. The queue holds the lines present at the start.
- `datetime.now()` is a parameter: `clock` (HHMMSS) for the default pending
  name, and `createdAt` for a saved melody. One clock reading per drain is
  enough, because a drain captures at most once (`AtMostOneCapture`).
- MIDI rendering in testUI4.py (`create_and_save_score_audio`, music21, the
  file-exists check) is a given boolean per arrival, `renderOk`. Audio
  playback (`play_melody`, simpleaudio, pygame, progress bars) is left out.
  `BuildSequence` returns the sequence that would be played.
- `hash(tuple(...))` in testUI4.py is modelled as equality of the lists, so
  hash collisions are not modelled.
- The JSON file of melody_creator.py and 3-6.py is the ghost field `saved`,
  set to the list that `save_melodies` would write. `load_melodies` is the
  constructor's parameter.
- Streamlit widgets, toasts, metrics, `st.success`/`st.warning` messages and
  the sidebar redraw are not modelled. Their inputs (the panel state, the
  appended flag) are.
- LiveDashboard.Board.status: the STATUS panels are modelled as the last
  reading shown. The progress fraction `note_count / MAX_NOTES` (a float) is
  not modelled as a value. What it causes is: `st.progress` rejects a
  fraction outside [0.0, 1.0] with an exception that neither `except` clause
  at testUI4.py:238-245 catches. So a count outside 0..MAX_NOTES ends the
  loop (`halted`), after the metrics are shown. What happens to the script
  after that is not modelled.
- PyText.ParseInt: `int()` is modelled for ASCII digits, a sign, single
  underscores between digits and the white space it skips. Non-ASCII
  Unicode decimal digits, which Python also accepts, are not modelled: the
  model rejects them where Python reads a number.
- PyText.IsDigits: `isdigit()` is modelled for ASCII digits only. Python's
  `isdigit()` also accepts other Unicode digits, such as `'²'`, which
  `int()` then rejects. In melody_creator.py:104 such a token makes the
  comprehension raise, but the model drops it.
- TokenNoteValue: for the reason above, a token made of non-ASCII digits is
  dropped by the model, where the source either raises or keeps its value.
- MelodyCreator.Session.Delete: as in the source, deleting an entry leaves
  `editing_melody_index` as it was. Deleting an entry above the one being
  renamed makes the index point at the next entry. The model keeps this.
- Slot buttons, rename and delete are operations on one entry at a time,
  each followed by a rerun. Pressing several buttons in one run is not
  modelled.
- MelodyCreator.Session.Commit and EarlyComposer.Session.Commit require a
  pending name. The name box is keyed on `pending_melody_name`, which the
  capture always sets (`PendingHasName`).
