# kantanplay MIDI server: the MIDI output session

This project is a Dafny model of the MIDI output session of `kantanplay-midi-server.py`. The server exposes a few tools that open a MIDI output port and play notes and control changes through rtmidi. The model covers:

- **The session state.** This is the module-level `available_ports`, `selected_port_index` and `midi_port_opened`, plus whether rtmidi could be imported. It lives in the class `Session.MidiSession` (fields `ports`, `selected`, `portOpened`, `rtmidiAvailable`).
- **Startup.** When no port is found, a virtual port is opened.
- **The tools.** `open_midi_port`, `list_midi_ports`, `send_midi_note`, `send_midi_cc` and `send_midi_sequence`, and the close at process exit.
- **Transport effects as a trace.** What the transport does is recorded in the field `trace`: the rtmidi calls that returned (`Send`, `Open`, `OpenVirtual`, `Close`), in order, and every `time.sleep` as `Wait(seconds)`. Folds over a trace give:
  - the port handle the transport holds (`Trace.HandleAfter`);
  - the notes left sounding on MIDI channel 1 (`Trace.Sounding`);
  - the time spent waiting (`Trace.Duration`).
- **Independent readings.** The notes sounding are read through an independent decoder of MIDI 1.0 channel-voice messages (`Midi.Decode`, after the Channel Voice Messages section of the MIDI 1.0 Detailed Specification). So "Note Off is a Note On with velocity 0" is a proved fact about the encoders, not an assumption.
- **Transport inputs and failures as parameters.** The fresh result of `get_ports()` is a parameter. Whether `close_port` or `open_port` raises is a flag. `failAt` names the `send_message` call, counted from 0 within one tool call, that raises (if any).

Modules:

- `wrappers.dfy`: `Option`.
- `midi.dfy`: the messages the server builds and the decoder that characterises them.
- `trace.dfy`: events, the folds, sequence playback (`Playback`) and the truncation of a plan at a raising send (`Truncate`, `Attempt`).
- `session.dfy`: the session class and the specification functions of the sequence tool.

## Model

| member | source | states |
|---|---|---|
| Midi.NoteOnDecodes | kantanplay-midi-server.py:163-169 | the Note On `[0x90, n, 100]` is read as a channel-1 Note On of note n at velocity 100, exactly when n is in 0..127 |
| Midi.NoteOffDecodes | kantanplay-midi-server.py:174-176 | the velocity-0 Note On `[0x90, n, 0]` is read as a channel-1 Note Off of note n, exactly when n is in 0..127 |
| Midi.ControlChangeDecodes | kantanplay-midi-server.py:207-213 | `[0xB0, c, v]` is read as a channel-1 Control Change c = v, exactly when both are in 0..127 |
| Session.MidiSession.constructor | kantanplay-midi-server.py:56-75 | at startup nothing is selected. With rtmidi and no detected port, a virtual port is opened and the session is open. With detected ports, the session stays closed. Without rtmidi, nothing happens. The session invariant holds |
| Session.MidiSession.OpenMidiPort | kantanplay-midi-server.py:79-120 | the port list is refreshed (when rtmidi is available). An empty list or an index outside 0..len-1 reports an error and changes nothing else. Otherwise any open port (the virtual one included) is closed first, then port i is opened, leaving it selected and open with the transport holding exactly that port. A raising close or open leaves the session closed with nothing selected |
| Session.MidiSession.ListPorts | kantanplay-midi-server.py:124-140 | the listing reads state and changes none. It names a current port exactly when an index is selected, a port is open and the fresh list still holds that index, so the virtual port alone reports no selection. It never raises. When the open, selected port is past the end of the fresh list, it reports that index as selected but no longer enumerated. It agrees with the as-written listing wherever that does not raise |
| Session.ListingAsWritten | kantanplay-midi-server.py:124-140 | list_midi_ports as the code has it: when it answers with a list, that list is the fresh port list, and the current port it names is the selected index of an open session with that index's name in the fresh list. It never reports a selected port as no longer enumerated: that case raises (see `Session.ListingAsWrittenRaises`) |
| Session.ListingAsWrittenRaises | kantanplay-midi-server.py:129-136 | the listing as written raises exactly when rtmidi is available, the fresh list is non-empty, a port is selected and open, and its index is past the end of the fresh list |
| Session.UnpluggedPortRaises | kantanplay-midi-server.py:135-136 | open port 1 of ["A", "B"], then list with ["A"]: the listing as written raises |
| Session.MidiSession.Transmit | kantanplay-midi-server.py:169 | a `send_message` call either raises (it is the call `failAt` names) and records nothing, or records exactly its message |
| Session.MidiSession.Sleep | kantanplay-midi-server.py:172 | `time.sleep(d)` records one `Wait(d)` |
| Session.MidiSession.SendMidiNote | kantanplay-midi-server.py:144-180 | checks in order: rtmidi, open port, note in 0..127 (inclusive); any failed check sends nothing. Otherwise it records exactly Note On, wait 0.5, Note Off, cut at the raising send. It reports success only when both sends return, and then the note is no longer sounding and 0.5 s have passed. It never changes the port handle |
| Session.NotePlanEffect | kantanplay-midi-server.py:165-176 | a completed note silences its note, leaves every other note as it was, and lasts 0.5 s |
| Session.NoteOffRaiseLeavesNoteSounding | kantanplay-midi-server.py:167-180 | when the Note Off send raises, the note is left sounding and 0.5 s have passed |
| Session.MidiSession.SendMidiCc | kantanplay-midi-server.py:184-216 | checks in order: rtmidi, open port, controller, value, each in 0..127 (inclusive); any failed check sends nothing. Otherwise exactly one Control Change `[0xB0, c, v]` and no wait, reported as sent unless that send raises |
| Session.MidiSession.SendMidiSequence | kantanplay-midi-server.py:220-269 | checks rtmidi, open port, then bpm > 0, sending nothing when any fails. Otherwise the trace grows by the playback of the notes before the first invalid one (k), cut at the raising send. Success is reported only when k = len(notes) and nothing raised; an invalid note reports that note. `sent` is notes[..k], or the notes whose Note On returned. Without a transport error every sent note is silenced, and the port handle never changes |
| Session.MidiSession.PlayNotes | kantanplay-midi-server.py:245-269 | the loop over the notes: its trace, outcome and `sent_notes` are those of the sequence specification functions, whichever send raises |
| Session.MidiSession.PlayNote | kantanplay-midi-server.py:252-265 | one note: Note On, wait one step, Note Off, wait one step, stopped at the raising send, with `onSent` telling whether the Note On returned |
| Session.FirstInvalid | kantanplay-midi-server.py:248-250 | the index where the loop stops: every earlier note is in 0..127, and the note there (if any) is not |
| Session.SequencePlan | kantanplay-midi-server.py:246-265 | what the loop plays when nothing raises: the notes before the first invalid one, two sends each |
| Session.SequenceStoppedAt | kantanplay-midi-server.py:248-267 | a loop that reached note i with every send returning and stops there has played exactly notes[..i]. It reports the invalid note i, or success when i is the end, with `sent_notes` = notes[..i] |
| Session.SequenceRaisedAt | kantanplay-midi-server.py:252-269 | a raise at note i's Note On leaves notes[..i] played. A raise at its Note Off leaves notes[..i] played plus the Note On and one step of note i |
| Session.SequenceRaisedReport | kantanplay-midi-server.py:254-269 | such a raise reports a transport error, and `sent_notes` then holds the notes whose Note On returned |
| Session.SequenceKeepsHandle | kantanplay-midi-server.py:245-269 | whatever send raises, a sequence leaves the port handle as it was |
| Session.SequenceSilences | kantanplay-midi-server.py:248-265 | a sequence that plays its notes to the stop point leaves none of them sounding and changes nothing else |
| Session.MidiSession.Shutdown | kantanplay-midi-server.py:286-290 | at exit, an open port is closed (the transport then holds no port), and otherwise nothing happens |
| Trace.StepTimeIsHalfBeat | kantanplay-midi-server.py:241-243 | the step is positive for every bpm > 0, and two steps make one beat of 60/bpm seconds |
| Trace.StepTimeExamples | kantanplay-midi-server.py:243 | 60 bpm gives 0.5 s steps, 120 gives 0.25 s, 240 gives 0.125 s |
| Trace.Playback | kantanplay-midi-server.py:248-265 | a played sequence has four events and two sends per note |
| Trace.PlaybackAppend | kantanplay-midi-server.py:248-265 | the notes are played in order: playing xs then ys is playing xs + ys |
| Trace.PlaybackLayout | kantanplay-midi-server.py:252-265 | note i occupies events 4i..4i+3: Note On, wait, Note Off, wait |
| Trace.NoteStepEventsSound | kantanplay-midi-server.py:252-265 | within one played note, the note sounds after its Note On and through the hold, and is silenced by its Note Off |
| Trace.NoteStepEventsSilence | kantanplay-midi-server.py:252-265 | a played note ends silenced, whatever was sounding before |
| Trace.PlaybackSilences | kantanplay-midi-server.py:248-265 | a played sequence of valid notes removes exactly its notes from those sounding |
| Trace.PlaybackMonophonic | kantanplay-midi-server.py:248-265 | played from silence, at every point at most one note sounds: note j/4 during its on-and-hold half, none otherwise |
| Trace.PlaybackDuration | kantanplay-midi-server.py:243-265 | a played sequence waits one beat (60/bpm s) per note |
| Trace.PlaybackTransmits | kantanplay-midi-server.py:248-265 | playback only sends messages and waits: it never opens or closes a port |
| Trace.HandleAfterTransmissions | kantanplay-midi-server.py:167-176 | sends and waits leave the transport's port handle as it was |
| Trace.PlaybackTruncated | kantanplay-midi-server.py:245-269 | a raise at send j of a playback leaves notes[..j/2] played in full, plus the Note On and hold of note j/2 when j is odd (its Note Off raised) |
| Trace.TruncatePrefix | kantanplay-midi-server.py:167-180 | what a raising send leaves of a plan is a prefix of that plan |
| Trace.TruncateSendCount | kantanplay-midi-server.py:167-180 | when send j raises, exactly the j sends before it happened (all sends if the plan has fewer) |
| Trace.TruncateStopsAtSend | kantanplay-midi-server.py:167-180 | when send j exists, what happened stops right before it |
| Trace.TruncateComplete | kantanplay-midi-server.py:167-180 | when no send of the plan raises, the whole plan happens |
| Trace.TruncateAppend | kantanplay-midi-server.py:245-269 | a raise after a completed part of a plan leaves that part in full, followed by what the raise leaves of the rest |

## Left out

- Installing dependencies (the `subprocess` calls to uv and pip, and the import fallback) is not modelled. Only its result is kept, as `rtmidiAvailable`.
- The FastMCP server, tool registration and `mcp.run()` are not modelled. They are an RPC layer over a library outside the repository.
- `print` logging and the exact Japanese result strings are left out. Results are kinds of the `Outcome` datatype, and a listing is a `Listing`.
- rtmidi's `get_ports`, `open_port`, `open_virtual_port`, `send_message` and `close_port` are foreign code. The model sees only the port list they return, which calls raise, and the calls that returned.
- Real time is not modelled: `time.sleep(d)` is the event `Wait(d)`.
- The step time is the exact rational 60/bpm/2, not the source's floating-point value, so rounding is not modelled.
- Startup when `open_virtual_port` raises is not modelled. The exception would end module import, and no tool would exist.
- Shutdown: a raising `close_port` at process exit is not modelled. The close happens as the process ends, so Shutdown promises no session invariant afterwards.
- Notes that are not integers are not modelled. Python's `list` parameter of `send_midi_sequence` may hold floats or other values that compare with 0 and 127; the model takes integers.
- SendMidiSequence: `sent_notes` is returned as an out-parameter. The source only prints it inside the success text.
- SendMidiNote: does not promise that every Note On is followed by its Note Off: when the Note Off send raises, the note is left sounding (`Session.NoteOffRaiseLeavesNoteSounding`). A sequence whose Note Off raises likewise leaves its note sounding (`Session.SequenceRaisedAt` together with `Trace.PlaybackMonophonic`).
- `src/kantanplay-midi-server.ts` is not part of this model. It is a TypeScript port of the same tools that schedules its Note Offs with timers and checks ranges in schema declarations from a library outside the repository.
- `src/types/modelcontextprotocol.d.ts` is not part of this model. It holds type declarations only.

## Findings

| source | as written | input that shows it | evidently intended | confidence | as-written member | corrected member |
|---|---|---|---|---|---|---|
| kantanplay-midi-server.py:135-136 | the current port's name is looked up in the freshly fetched port list using `selected_port_index`, which was chosen from an older list | open port 1 while the ports are ["A", "B"]; unplug "B"; call list_midi_ports: `ports[1]` raises IndexError | report the selection without indexing past the fresh list (here: port 1 is selected but no longer enumerated) | not executed | Session.ListingAsWritten, Session.UnpluggedPortRaises | Session.MidiSession.ListPorts |
