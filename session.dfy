/**
 * The MIDI output session of the kantanplay server: the module-level state
 * (rtmidi availability, the last port list fetched, the selected port index,
 * whether a port is open) and the tools that read and change it. Calls into
 * the rtmidi transport are recorded in `trace`; their inputs (the fresh port
 * list, which call raises) are parameters.
 */
module Session {
  import opened Wrappers
  import opened Midi
  import opened Trace

  /** What a tool reports, by kind, in place of the server's result text. */
  datatype Outcome =
    | Unavailable                       // rtmidi could not be imported
    | NoPorts                           // the fresh port list is empty
    | IndexOutOfRange(count: nat)       // valid indices are 0..count-1
    | Opened(index: nat, name: string)
    | OpenFailed                        // close_port or open_port raised
    | NotOpen
    | InvalidNote(note: int)
    | InvalidController(controller: int)
    | InvalidValue(value: int)
    | InvalidTempo(bpm: int)
    | NoteSent(note: int)
    | ControlSent(controller: int, value: int)
    | SequenceSent(bpm: int, notes: seq<int>)
    | TransportError                    // send_message raised

  /** The selection line of a port listing. */
  datatype Selection =
    | NotSelected
    | Current(index: nat, name: string)
    | Unlisted(index: nat)              // the selected port is no longer enumerated

  /** What list_midi_ports reports. */
  datatype Listing =
    | ListingUnavailable
    | NoPortsListed
    | Listed(ports: seq<string>, selection: Selection)
    | IndexError                        // the tool raised instead of answering

  /**
   * list_midi_ports as the source writes it: the name of the current port is
   * looked up in the fresh port list, so a selected port that has since
   * disappeared raises an index error.
   */
  function ListingAsWritten(available: bool, found: seq<string>, selected: Option<nat>, portOpened: bool): (r: Listing)
    ensures r.Listed? ==> r.ports == found && !r.selection.Unlisted?
    ensures r.Listed? && r.selection.Current? ==>
      && selected == Some(r.selection.index) && portOpened
      && r.selection.index < |found| && r.selection.name == found[r.selection.index]
  {
    if !available then ListingUnavailable
    else if found == [] then NoPortsListed
    else if selected.Some? && portOpened then
      (if selected.value < |found| then Listed(found, Current(selected.value, found[selected.value]))
       else IndexError)
    else Listed(found, NotSelected)
  }

  /** The as-written listing raises exactly when the open port is missing from the fresh list. */
  lemma ListingAsWrittenRaises(available: bool, found: seq<string>, selected: Option<nat>, portOpened: bool)
    ensures ListingAsWritten(available, found, selected, portOpened) == IndexError <==>
      available && found != [] && selected.Some? && portOpened && selected.value >= |found|
  {
  }

  /** Port 1 of ["A", "B"] was opened, then "B" was unplugged: the listing raises. */
  lemma UnpluggedPortRaises()
    ensures ListingAsWritten(true, ["A"], Some(1), true) == IndexError
  {
  }

  class MidiSession {
    /** Whether rtmidi could be installed and imported at startup. */
    const rtmidiAvailable: bool
    /** The port list fetched last (at startup or by open_midi_port). */
    var ports: seq<string>
    var selected: Option<nat>
    var portOpened: bool
    /** Completed transport calls and pauses, oldest first. */
    var trace: seq<Event>

    /**
     * The session is never half open, and the flags agree with the handle the
     * transport was last told to hold: the selected port, or the virtual port
     * when a port is open with no index selected.
     */
    ghost predicate Valid()
      reads this
    {
      && (selected.Some? ==> portOpened)
      && (portOpened ==> rtmidiAvailable && HandleAfter(trace) == ExpectedHandle(selected))
      && (!rtmidiAvailable ==> trace == [])
    }

    static function ExpectedHandle(selected: Option<nat>): Handle {
      if selected.Some? then PortHandle(selected.value) else VirtualHandle
    }

    /**
     * Startup: with rtmidi available, fetch the ports; when there are none,
     * open a virtual port, which leaves no index selected.
     */
    constructor (rtmidiAvailable: bool, detected: seq<string>)
      ensures Valid()
      ensures this.rtmidiAvailable == rtmidiAvailable
      ensures selected == None
      ensures ports == (if rtmidiAvailable then detected else [])
      ensures portOpened == (rtmidiAvailable && detected == [])
      ensures trace == (if rtmidiAvailable && detected == [] then [OpenVirtual] else [])
    {
      this.rtmidiAvailable := rtmidiAvailable;
      ports := [];
      selected := None;
      portOpened := false;
      trace := [];
      if rtmidiAvailable {
        ports := detected;
        if detected == [] {
          trace := trace + [OpenVirtual];
          portOpened := true;
        }
      }
    }

    /**
     * open_midi_port: refresh the port list, check the index, close any open
     * port, then open port `index`. `closeFails` and `openFails` say whether
     * close_port and open_port raise; either resets the session to closed.
     */
    method OpenMidiPort(index: int, found: seq<string>, closeFails: bool, openFails: bool) returns (r: Outcome)
      requires Valid()
      modifies this
      ensures Valid()
      ensures !rtmidiAvailable ==> r == Unavailable && ports == old(ports)
      ensures rtmidiAvailable ==> ports == found
      ensures !(rtmidiAvailable && 0 <= index < |found|) ==>
        && r == (if !rtmidiAvailable then Unavailable else if found == [] then NoPorts else IndexOutOfRange(|found|))
        && portOpened == old(portOpened) && selected == old(selected) && trace == old(trace)
      ensures rtmidiAvailable && 0 <= index < |found| ==>
        var closeRaised := old(portOpened) && closeFails;
        var failed := closeRaised || openFails;
        && r == (if failed then OpenFailed else Opened(index, found[index]))
        && portOpened == !failed
        && selected == (if failed then None else Some(index))
        && trace == old(trace)
             + (if old(portOpened) && !closeFails then [Close] else [])
             + (if closeRaised || openFails then [] else [Open(index)])
      ensures r.Opened? ==> HandleAfter(trace) == PortHandle(index)
    {
      if !rtmidiAvailable {
        return Unavailable;
      }
      ports := found;
      if ports == [] {
        return NoPorts;
      }
      if !(0 <= index < |ports|) {
        return IndexOutOfRange(|ports|);
      }
      if portOpened {
        if closeFails {
          portOpened, selected := false, None;
          return OpenFailed;
        }
        trace := trace + [Close];
        portOpened, selected := false, None;
      }
      if openFails {
        portOpened, selected := false, None;
        return OpenFailed;
      }
      trace := trace + [Open(index)];
      selected := Some(index);
      portOpened := true;
      r := Opened(index, ports[index]);
    }

    /**
     * list_midi_ports, with the current port named only while it is still
     * enumerated: a port is reported as current exactly when an index is
     * selected, the session is open and the fresh list still has that index.
     */
    function ListPorts(found: seq<string>): (r: Listing)
      reads this
      ensures r != IndexError
      ensures r.Listed? <==> rtmidiAvailable && found != []
      ensures r.Listed? ==> r.ports == found
      ensures r.Listed? && r.selection.Current? <==>
        rtmidiAvailable && found != [] && selected.Some? && portOpened && selected.value < |found|
      ensures r.Listed? && r.selection.Current? ==>
        selected == Some(r.selection.index) && r.selection.name == found[r.selection.index]
      ensures rtmidiAvailable && found != [] && selected.Some? && portOpened && selected.value >= |found| ==>
        r == Listed(found, Unlisted(selected.value))
      ensures ListingAsWritten(rtmidiAvailable, found, selected, portOpened) != IndexError ==>
        r == ListingAsWritten(rtmidiAvailable, found, selected, portOpened)
    {
      if !rtmidiAvailable then ListingUnavailable
      else if found == [] then NoPortsListed
      else if selected.Some? && portOpened then
        (if selected.value < |found| then Listed(found, Current(selected.value, found[selected.value]))
         else Listed(found, Unlisted(selected.value)))
      else Listed(found, NotSelected)
    }

    /** send_message: the call numbered `call` in this tool call raises when `failAt` names it. */
    method Transmit(message: seq<int>, failAt: Option<nat>, call: nat) returns (raised: bool)
      modifies this`trace
      ensures raised == (failAt == Some(call))
      ensures trace == old(trace) + (if raised then [] else [Send(message)])
    {
      raised := failAt == Some(call);
      if !raised {
        trace := trace + [Send(message)];
      }
    }

    /** time.sleep */
    method Sleep(seconds: real)
      modifies this`trace
      ensures trace == old(trace) + [Wait(seconds)]
    {
      trace := trace + [Wait(seconds)];
    }

    static function NotePlan(note: int): seq<Event> {
      [Send(NoteOnMessage(note)), Wait(0.5), Send(NoteOffMessage(note))]
    }

    /**
     * send_midi_note: Note On (velocity 100), hold half a second, Note Off.
     * Nothing is sent without rtmidi, without an open port, or for a note
     * outside 0..127. Send number `failAt` (if any) raises.
     */
    method SendMidiNote(note: int, failAt: Option<nat>) returns (r: Outcome)
      requires Valid()
      modifies this`trace
      ensures Valid()
      ensures !rtmidiAvailable ==> r == Unavailable && trace == old(trace)
      ensures rtmidiAvailable && !portOpened ==> r == NotOpen && trace == old(trace)
      ensures rtmidiAvailable && portOpened && !IsDataByte(note) ==> r == InvalidNote(note) && trace == old(trace)
      ensures rtmidiAvailable && portOpened && IsDataByte(note) ==>
        && trace == old(trace) + Attempt(NotePlan(note), failAt)
        && r == (if Completes(NotePlan(note), failAt) then NoteSent(note) else TransportError)
      ensures r == NoteSent(note) ==>
        && Sounding(trace) == old(Sounding(trace)) - {note}
        && Duration(trace) == old(Duration(trace)) + 0.5
    {
      if !rtmidiAvailable {
        return Unavailable;
      }
      if !portOpened {
        return NotOpen;
      }
      if !IsDataByte(note) {
        return InvalidNote(note);
      }
      ghost var t0 := trace;
      var plan := NotePlan(note);
      assert SendCount(plan) == 2 by {
        assert SendCount(plan[2..]) == 1;
      }
      var raised := Transmit(NoteOnMessage(note), failAt, 0);
      if raised {
        assert Truncate(plan, 0) == [] && trace == t0;
        return TransportError;
      }
      Sleep(0.5);
      raised := Transmit(NoteOffMessage(note), failAt, 1);
      if raised {
        assert Truncate(plan[2..], 0) == [];
        assert Truncate(plan, 1) == plan[..2];
        assert trace == t0 + plan[..2];
        assert OnlyTransmissions(plan[..2]) by {
          assert forall i :: 0 <= i < 2 ==> IsTransmission(plan[i]);
        }
        HandleAfterTransmissions(t0, plan[..2]);
        return TransportError;
      }
      TruncateCompleteIfAny(plan, failAt);
      assert trace == t0 + plan;
      HandleAfterTransmissions(t0, plan);
      NotePlanEffect(t0, note);
      r := NoteSent(note);
    }

    /**
     * send_midi_cc: one Control Change message, no pause. Nothing is sent
     * without rtmidi, without an open port, or for a controller or value
     * outside 0..127 (the controller is checked first).
     */
    method SendMidiCc(controller: int, value: int, failAt: Option<nat>) returns (r: Outcome)
      requires Valid()
      modifies this`trace
      ensures Valid()
      ensures !rtmidiAvailable ==> r == Unavailable && trace == old(trace)
      ensures rtmidiAvailable && !portOpened ==> r == NotOpen && trace == old(trace)
      ensures rtmidiAvailable && portOpened && !IsDataByte(controller) ==>
        r == InvalidController(controller) && trace == old(trace)
      ensures rtmidiAvailable && portOpened && IsDataByte(controller) && !IsDataByte(value) ==>
        r == InvalidValue(value) && trace == old(trace)
      ensures rtmidiAvailable && portOpened && IsDataByte(controller) && IsDataByte(value) ==>
        var sent := failAt != Some(0);
        && r == (if sent then ControlSent(controller, value) else TransportError)
        && trace == old(trace) + (if sent then [Send(ControlChangeMessage(controller, value))] else [])
    {
      if !rtmidiAvailable {
        return Unavailable;
      }
      if !portOpened {
        return NotOpen;
      }
      if !IsDataByte(controller) {
        return InvalidController(controller);
      }
      if !IsDataByte(value) {
        return InvalidValue(value);
      }
      ghost var t0 := trace;
      var raised := Transmit(ControlChangeMessage(controller, value), failAt, 0);
      if raised {
        assert trace == t0;
        return TransportError;
      }
      HandleAfterTransmissions(t0, [Send(ControlChangeMessage(controller, value))]);
      r := ControlSent(controller, value);
    }

    /**
     * send_midi_sequence: after the checks, play each note in order as Note
     * On, one step, Note Off, one step, where a step is half a beat. The loop
     * stops at the first note outside 0..127; the notes before it stay sent.
     * `sent` is the source's sent_notes list. Send number `failAt` (if any)
     * raises.
     */
    method SendMidiSequence(bpm: int, notes: seq<int>, failAt: Option<nat>) returns (r: Outcome, sent: seq<int>)
      requires Valid()
      modifies this`trace
      ensures Valid()
      ensures !(rtmidiAvailable && portOpened && bpm > 0) ==>
        && r == (if !rtmidiAvailable then Unavailable else if !portOpened then NotOpen else InvalidTempo(bpm))
        && trace == old(trace) && sent == []
      ensures rtmidiAvailable && portOpened && bpm > 0 ==>
        var k := FirstInvalid(notes);
        var plan := Playback(notes[..k], StepTime(bpm));
        && trace == old(trace) + Attempt(plan, failAt)
        && r == (if !Completes(plan, failAt) then TransportError
                 else if k < |notes| then InvalidNote(notes[k])
                 else SequenceSent(bpm, notes))
        && sent == (if Completes(plan, failAt) then notes[..k] else notes[..(failAt.value + 1) / 2])
      ensures !r.TransportError? ==> Sounding(trace) == old(Sounding(trace)) - set n | n in sent
    {
      sent := [];
      if !rtmidiAvailable {
        return Unavailable, sent;
      }
      if !portOpened {
        return NotOpen, sent;
      }
      if bpm <= 0 {
        return InvalidTempo(bpm), sent;
      }
      ghost var t0 := trace;
      r, sent := PlayNotes(bpm, notes, failAt);
      SequenceKeepsHandle(t0, notes, StepTime(bpm), failAt);
      if !r.TransportError? {
        ghost var k := FirstInvalid(notes);
        TruncateCompleteIfAny(Playback(notes[..k], StepTime(bpm)), failAt);
        assert trace == t0 + Playback(notes[..k], StepTime(bpm)) && sent == notes[..k];
        SequenceSilences(t0, notes, StepTime(bpm));
      }
    }

    /**
     * One pass of the send_midi_sequence loop after its check: Note On, one
     * step, Note Off, one step. The sends are calls `call` and `call + 1`.
     */
    method PlayNote(note: int, step: real, failAt: Option<nat>, call: nat) returns (onSent: bool, raised: bool)
      modifies this`trace
      ensures onSent == (failAt != Some(call))
      ensures raised == (failAt == Some(call) || failAt == Some(call + 1))
      ensures trace == old(trace) +
        if !onSent then [] else if raised then [Send(NoteOnMessage(note)), Wait(step)] else NoteStepEvents(note, step)
    {
      raised := Transmit(NoteOnMessage(note), failAt, call);
      onSent := !raised;
      if raised {
        return;
      }
      Sleep(step);
      raised := Transmit(NoteOffMessage(note), failAt, call + 1);
      if raised {
        return;
      }
      Sleep(step);
    }

    /** The playing loop of send_midi_sequence, once the checks have passed. */
    method PlayNotes(bpm: int, notes: seq<int>, failAt: Option<nat>) returns (r: Outcome, sent: seq<int>)
      requires bpm > 0
      modifies this`trace
      ensures trace == old(trace) + Attempt(SequencePlan(notes, StepTime(bpm)), failAt)
      ensures r == SequenceOutcome(bpm, notes, failAt)
      ensures sent == StartedNotes(notes, failAt)
    {
      var step := StepTime(bpm);
      ghost var t0 := trace;
      sent := [];
      var i := 0;
      while i < |notes|
        invariant 0 <= i <= FirstInvalid(notes)
        invariant sent == notes[..i]
        invariant trace == t0 + Playback(notes[..i], step)
        invariant failAt.None? || failAt.value >= 2 * i
      {
        var note := notes[i];
        if !IsDataByte(note) {
          SequenceStoppedAt(bpm, notes, failAt, i);
          return InvalidNote(note), sent;
        }
        SequenceContinues(notes, i, step);
        var onSent, raised := PlayNote(note, step, failAt, 2 * i);
        if onSent {
          sent := sent + [note];
        }
        if raised {
          SequenceRaisedAt(bpm, notes, failAt, i, onSent);
          SequenceRaisedReport(notes, failAt, i, onSent);
          return TransportError, sent;
        }
        assert trace == t0 + Playback(notes[..i + 1], step);
        assert failAt != Some(2 * i) && failAt != Some(2 * i + 1);
        i := i + 1;
      }
      SequenceStoppedAt(bpm, notes, failAt, i);
      r := SequenceSent(bpm, notes);
    }

    /** The finally block at process exit: close the port if one is open. */
    method Shutdown()
      modifies this`trace
      ensures trace == old(trace) + (if rtmidiAvailable && portOpened then [Close] else [])
      ensures rtmidiAvailable && portOpened ==> HandleAfter(trace) == NoHandle
    {
      if rtmidiAvailable && portOpened {
        trace := trace + [Close];
      }
    }
  }

  /** Index of the first note outside 0..127, or |notes| when every note is valid. */
  function FirstInvalid(notes: seq<int>): (k: nat)
    ensures k <= |notes|
    ensures forall i :: 0 <= i < k ==> IsDataByte(notes[i])
    ensures k < |notes| ==> !IsDataByte(notes[k])
  {
    if notes == [] || !IsDataByte(notes[0]) then 0 else 1 + FirstInvalid(notes[1..])
  }

  /** What a sequence plays when nothing raises: every note before the first invalid one. */
  function SequencePlan(notes: seq<int>, step: real): (plan: seq<Event>)
    ensures SendCount(plan) == 2 * FirstInvalid(notes)
  {
    Playback(notes[..FirstInvalid(notes)], step)
  }

  /** A send of the sequence raises: `failAt` names one of its 2k sends. */
  predicate SequenceRaises(notes: seq<int>, failAt: Option<nat>) {
    failAt.Some? && failAt.value < 2 * FirstInvalid(notes)
  }

  /** What send_midi_sequence reports once its checks have passed. */
  function SequenceOutcome(bpm: int, notes: seq<int>, failAt: Option<nat>): Outcome {
    var k := FirstInvalid(notes);
    if SequenceRaises(notes, failAt) then TransportError
    else if k < |notes| then InvalidNote(notes[k])
    else SequenceSent(bpm, notes)
  }

  /** sent_notes when the sequence stops: the notes whose Note On returned. */
  function StartedNotes(notes: seq<int>, failAt: Option<nat>): seq<int> {
    var k := FirstInvalid(notes);
    if SequenceRaises(notes, failAt) then notes[..(failAt.value + 1) / 2] else notes[..k]
  }

  lemma TruncateCompleteIfAny(plan: seq<Event>, failAt: Option<nat>)
    requires Completes(plan, failAt)
    ensures Attempt(plan, failAt) == plan
  {
    if failAt.Some? {
      TruncateComplete(plan, failAt.value);
    }
  }

  /** A completed send_midi_note silences its note and lasts half a second; it keeps the handle. */
  lemma NotePlanEffect(t: seq<Event>, note: int)
    requires IsDataByte(note)
    ensures Sounding(t + MidiSession.NotePlan(note)) == Sounding(t) - {note}
    ensures Duration(t + MidiSession.NotePlan(note)) == Duration(t) + 0.5
  {
    var p := MidiSession.NotePlan(note);
    var e := NoteStepEvents(note, 0.5);
    assert p == e[..3];
    SoundingFromAppend({}, t, p);
    NoteStepEventsSound(Sounding(t), note, 0.5, 3);
    DurationAppend(t, p);
    assert Init(p[..1]) == [];
    assert Duration(p[..1]) == 0.0;
    assert Init(p[..2]) == p[..1];
    assert Duration(p[..2]) == 0.5;
    assert Init(p) == p[..2];
  }

  /**
   * When the Note Off of send_midi_note raises, its note is left sounding on
   * top of whatever was sounding before, half a second after the Note On.
   */
  lemma NoteOffRaiseLeavesNoteSounding(t: seq<Event>, note: int)
    requires IsDataByte(note)
    ensures Sounding(t + Attempt(MidiSession.NotePlan(note), Some(1))) == Sounding(t) + {note}
    ensures Duration(t + Attempt(MidiSession.NotePlan(note), Some(1))) == Duration(t) + 0.5
  {
    var p := MidiSession.NotePlan(note);
    var e := NoteStepEvents(note, 0.5);
    assert Truncate(p[2..], 0) == [];
    assert Truncate(p, 1) == p[..2] == e[..2];
    SoundingFromAppend({}, t, e[..2]);
    NoteStepEventsSound(Sounding(t), note, 0.5, 2);
    DurationAppend(t, e[..2]);
    assert Init(e[..1]) == [];
    assert Duration(e[..1]) == 0.0;
    assert Init(e[..2]) == e[..1];
    assert Duration(e[..2]) == 0.5;
  }

  /** The sequence loop ended at note i (invalid, or the end) with every send returning. */
  lemma SequenceStoppedAt(bpm: int, notes: seq<int>, failAt: Option<nat>, i: nat)
    requires bpm > 0
    requires i <= FirstInvalid(notes)
    requires i < |notes| ==> !IsDataByte(notes[i])
    requires failAt.None? || failAt.value >= 2 * i
    ensures Attempt(SequencePlan(notes, StepTime(bpm)), failAt) == Playback(notes[..i], StepTime(bpm))
    ensures SequenceOutcome(bpm, notes, failAt) ==
      if i < |notes| then InvalidNote(notes[i]) else SequenceSent(bpm, notes)
    ensures StartedNotes(notes, failAt) == notes[..i]
  {
    assert FirstInvalid(notes) == i;
    TruncateCompleteIfAny(Playback(notes[..i], StepTime(bpm)), failAt);
  }

  /**
   * While the sequence played note i, its Note On (or, when `onSent`, its
   * Note Off) raised: what was sent is notes[..i] in full plus, when
   * `onSent`, the Note On and hold of note i.
   */
  lemma SequenceRaisedAt(bpm: int, notes: seq<int>, failAt: Option<nat>, i: nat, onSent: bool)
    requires bpm > 0
    requires i < FirstInvalid(notes)
    requires failAt == Some(if onSent then 2 * i + 1 else 2 * i)
    ensures Attempt(SequencePlan(notes, StepTime(bpm)), failAt) ==
      Playback(notes[..i], StepTime(bpm))
        + (if onSent then [Send(NoteOnMessage(notes[i])), Wait(StepTime(bpm))] else [])
  {
    var k, j, step := FirstInvalid(notes), failAt.value, StepTime(bpm);
    var p := notes[..k];
    SendHalves(j, i, onSent);
    PlaybackTruncated(p, step, j);
    assert p[..i] == notes[..i] && p[i] == notes[i];
  }

  /** The same raise reports a transport error, and sent_notes holds the notes whose Note On returned. */
  lemma SequenceRaisedReport(notes: seq<int>, failAt: Option<nat>, i: nat, onSent: bool)
    requires i < FirstInvalid(notes)
    requires failAt == Some(if onSent then 2 * i + 1 else 2 * i)
    ensures SequenceRaises(notes, failAt)
    ensures StartedNotes(notes, failAt) == if onSent then notes[..i + 1] else notes[..i]
  {
    SendHalves(failAt.value, i, onSent);
  }

  /** Send 2i is note i's Note On and send 2i + 1 its Note Off. */
  lemma SendHalves(j: nat, i: nat, onSent: bool)
    requires j == if onSent then 2 * i + 1 else 2 * i
    ensures j / 2 == i && (j % 2 == 1 <==> onSent)
    ensures (j + 1) / 2 == if onSent then i + 1 else i
  {
  }

  /** Whatever send raises, a sequence only sends and waits: the port handle is untouched. */
  lemma SequenceKeepsHandle(t0: seq<Event>, notes: seq<int>, step: real, failAt: Option<nat>)
    ensures HandleAfter(t0 + Attempt(Playback(notes[..FirstInvalid(notes)], step), failAt)) == HandleAfter(t0)
  {
    var p := Playback(notes[..FirstInvalid(notes)], step);
    PlaybackTransmits(notes[..FirstInvalid(notes)], step);
    var r := Attempt(p, failAt);
    if failAt.Some? {
      TruncatePrefix(p, failAt.value);
    }
    assert OnlyTransmissions(r) by {
      forall n | 0 <= n < |r| ensures IsTransmission(r[n]) {
        assert r[n] == p[n];
      }
    }
    HandleAfterTransmissions(t0, r);
  }

  /** A sequence that stopped without a transport error silences every note it sent. */
  lemma SequenceSilences(t0: seq<Event>, notes: seq<int>, step: real)
    ensures var k := FirstInvalid(notes);
      Sounding(t0 + Playback(notes[..k], step)) == Sounding(t0) - set n | n in notes[..k]
  {
    var k := FirstInvalid(notes);
    SoundingFromAppend({}, t0, Playback(notes[..k], step));
    PlaybackSilences(Sounding(t0), notes[..k], step);
  }

  /** Note i passed its check: the loop goes on, one note further into the sequence. */
  lemma SequenceContinues(notes: seq<int>, i: nat, step: real)
    requires i <= FirstInvalid(notes) && i < |notes| && IsDataByte(notes[i])
    ensures i < FirstInvalid(notes)
    ensures notes[..i + 1] == notes[..i] + [notes[i]]
    ensures Playback(notes[..i + 1], step) == Playback(notes[..i], step) + NoteStepEvents(notes[i], step)
  {
    assert notes[..i + 1][..i] == notes[..i];
  }
}
