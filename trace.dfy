/**
 * The observable behaviour of the server as a trace of transport calls that
 * completed, in order, plus the pauses between them. Folds over a trace give
 * the notes left sounding on channel 1, the time spent waiting and the port
 * handle the transport holds.
 */
module Trace {
  import opened Wrappers
  import opened Midi

  datatype Event =
    | Send(message: seq<int>)   // send_message returned
    | Wait(seconds: real)       // time.sleep(seconds)
    | OpenVirtual               // open_virtual_port returned
    | Open(index: nat)          // open_port(index) returned
    | Close                     // close_port returned

  /** Port handle of the transport's single output object. */
  datatype Handle = NoHandle | VirtualHandle | PortHandle(index: nat)

  predicate IsTransmission(e: Event) {
    e.Send? || e.Wait?
  }

  /** A trace made only of messages and pauses: it does not touch the port. */
  predicate OnlyTransmissions(t: seq<Event>) {
    forall i :: 0 <= i < |t| ==> IsTransmission(t[i])
  }

  function Last(t: seq<Event>): Event
    requires t != []
  {
    t[|t| - 1]
  }

  function Init(t: seq<Event>): seq<Event>
    requires t != []
  {
    t[..|t| - 1]
  }

  // ---------------------------------------------------------------- handle

  /** The handle held after the lifecycle calls of `t`. */
  function HandleAfter(t: seq<Event>): Handle {
    if t == [] then NoHandle
    else match Last(t)
      case OpenVirtual => VirtualHandle
      case Open(i) => PortHandle(i)
      case Close => NoHandle
      case _ => HandleAfter(Init(t))
  }

  lemma {:induction false} HandleAfterTransmissions(t: seq<Event>, u: seq<Event>)
    requires OnlyTransmissions(u)
    ensures HandleAfter(t + u) == HandleAfter(t)
  {
    if u != [] {
      assert Init(t + u) == t + Init(u);
      assert Last(t + u) == Last(u);
      HandleAfterTransmissions(t, Init(u));
    } else {
      assert t + u == t;
    }
  }

  // ---------------------------------------------------------------- notes

  /** Effect of one event on the set of notes sounding on channel 1. */
  function NoteStep(s: set<int>, e: Event): set<int> {
    if !e.Send? then s
    else match Decode(e.message)
      case Some(NoteOn(ch, n, _)) => if ch == Channel1 then s + {n} else s
      case Some(NoteOff(ch, n)) => if ch == Channel1 then s - {n} else s
      case _ => s
  }

  /** Notes sounding on channel 1 after `t`, starting from the notes in `s`. */
  function SoundingFrom(s: set<int>, t: seq<Event>): set<int> {
    if t == [] then s else NoteStep(SoundingFrom(s, Init(t)), Last(t))
  }

  function Sounding(t: seq<Event>): set<int> {
    SoundingFrom({}, t)
  }

  lemma {:induction false} SoundingFromAppend(s: set<int>, t: seq<Event>, u: seq<Event>)
    ensures SoundingFrom(s, t + u) == SoundingFrom(SoundingFrom(s, t), u)
  {
    if u == [] {
      assert t + u == t;
    } else {
      assert Init(t + u) == t + Init(u);
      assert Last(t + u) == Last(u);
      SoundingFromAppend(s, t, Init(u));
    }
  }

  // ---------------------------------------------------------------- time

  /** Total time `t` spends waiting. */
  function Duration(t: seq<Event>): real {
    if t == [] then 0.0
    else Duration(Init(t)) + (if Last(t).Wait? then Last(t).seconds else 0.0)
  }

  lemma {:induction false} DurationAppend(t: seq<Event>, u: seq<Event>)
    ensures Duration(t + u) == Duration(t) + Duration(u)
  {
    if u == [] {
      assert t + u == t;
    } else {
      assert Init(t + u) == t + Init(u);
      assert Last(t + u) == Last(u);
      DurationAppend(t, Init(u));
    }
  }

  // ---------------------------------------------------------------- sequence playback

  /** Seconds per step of a sequence: half a beat at `bpm`, computed exactly. */
  function StepTime(bpm: int): real
    requires bpm > 0
  {
    60.0 / (bpm as real) / 2.0
  }

  /**
   * A step is strictly positive however high the tempo, and two steps make
   * one beat of 60/bpm seconds.
   */
  lemma StepTimeIsHalfBeat(bpm: int)
    requires bpm > 0
    ensures StepTime(bpm) > 0.0
    ensures 2.0 * StepTime(bpm) * (bpm as real) == 60.0
  {
  }

  lemma StepTimeExamples()
    ensures StepTime(60) == 0.5 && StepTime(120) == 0.25 && StepTime(240) == 0.125
  {
  }

  /** One note of a sequence: on, hold one step, off, rest one step. */
  function NoteStepEvents(note: int, step: real): seq<Event> {
    [Send(NoteOnMessage(note)), Wait(step), Send(NoteOffMessage(note)), Wait(step)]
  }

  /** Playback of `notes` in order, each as NoteStepEvents. */
  function Playback(notes: seq<int>, step: real): (p: seq<Event>)
    ensures |p| == 4 * |notes|
    ensures SendCount(p) == 2 * |notes|
  {
    if notes == [] then []
    else
      var init, last := Playback(notes[..|notes| - 1], step), NoteStepEvents(notes[|notes| - 1], step);
      SendCountAppend(init, last);
      assert SendCount(last[1..]) == 1 by {
        assert SendCount(last[3..]) == 0;
        assert SendCount(last[2..]) == 1;
      }
      init + last
  }

  lemma {:induction false} PlaybackAppend(xs: seq<int>, ys: seq<int>, step: real)
    ensures Playback(xs + ys, step) == Playback(xs, step) + Playback(ys, step)
  {
    if ys == [] {
      assert xs + ys == xs;
    } else {
      var zs, init := xs + ys, ys[..|ys| - 1];
      var e := NoteStepEvents(ys[|ys| - 1], step);
      assert zs[..|zs| - 1] == xs + init && zs[|zs| - 1] == ys[|ys| - 1];
      assert Playback(zs, step) == Playback(xs + init, step) + e;
      PlaybackAppend(xs, init, step);
      assert Playback(ys, step) == Playback(init, step) + e;
    }
  }

  /** Playback lays the notes out four events apiece, note i at positions 4i..4i+3. */
  lemma {:induction false} PlaybackLayout(notes: seq<int>, step: real)
    ensures |Playback(notes, step)| == 4 * |notes|
    ensures forall i :: 0 <= i < |notes| ==>
      Playback(notes, step)[4 * i..4 * i + 4] == NoteStepEvents(notes[i], step)
  {
    if notes != [] {
      var init := notes[..|notes| - 1];
      PlaybackLayout(init, step);
      var p := Playback(notes, step);
      assert p == Playback(init, step) + NoteStepEvents(notes[|notes| - 1], step);
      forall i | 0 <= i < |notes|
        ensures p[4 * i..4 * i + 4] == NoteStepEvents(notes[i], step)
      {
        if i < |init| {
          assert p[4 * i..4 * i + 4] == Playback(init, step)[4 * i..4 * i + 4];
        }
      }
    }
  }

  /**
   * Within one played note, the note sounds after its Note On and during the
   * hold, and is silenced by its Note Off, whatever was sounding before.
   */
  lemma NoteStepEventsSound(s: set<int>, note: int, step: real, r: nat)
    requires IsDataByte(note)
    requires r <= 4
    ensures SoundingFrom(s, NoteStepEvents(note, step)[..r]) ==
      if r == 0 then s else if r <= 2 then s + {note} else s - {note}
  {
    var p := NoteStepEvents(note, step);
    NoteOnDecodes(note);
    NoteOffDecodes(note);
    assert Init(p[..1]) == [];
    assert SoundingFrom(s, p[..1]) == s + {note};
    assert Init(p[..2]) == p[..1];
    assert SoundingFrom(s, p[..2]) == s + {note};
    assert Init(p[..3]) == p[..2];
    assert SoundingFrom(s, p[..3]) == s - {note};
    assert Init(p[..4]) == p[..3];
    assert p[..0] == [];
  }

  /** A played note leaves channel 1 without that note, whatever was sounding before. */
  lemma NoteStepEventsSilence(s: set<int>, note: int, step: real)
    requires IsDataByte(note)
    ensures SoundingFrom(s, NoteStepEvents(note, step)) == s - {note}
  {
    NoteStepEventsSound(s, note, step, 4);
    assert NoteStepEvents(note, step)[..4] == NoteStepEvents(note, step);
  }

  /** No note is left sounding by a played sequence: it only silences its own notes. */
  lemma {:induction false} PlaybackSilences(s: set<int>, notes: seq<int>, step: real)
    requires forall i :: 0 <= i < |notes| ==> IsDataByte(notes[i])
    ensures SoundingFrom(s, Playback(notes, step)) == s - set n | n in notes
  {
    if notes != [] {
      var init, last := notes[..|notes| - 1], notes[|notes| - 1];
      PlaybackSilences(s, init, step);
      SoundingFromAppend(s, Playback(init, step), NoteStepEvents(last, step));
      NoteStepEventsSilence(SoundingFrom(s, Playback(init, step)), last, step);
      assert notes == init + [last];
      assert (set n | n in notes) == (set n | n in init) + {last};
    }
  }

  /** A played sequence lasts one beat per note: two steps of half a beat each. */
  lemma {:induction false} PlaybackDuration(notes: seq<int>, bpm: int)
    requires bpm > 0
    ensures Duration(Playback(notes, StepTime(bpm))) * (bpm as real) == 60.0 * (|notes| as real)
  {
    var step := StepTime(bpm);
    StepTimeIsHalfBeat(bpm);
    if notes != [] {
      var init := notes[..|notes| - 1];
      PlaybackDuration(init, bpm);
      var q := NoteStepEvents(notes[|notes| - 1], step);
      DurationAppend(Playback(init, step), q);
      assert Init(q[..1]) == [];
      assert Duration(q[..1]) == 0.0;
      assert Init(q[..2]) == q[..1];
      assert Duration(q[..2]) == step;
      assert Init(q[..3]) == q[..2];
      assert Duration(q[..3]) == step;
      assert Init(q) == q[..3];
      assert Duration(q) == 2.0 * step;
    }
  }

  lemma {:induction false} PlaybackTransmits(notes: seq<int>, step: real)
    ensures OnlyTransmissions(Playback(notes, step))
  {
    if notes != [] {
      PlaybackTransmits(notes[..|notes| - 1], step);
    }
  }

  // ---------------------------------------------------------------- transport failure

  function SendCount(t: seq<Event>): nat {
    if t == [] then 0 else (if t[0].Send? then 1 else 0) + SendCount(t[1..])
  }

  lemma {:induction false} SendCountAppend(t: seq<Event>, u: seq<Event>)
    ensures SendCount(t + u) == SendCount(t) + SendCount(u)
  {
    if t == [] {
      assert t + u == u;
    } else {
      assert (t + u)[1..] == t[1..] + u;
      SendCountAppend(t[1..], u);
    }
  }

  /**
   * What is left of `plan` when its send number `j` (counting from 0) raises:
   * every event before that send and nothing from it on.
   */
  function Truncate(plan: seq<Event>, j: nat): seq<Event> {
    if plan == [] then []
    else if plan[0].Send? then (if j == 0 then [] else [plan[0]] + Truncate(plan[1..], j - 1))
    else [plan[0]] + Truncate(plan[1..], j)
  }

  /** What survives a failing send is a prefix of the plan. */
  lemma {:induction false} TruncatePrefix(plan: seq<Event>, j: nat)
    ensures |Truncate(plan, j)| <= |plan| && Truncate(plan, j) == plan[..|Truncate(plan, j)|]
  {
    if plan != [] && !(plan[0].Send? && j == 0) {
      var j' := if plan[0].Send? then j - 1 else j;
      TruncatePrefix(plan[1..], j');
      var r' := Truncate(plan[1..], j');
      assert Truncate(plan, j) == [plan[0]] + r';
      assert plan[..1 + |r'|] == [plan[0]] + plan[1..][..|r'|];
    }
  }

  /** Exactly the `j` sends before the failing one happened (all of them if none fails). */
  lemma {:induction false} TruncateSendCount(plan: seq<Event>, j: nat)
    ensures SendCount(Truncate(plan, j)) == if j < SendCount(plan) then j else SendCount(plan)
  {
    if plan != [] && !(plan[0].Send? && j == 0) {
      var j' := if plan[0].Send? then j - 1 else j;
      TruncateSendCount(plan[1..], j');
      var r' := Truncate(plan[1..], j');
      assert Truncate(plan, j) == [plan[0]] + r';
      assert Truncate(plan, j)[1..] == r';
    }
  }

  /** When send `j` exists, the surviving events stop right before it. */
  lemma {:induction false} TruncateStopsAtSend(plan: seq<Event>, j: nat)
    requires j < SendCount(plan)
    ensures |Truncate(plan, j)| < |plan| && plan[|Truncate(plan, j)|].Send?
  {
    if !(plan[0].Send? && j == 0) {
      var j' := if plan[0].Send? then j - 1 else j;
      TruncateStopsAtSend(plan[1..], j');
      var r' := Truncate(plan[1..], j');
      assert Truncate(plan, j) == [plan[0]] + r';
      assert plan[1 + |r'|] == plan[1..][|r'|];
    }
  }

  /** When no send raises, the whole plan happens. */
  lemma {:induction false} TruncateComplete(plan: seq<Event>, j: nat)
    requires j >= SendCount(plan)
    ensures Truncate(plan, j) == plan
  {
    if plan != [] {
      var j' := if plan[0].Send? then j - 1 else j;
      TruncateComplete(plan[1..], j');
      assert plan == [plan[0]] + plan[1..];
    }
  }

  /** The events of `plan` that happen when send number `failAt` raises (if any). */
  function Attempt(plan: seq<Event>, failAt: Option<nat>): seq<Event> {
    if failAt.Some? then Truncate(plan, failAt.value) else plan
  }

  /** Whether all of `plan`'s sends return normally. */
  predicate Completes(plan: seq<Event>, failAt: Option<nat>) {
    failAt.None? || failAt.value >= SendCount(plan)
  }

  lemma {:induction false} TruncateAppend(t: seq<Event>, u: seq<Event>, j: nat)
    ensures Truncate(t + u, SendCount(t) + j) == t + Truncate(u, j)
  {
    if t == [] {
      assert t + u == u;
    } else {
      var rest := t[1..];
      var k := SendCount(rest) + j;
      assert (t + u)[1..] == rest + u;
      TruncateAppend(rest, u, j);
      assert t == [t[0]] + rest;
      assert t + Truncate(u, j) == [t[0]] + (rest + Truncate(u, j));
    }
  }

  lemma PlaybackSplit(notes: seq<int>, step: real, q: nat)
    requires q < |notes|
    ensures Playback(notes, step) ==
      Playback(notes[..q], step) + (NoteStepEvents(notes[q], step) + Playback(notes[q + 1..], step))
  {
    var a, b, c := notes[..q], [notes[q]], notes[q + 1..];
    assert notes == a + (b + c);
    PlaybackAppend(a, b + c, step);
    PlaybackAppend(b, c, step);
    assert b[..0] == [];
    assert Playback(b, step) == NoteStepEvents(notes[q], step);
  }

  /**
   * A sequence whose send number j raises has played notes[..j/2] in full and,
   * when j is odd (a Note Off raised), the Note On and hold of note j/2.
   */
  lemma PlaybackTruncated(notes: seq<int>, step: real, j: nat)
    requires j < 2 * |notes|
    ensures Truncate(Playback(notes, step), j) ==
      Playback(notes[..j / 2], step)
        + (if j % 2 == 1 then [Send(NoteOnMessage(notes[j / 2])), Wait(step)] else [])
  {
    var q := j / 2;
    var pre := Playback(notes[..q], step);
    var rest := NoteStepEvents(notes[q], step) + Playback(notes[q + 1..], step);
    PlaybackSplit(notes, step, q);
    TruncateAppend(pre, rest, j % 2);
    assert j == SendCount(pre) + j % 2;
    if j % 2 == 1 {
      assert rest[0].Send? && rest[1].Wait? && rest[2].Send?;
      assert Truncate(rest[2..], 0) == [];
      assert Truncate(rest[1..], 0) == [rest[1]];
      assert Truncate(rest, 1) == [rest[0], rest[1]];
    } else {
      assert Truncate(rest, 0) == [];
    }
  }

  /**
   * A sequence played from silence is monophonic: after any prefix of it,
   * the only note sounding is the one inside its on-and-hold half step.
   */
  lemma PlaybackMonophonic(notes: seq<int>, step: real, j: nat)
    requires forall i :: 0 <= i < |notes| ==> IsDataByte(notes[i])
    requires j <= 4 * |notes|
    ensures Sounding(Playback(notes, step)[..j]) ==
      if j % 4 == 1 || j % 4 == 2 then {notes[j / 4]} else {}
  {
    var p := Playback(notes, step);
    var q, r := j / 4, j % 4;
    if q == |notes| {
      assert p[..j] == p;
      PlaybackSilences({}, notes, step);
    } else {
      var pre := Playback(notes[..q], step);
      var e := NoteStepEvents(notes[q], step);
      PlaybackSplit(notes, step, q);
      assert p[..j] == pre + e[..r];
      PlaybackSilences({}, notes[..q], step);
      SoundingFromAppend({}, pre, e[..r]);
      assert SoundingFrom({}, pre) == {};
      NoteStepEventsSound({}, notes[q], step, r);
      assert Sounding(p[..j]) == SoundingFrom({}, e[..r]);
    }
  }
}
