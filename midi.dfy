/**
 * MIDI 1.0 channel-voice messages as the server builds them: three integers
 * (status, data 1, data 2), always on channel 1 (status low nibble 0).
 * Decode is an independent reading of a message per the Channel Voice
 * Messages section of the MIDI 1.0 Detailed Specification; the encoders are
 * characterised by what a receiver decodes from them.
 */
module Midi {
  import opened Wrappers

  /** Channel 1 as it appears on the wire (channels are numbered from 0 there). */
  const Channel1: int := 0
  const NoteOnStatus: int := 0x90
  const ControlChangeStatus: int := 0xB0
  /** Velocity of every Note On the server sends. */
  const NoteVelocity: int := 100

  /** A data byte of a channel-voice message: 7 bits, 0..127 inclusive. */
  predicate IsDataByte(x: int) {
    0 <= x <= 127
  }

  /** What a receiver makes of a channel-voice message. */
  datatype Voice =
    | NoteOn(channel: int, note: int, velocity: int)
    | NoteOff(channel: int, note: int)
    | ControlChange(channel: int, controller: int, value: int)

  /**
   * Reads a three-byte message: a status byte 0x80..0xEF whose high nibble is
   * the kind and low nibble the channel, then two data bytes. A Note On with
   * velocity 0 means Note Off. Kinds other than Note Off, Note On and Control
   * Change are not read here.
   */
  function Decode(m: seq<int>): Option<Voice> {
    if |m| != 3 || !(0x80 <= m[0] <= 0xEF) || !IsDataByte(m[1]) || !IsDataByte(m[2]) then None
    else
      var kind, channel := m[0] / 16, m[0] % 16;
      if kind == 0x8 then Some(NoteOff(channel, m[1]))
      else if kind == 0x9 then
        (if m[2] == 0 then Some(NoteOff(channel, m[1])) else Some(NoteOn(channel, m[1], m[2])))
      else if kind == 0xB then Some(ControlChange(channel, m[1], m[2]))
      else None
  }

  /** The Note On the server sends for `note`: channel 1, velocity 100. */
  function NoteOnMessage(note: int): seq<int> {
    [NoteOnStatus, note, NoteVelocity]
  }

  /** The Note Off the server sends for `note`: a channel-1 Note On with velocity 0. */
  function NoteOffMessage(note: int): seq<int> {
    [NoteOnStatus, note, 0]
  }

  /** The Control Change the server sends: channel 1, controller and value as given. */
  function ControlChangeMessage(controller: int, value: int): seq<int> {
    [ControlChangeStatus, controller, value]
  }

  /** A receiver reads the server's Note On as a channel-1 Note On at velocity 100, for valid notes only. */
  lemma NoteOnDecodes(note: int)
    ensures Decode(NoteOnMessage(note)) ==
      if IsDataByte(note) then Some(NoteOn(Channel1, note, NoteVelocity)) else None
  {
  }

  /** A receiver reads the server's velocity-0 Note On as a channel-1 Note Off, for valid notes only. */
  lemma NoteOffDecodes(note: int)
    ensures Decode(NoteOffMessage(note)) == if IsDataByte(note) then Some(NoteOff(Channel1, note)) else None
  {
  }

  /** A receiver reads the server's Control Change as sent, when both data bytes are valid. */
  lemma ControlChangeDecodes(controller: int, value: int)
    ensures Decode(ControlChangeMessage(controller, value)) ==
      if IsDataByte(controller) && IsDataByte(value) then Some(ControlChange(Channel1, controller, value)) else None
  {
  }
}
