/** MIDI events as plain values, and the track list the mappers append to. */
module Events {

  /** One sounding note: the [pitch, volume] data its two events share. */
  datatype Note = Note(pitch: int, volume: int)

  /** The three kinds of event the mappers put on a track. */
  datatype Event =
    | NoteOn(tick: nat, channel: nat, pitch: int, volume: int)
    | NoteOff(tick: nat, channel: nat, pitch: int, volume: int)
    | EndOfTrack(tick: nat)

  const OnTick: nat := 0
  const OffTick: nat := 140
  const MidiChannel: nat := 0

  /** The module-level end-of-track marker, created with tick 1. */
  const Eot: Event := EndOfTrack(1)

  /** The note-on and note-off events one note appends. */
  function Pair(n: Note): (es: seq<Event>)
    ensures |es| == 2 && es[0].NoteOn? && es[1].NoteOff?
    ensures es[0].pitch == es[1].pitch == n.pitch && es[0].volume == es[1].volume == n.volume
  {
    [NoteOn(OnTick, MidiChannel, n.pitch, n.volume), NoteOff(OffTick, MidiChannel, n.pitch, n.volume)]
  }

  /** The events a sequence of notes appends, in order. */
  function Notes(ns: seq<Note>): seq<Event> {
    if ns == [] then [] else Notes(ns[..|ns| - 1]) + Pair(ns[|ns| - 1])
  }

  /** Events 2k and 2k+1 are the note-on at tick 0 and the note-off at tick 140 of n. */
  predicate IsNoteAt(es: seq<Event>, k: nat, n: Note) {
    2 * k + 1 < |es|
    && es[2 * k] == NoteOn(OnTick, MidiChannel, n.pitch, n.volume)
    && es[2 * k + 1] == NoteOff(OffTick, MidiChannel, n.pitch, n.volume)
  }

  /** Appending one note extends the events by exactly its pair. */
  lemma NotesSnoc(ns: seq<Note>, n: Note)
    ensures Notes(ns + [n]) == Notes(ns) + Pair(n)
  {
    assert (ns + [n])[..|ns|] == ns;
  }

  lemma ConcatAssoc<T>(a: seq<T>, b: seq<T>, c: seq<T>)
    ensures a + b + c == a + (b + c)
  {
  }

  /** Appending a note's pair after the events of ns gives the events of ns + [n]. */
  lemma NotesExtend(prefix: seq<Event>, ns: seq<Note>, n: Note)
    ensures prefix + Notes(ns) + Pair(n) == prefix + Notes(ns + [n])
  {
    NotesSnoc(ns, n);
    ConcatAssoc(prefix, Notes(ns), Pair(n));
  }

  /** k notes give 2k events, and note k sits at events 2k and 2k+1. */
  lemma {:induction false} NotesShape(ns: seq<Note>)
    ensures |Notes(ns)| == 2 * |ns|
    ensures forall k :: 0 <= k < |ns| ==> IsNoteAt(Notes(ns), k, ns[k])
  {
    if ns != [] {
      var init := ns[..|ns| - 1];
      NotesShape(init);
      forall k | 0 <= k < |ns|
        ensures IsNoteAt(Notes(ns), k, ns[k])
      {
        if k < |init| {
          assert IsNoteAt(Notes(init), k, init[k]);
        }
      }
    }
  }

  /** A MIDI track: a list of events the mappers append to in place. */
  class Track {
    var events: seq<Event>

    constructor ()
      ensures events == []
    {
      events := [];
    }

    method Append(e: Event)
      modifies this
      ensures events == old(events) + [e]
    {
      events := events + [e];
    }

    /** The note_on / note_off pair every mapper appends for one note. */
    method AppendNote(pitch: int, volume: int)
      modifies this
      ensures events == old(events) + Pair(Note(pitch, volume))
    {
      Append(NoteOn(OnTick, MidiChannel, pitch, volume));
      Append(NoteOff(OffTick, MidiChannel, pitch, volume));
    }
  }
}
