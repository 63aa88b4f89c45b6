/** make_single_track: a fresh track, filled by the mapper that matches the kind of the
    data, then closed by the end-of-track marker. */
module SingleTrack {
  import opened Errors
  import opened Events
  import opened Digits
  import opened ImageMapper
  import opened TextMapper
  import opened RandomMapper
  import opened FunctionMapper

  /** The kinds of data make_single_track tells apart: a function, a pixel array, a string,
      None, and anything else, which no mapper takes. */
  datatype Source =
    | Function(sample: Sampler)
    | Image(pixels: seq<Pixel>)
    | Text(chars: string)
    | Absent
    | Unsupported

  /** The error the matching mapper raises, if any. */
  function TrackError(notesLimit: nat, minPitch: real, pitchRange: real, src: Source): Option<Error> {
    match src
    case Function(_) => FunctionError(notesLimit, minPitch)
    case Image(pixels) => ImageError(notesLimit, |pixels|)
    case Text(chars) => TextError(notesLimit, |chars|)
    case Absent => RandomError(notesLimit, minPitch, pitchRange)
    case Unsupported => None
  }

  /** The notes the matching mapper may play: fixed by the data for pixels and strings,
      drawn from the band for None, sampled with a drawn volume for a function. */
  predicate ModeNotes(notesLimit: nat, minPitch: real, pitchRange: real, src: Source, ns: seq<Note>) {
    match src
    case Function(sample) => |ns| == notesLimit && FunctionNotes(ns, minPitch, pitchRange, sample)
    case Image(pixels) => 1 <= notesLimit <= |pixels| && ns == ImageNotes(notesLimit, minPitch, pitchRange, pixels)
    case Text(chars) => notesLimit >= 1 && IsDigits(chars) && ns == TextNotes(notesLimit, minPitch, pitchRange, chars)
    case Absent => |ns| == notesLimit && RandomNotes(ns, minPitch, pitchRange)
    case Unsupported => ns == []
  }

  /** The events of a track make_single_track may build: the notes its mapper may play,
      then the end-of-track marker. */
  ghost predicate SingleTrackOf(notesLimit: nat, minPitch: real, pitchRange: real, src: Source, events: seq<Event>) {
    exists ns :: ModeNotes(notesLimit, minPitch, pitchRange, src, ns) && events == Notes(ns) + [Eot]
  }

  method MakeSingleTrack(notesLimit: nat, minPitch: real, pitchRange: real, src: Source)
    returns (r: Result<Track>, ghost ns: seq<Note>)
    requires src.Text? ==> IsDigits(src.chars)
    ensures r.Err? <==> TrackError(notesLimit, minPitch, pitchRange, src).Some?
    ensures r.Err? ==> r.error == TrackError(notesLimit, minPitch, pitchRange, src).value
    ensures r.Ok? ==>
      fresh(r.value) && ModeNotes(notesLimit, minPitch, pitchRange, src, ns) &&
      r.value.events == Notes(ns) + [Eot]
  {
    var track := new Track();
    var filled: Result<Track>;
    ns := [];
    match src {
      case Function(sample) =>
        filled, ns := TrackFunction(notesLimit, minPitch, pitchRange, track, sample);
      case Image(pixels) =>
        filled := TrackImg(notesLimit, minPitch, pitchRange, track, pixels);
        if filled.Ok? {
          ns := ImageNotes(notesLimit, minPitch, pitchRange, pixels);
        }
      case Text(chars) =>
        filled := TrackText(notesLimit, minPitch, pitchRange, track, chars);
        if filled.Ok? {
          ns := TextNotes(notesLimit, minPitch, pitchRange, chars);
        }
      case Absent =>
        filled, ns := TrackRandom(notesLimit, minPitch, pitchRange, track);
      case Unsupported =>
        filled := Ok(track);
    }
    if filled.Err? {
      return Err(filled.error), ns;
    }
    track := filled.value;
    track.Append(Eot);
    return Ok(track), ns;
  }

  /** A track of a supported kind holds 2 * notes_limit + 1 events: each note's note_on at
      tick 0 right before its note_off at tick 140 with the same [pitch, volume], then the
      end-of-track marker. Volumes are 70 for pixels and strings, 75 for None with the
      pitch inside the band, and in [55, 60 + int(min_pitch / 8)] for a function. */
  lemma SingleTrackShape(notesLimit: nat, minPitch: real, pitchRange: real, src: Source, ns: seq<Note>)
    requires ModeNotes(notesLimit, minPitch, pitchRange, src, ns)
    ensures |Notes(ns) + [Eot]| == 2 * |ns| + 1 && (Notes(ns) + [Eot])[2 * |ns|] == Eot
    ensures !src.Unsupported? ==> |ns| == notesLimit
    ensures src.Unsupported? ==> Notes(ns) + [Eot] == [Eot]
    ensures forall k :: 0 <= k < |ns| ==> IsNoteAt(Notes(ns) + [Eot], k, ns[k])
    ensures src.Image? ==> forall k :: 0 <= k < |ns| ==> ns[k].volume == ImageVolume
    ensures src.Text? ==> forall k :: 0 <= k < |ns| ==> ns[k].volume == TextVolume
    ensures src.Absent? ==> forall k :: 0 <= k < |ns| ==>
      ns[k].volume == RandomVolume && minPitch <= ns[k].pitch as real <= minPitch + pitchRange
    ensures src.Function? ==> forall k :: 0 <= k < |ns| ==>
      VolumeLow <= ns[k].volume <= VolumeTop(minPitch)
  {
    NotesShape(ns);
    var es := Notes(ns) + [Eot];
    forall k | 0 <= k < |ns|
      ensures IsNoteAt(es, k, ns[k])
    {
      assert IsNoteAt(Notes(ns), k, ns[k]);
    }
    if src.Text? {
      forall k | 0 <= k < |ns|
        ensures ns[k].volume == TextVolume
      {
        TextNotesAt(notesLimit, minPitch, pitchRange, src.chars, notesLimit, k);
      }
    }
  }
}
