/** track_function: note i samples the source function at a point fixed by i and
    min_pitch; the volume is drawn at random. */
module FunctionMapper {
  import opened Errors
  import opened Events
  import opened Pitch
  import opened RandomMapper

  /** The source function, composed with the sampling point pi * i / (min_pitch / 5):
      the value sampled for note i of a band starting at min_pitch. */
  type Sampler = (real, nat) -> real

  const VolumeLow: int := 55

  /** 60 + int(min_pitch / 8), the loudest volume track_function may draw. */
  function VolumeTop(minPitch: real): int {
    60 + Trunc(minPitch / 8.0)
  }

  /** The pitch of note i: int(min_pitch + data(...) * pitch_range). */
  function FunctionPitch(minPitch: real, pitchRange: real, sample: Sampler, i: nat): int {
    Scale(minPitch, pitchRange, sample(minPitch, i))
  }

  /** Note k has the sampled pitch and a volume in [55, 60 + int(min_pitch / 8)]. */
  predicate FunctionNotes(ns: seq<Note>, minPitch: real, pitchRange: real, sample: Sampler) {
    forall k :: 0 <= k < |ns| ==>
      ns[k].pitch == FunctionPitch(minPitch, pitchRange, sample, k) &&
      VolumeLow <= ns[k].volume <= VolumeTop(minPitch)
  }

  /** The sampling point divides by min_pitch / 5, so a zero min_pitch fails in the first
      note; otherwise the first volume draw fails exactly when any would. */
  function FunctionError(notesLimit: nat, minPitch: real): Option<Error> {
    if notesLimit == 0 then None
    else if minPitch == 0.0 then Some(ZeroDivision)
    else RandintError(VolumeLow as real, VolumeTop(minPitch) as real)
  }

  method TrackFunction(notesLimit: nat, minPitch: real, pitchRange: real, track: Track, sample: Sampler)
    returns (r: Result<Track>, ghost ns: seq<Note>)
    modifies track
    ensures r.Err? <==> FunctionError(notesLimit, minPitch).Some?
    ensures r.Err? ==> r.error == FunctionError(notesLimit, minPitch).value && track.events == old(track.events)
    ensures r.Ok? ==>
      r.value == track && |ns| == notesLimit && FunctionNotes(ns, minPitch, pitchRange, sample) &&
      track.events == old(track.events) + Notes(ns)
  {
    ns := [];
    for i := 0 to notesLimit
      invariant i > 0 ==> FunctionError(notesLimit, minPitch).None?
      invariant |ns| == i && FunctionNotes(ns, minPitch, pitchRange, sample)
      invariant track.events == old(track.events) + Notes(ns)
    {
      if minPitch == 0.0 {
        return Err(ZeroDivision), ns;
      }
      var pitch := Scale(minPitch, pitchRange, sample(minPitch, i));
      var draw := Randint(VolumeLow as real, VolumeTop(minPitch) as real);
      if draw.Err? {
        return Err(draw.error), ns;
      }
      var volume := draw.value;
      NotesExtend(old(track.events), ns, Note(pitch, volume));
      track.AppendNote(pitch, volume);
      ns := ns + [Note(pitch, volume)];
    }
    return Ok(track), ns;
  }

  /** A sampler with values in [0,1], such as (sin(x) + 1) / 2, keeps every pitch between
      the truncated ends of a non-negative band. */
  lemma FunctionPitchBounds(minPitch: real, pitchRange: real, sample: Sampler, i: nat)
    requires 0.0 <= sample(minPitch, i) <= 1.0 && pitchRange >= 0.0
    ensures Trunc(minPitch) <= FunctionPitch(minPitch, pitchRange, sample, i) <= Trunc(minPitch + pitchRange)
  {
    ScaleBounds(minPitch, pitchRange, sample(minPitch, i));
  }

  /** Past the zero check, the volume range [55, 60 + int(min_pitch / 8)] is empty, and the
      first draw fails, exactly when min_pitch <= -48. */
  lemma VolumeRangeEmpty(notesLimit: nat, minPitch: real)
    requires notesLimit >= 1 && minPitch != 0.0
    ensures FunctionError(notesLimit, minPitch).Some? <==> minPitch <= -48.0
    ensures FunctionError(notesLimit, minPitch).Some? ==> FunctionError(notesLimit, minPitch).value == EmptyRange
  {
    assert IsIntegral(VolumeLow as real) && IsIntegral(VolumeTop(minPitch) as real);
    if minPitch <= -48.0 {
      assert minPitch / 8.0 <= -6.0;
    } else {
      assert minPitch / 8.0 > -6.0;
    }
  }
}
