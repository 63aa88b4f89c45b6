/** track_random, and the random.randint draws it and track_function make. */
module RandomMapper {
  import opened Errors
  import opened Events
  import opened Pitch

  const RandomVolume: int := 75

  /** The error random.randint(a, b) = randrange(a, b + 1) raises: a bound with a
      fractional part is refused, then an empty range is. */
  function RandintError(a: real, b: real): Option<Error> {
    if !IsIntegral(a) || !IsIntegral(b) then Some(NonIntegerArgument)
    else if b < a then Some(EmptyRange)
    else None
  }

  /** random.randint(a, b): any integer of the closed range may come back. */
  method Randint(a: real, b: real) returns (r: Result<int>)
    ensures r.Err? <==> RandintError(a, b).Some?
    ensures r.Err? ==> r.error == RandintError(a, b).value
    ensures r.Ok? ==> a <= r.value as real <= b
  {
    TruncExact(a);
    TruncExact(b + 1.0);
    IntegralShift(b);
    var istart := Trunc(a);
    if istart as real != a {
      return Err(NonIntegerArgument);
    }
    var istop := Trunc(b + 1.0);
    if istop as real != b + 1.0 {
      return Err(NonIntegerArgument);
    }
    var width := istop - istart;
    if width <= 0 {
      return Err(EmptyRange);
    }
    var x :| istart <= x < istop;
    return Ok(x);
  }

  /** Every note has volume 75 and a pitch in the closed band. */
  predicate RandomNotes(ns: seq<Note>, minPitch: real, pitchRange: real) {
    forall k :: 0 <= k < |ns| ==>
      ns[k].volume == RandomVolume && minPitch <= ns[k].pitch as real <= minPitch + pitchRange
  }

  /** Every draw has the same bounds, so the first one fails exactly when any would. */
  function RandomError(notesLimit: nat, minPitch: real, pitchRange: real): Option<Error> {
    if notesLimit == 0 then None else RandintError(minPitch, minPitch + pitchRange)
  }

  method TrackRandom(notesLimit: nat, minPitch: real, pitchRange: real, track: Track)
    returns (r: Result<Track>, ghost ns: seq<Note>)
    modifies track
    ensures r.Err? <==> RandomError(notesLimit, minPitch, pitchRange).Some?
    ensures r.Err? ==>
      r.error == RandomError(notesLimit, minPitch, pitchRange).value && track.events == old(track.events)
    ensures r.Ok? ==>
      r.value == track && |ns| == notesLimit && RandomNotes(ns, minPitch, pitchRange) &&
      track.events == old(track.events) + Notes(ns)
  {
    ns := [];
    for i := 0 to notesLimit
      invariant i > 0 ==> RandintError(minPitch, minPitch + pitchRange).None?
      invariant |ns| == i && RandomNotes(ns, minPitch, pitchRange)
      invariant track.events == old(track.events) + Notes(ns)
    {
      var draw := Randint(minPitch, minPitch + pitchRange);
      if draw.Err? {
        return Err(draw.error), ns;
      }
      var pitch := draw.value;
      NotesExtend(old(track.events), ns, Note(pitch, RandomVolume));
      track.AppendNote(pitch, RandomVolume);
      ns := ns + [Note(pitch, RandomVolume)];
    }
    return Ok(track), ns;
  }

  /** Integral band ends with a non-negative range never fail. */
  lemma IntegralBandDraws(notesLimit: nat, minPitch: int, pitchRange: nat)
    ensures RandomError(notesLimit, minPitch as real, pitchRange as real).None?
  {
    assert IsIntegral(minPitch as real);
    assert IsIntegral((minPitch + pitchRange) as real);
  }
}
