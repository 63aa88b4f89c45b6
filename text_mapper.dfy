/** track_text: the digit string is cut into notes_limit - 1 chunks of per_note digits
    and one tail chunk holding the rest; each chunk, read as a decimal fraction, gives a note. */
module TextMapper {
  import opened Errors
  import opened Events
  import opened Pitch
  import opened Digits
  import opened Arith

  const TextVolume: int := 70

  /** last_note = n - per_note * (notes_limit - 1), the length of the tail chunk. */
  function LastNote(n: nat, notesLimit: nat): (last: nat)
    requires notesLimit >= 1
    ensures last <= n
  {
    var per := PerNote(n, notesLimit);
    DivMod(n, notesLimit);
    MulMonotone(1, notesLimit, per);
    assert per * (notesLimit - 1) + per == notesLimit * per;
    n - per * (notesLimit - 1)
  }

  /** The equal chunks end no later than where the tail starts, and the tail ends at n. */
  lemma TextChunkBounds(n: nat, notesLimit: nat, k: nat)
    requires notesLimit >= 1 && k < notesLimit - 1
    ensures k * PerNote(n, notesLimit) + PerNote(n, notesLimit)
      <= n - LastNote(n, notesLimit) == PerNote(n, notesLimit) * (notesLimit - 1)
  {
    var per := PerNote(n, notesLimit);
    MulMonotone(k + 1, notesLimit - 1, per);
    assert k * per + per == (k + 1) * per;
  }

  /** Chunk k of the digit string: data[k*per_note : (k+1)*per_note] for the first
      notes_limit - 1 chunks, data[n - last_note : n] for the last. */
  function TextChunk(data: string, notesLimit: nat, k: nat): (chunk: string)
    requires notesLimit >= 1 && k < notesLimit
    ensures k < notesLimit - 1 ==> |chunk| == PerNote(|data|, notesLimit)
    ensures k == notesLimit - 1 ==> |chunk| == LastNote(|data|, notesLimit)
  {
    var n := |data|;
    var per := PerNote(n, notesLimit);
    if k < notesLimit - 1 then
      TextChunkBounds(n, notesLimit, k);
      data[k * per..k * per + per]
    else
      data[n - LastNote(n, notesLimit)..n]
  }

  /** int(chunk) / 10 ** len(chunk). */
  function ChunkValue(chunk: string): real
    requires IsDigits(chunk)
  {
    DigitsValue(chunk) as real / Pow10(|chunk|) as real
  }

  /** The note a chunk gives: int(min_pitch + normalized_pitch * pitch_range) at volume 70. */
  function ChunkNote(minPitch: real, pitchRange: real, chunk: string): Note
    requires IsDigits(chunk)
  {
    Note(Scale(minPitch, pitchRange, ChunkValue(chunk)), TextVolume)
  }

  lemma ChunksAreDigits(data: string, notesLimit: nat, k: nat)
    requires IsDigits(data) && notesLimit >= 1 && k < notesLimit
    ensures IsDigits(TextChunk(data, notesLimit, k))
  {
    var c := TextChunk(data, notesLimit, k);
    if k < notesLimit - 1 {
      TextChunkBounds(|data|, notesLimit, k);
    }
    assert forall j :: 0 <= j < |c| ==> c[j] in data;
  }

  /** Note k of track_text: chunk k read as a decimal fraction and scaled into the band. */
  function TextNote(notesLimit: nat, minPitch: real, pitchRange: real, data: string, k: nat): Note
    requires notesLimit >= 1 && IsDigits(data) && k < notesLimit
  {
    ChunksAreDigits(data, notesLimit, k);
    ChunkNote(minPitch, pitchRange, TextChunk(data, notesLimit, k))
  }

  /** The first k notes track_text plays. */
  function TextNotesUpTo(notesLimit: nat, minPitch: real, pitchRange: real, data: string, k: nat): (ns: seq<Note>)
    requires notesLimit >= 1 && IsDigits(data) && k <= notesLimit
    ensures |ns| == k
  {
    if k == 0 then []
    else TextNotesUpTo(notesLimit, minPitch, pitchRange, data, k - 1) + [TextNote(notesLimit, minPitch, pitchRange, data, k - 1)]
  }

  /** The notes track_text plays: chunk k gives note k. */
  function TextNotes(notesLimit: nat, minPitch: real, pitchRange: real, data: string): (ns: seq<Note>)
    requires notesLimit >= 1 && IsDigits(data)
    ensures |ns| == notesLimit
  {
    TextNotesUpTo(notesLimit, minPitch, pitchRange, data, notesLimit)
  }

  /** A zero note limit divides n by zero; otherwise some chunk is empty exactly when
      n < notes_limit, and int('') raises. */
  function TextError(notesLimit: nat, n: nat): Option<Error> {
    if notesLimit == 0 then Some(ZeroDivision)
    else if n < notesLimit then Some(InvalidLiteral)
    else None
  }

  /** The equal chunks are empty exactly when n < notes_limit, the tail exactly when n == 0. */
  lemma EmptyChunks(n: nat, notesLimit: nat)
    requires notesLimit >= 1
    ensures PerNote(n, notesLimit) == 0 <==> n < notesLimit
    ensures LastNote(n, notesLimit) == 0 <==> n == 0
  {
    DivMod(n, notesLimit);
  }

  /** What the loop of track_text needs about equal chunk i, which starts at shift = i * per_note:
      it lies inside the string, it is empty exactly when n < notes_limit, and the notes grow by it. */
  lemma TextLoopStep(notesLimit: nat, minPitch: real, pitchRange: real, data: string,
                     i: nat, perNote: nat, shift: nat, prefix: seq<Event>)
    requires notesLimit >= 1 && IsDigits(data) && i < notesLimit - 1
    requires perNote == PerNote(|data|, notesLimit) && shift == i * perNote
    ensures shift + perNote <= |data|
    ensures data[shift..shift + perNote] == [] <==> |data| < notesLimit
    ensures IsDigits(data[shift..shift + perNote])
    ensures prefix + Notes(TextNotesUpTo(notesLimit, minPitch, pitchRange, data, i))
         + Pair(ChunkNote(minPitch, pitchRange, data[shift..shift + perNote]))
      == prefix + Notes(TextNotesUpTo(notesLimit, minPitch, pitchRange, data, i + 1))
  {
    EmptyChunks(|data|, notesLimit);
    TextChunkBounds(|data|, notesLimit, i);
    ChunksAreDigits(data, notesLimit, i);
    assert data[shift..shift + perNote] == TextChunk(data, notesLimit, i);
    NotesSnoc(TextNotesUpTo(notesLimit, minPitch, pitchRange, data, i), TextNote(notesLimit, minPitch, pitchRange, data, i));
    ConcatAssoc(prefix, Notes(TextNotesUpTo(notesLimit, minPitch, pitchRange, data, i)),
                Pair(TextNote(notesLimit, minPitch, pitchRange, data, i)));
  }

  /** What the end of track_text needs about the tail chunk, which starts at n - last_note:
      it is empty exactly when n == 0, and it gives the last note. */
  lemma TextTailStep(notesLimit: nat, minPitch: real, pitchRange: real, data: string, start: nat,
                     prefix: seq<Event>)
    requires notesLimit >= 1 && IsDigits(data)
    requires start == |data| - LastNote(|data|, notesLimit)
    ensures start <= |data|
    ensures data[start..] == [] <==> |data| == 0
    ensures IsDigits(data[start..])
    ensures prefix + Notes(TextNotesUpTo(notesLimit, minPitch, pitchRange, data, notesLimit - 1))
         + Pair(ChunkNote(minPitch, pitchRange, data[start..]))
      == prefix + Notes(TextNotes(notesLimit, minPitch, pitchRange, data))
  {
    EmptyChunks(|data|, notesLimit);
    ChunksAreDigits(data, notesLimit, notesLimit - 1);
    assert data[start..] == TextChunk(data, notesLimit, notesLimit - 1);
    NotesSnoc(TextNotesUpTo(notesLimit, minPitch, pitchRange, data, notesLimit - 1),
              TextNote(notesLimit, minPitch, pitchRange, data, notesLimit - 1));
    ConcatAssoc(prefix, Notes(TextNotesUpTo(notesLimit, minPitch, pitchRange, data, notesLimit - 1)),
                Pair(TextNote(notesLimit, minPitch, pitchRange, data, notesLimit - 1)));
  }

  /** One chunk of track_text: int('') raises before anything is appended; otherwise the
      chunk's note_on / note_off pair is appended. */
  method PlayChunk(minPitch: real, pitchRange: real, track: Track, chunk: string)
    returns (err: Option<Error>)
    requires IsDigits(chunk)
    modifies track
    ensures err.Some? <==> chunk == []
    ensures err.Some? ==> err.value == InvalidLiteral && track.events == old(track.events)
    ensures err.None? ==> track.events == old(track.events) + Pair(ChunkNote(minPitch, pitchRange, chunk))
  {
    if chunk == [] {
      return Some(InvalidLiteral);
    }
    var normalizedPitch := ChunkValue(chunk);
    var pitch := Scale(minPitch, pitchRange, normalizedPitch);
    var volume := TextVolume;
    track.AppendNote(pitch, volume);
    return None;
  }

  /** The loop of track_text over the first notes_limit - 1 chunks, each per_note digits long. */
  method PlayEqualChunks(notesLimit: nat, minPitch: real, pitchRange: real, track: Track, data: string,
                         perNote: nat)
    returns (err: Option<Error>)
    requires IsDigits(data) && notesLimit >= 1 && perNote == PerNote(|data|, notesLimit)
    modifies track
    ensures err.Some? <==> 1 < notesLimit && |data| < notesLimit
    ensures err.Some? ==> err.value == InvalidLiteral && track.events == old(track.events)
    ensures err.None? ==>
      track.events == old(track.events) + Notes(TextNotesUpTo(notesLimit, minPitch, pitchRange, data, notesLimit - 1))
  {
    for i := 0 to notesLimit - 1
      invariant i > 0 ==> notesLimit <= |data|
      invariant track.events == old(track.events) + Notes(TextNotesUpTo(notesLimit, minPitch, pitchRange, data, i))
    {
      var shift := Shift(i, perNote);
      TextLoopStep(notesLimit, minPitch, pitchRange, data, i, perNote, shift, old(track.events));
      err := PlayChunk(minPitch, pitchRange, track, data[shift..shift + perNote]);
      if err.Some? {
        assert i == 0;
        return;
      }
    }
    return None;
  }

  method TrackText(notesLimit: nat, minPitch: real, pitchRange: real, track: Track, data: string)
    returns (r: Result<Track>)
    requires IsDigits(data)
    modifies track
    ensures r.Err? <==> TextError(notesLimit, |data|).Some?
    ensures r.Err? ==> r.error == TextError(notesLimit, |data|).value && track.events == old(track.events)
    ensures r.Ok? ==>
      r.value == track &&
      track.events == old(track.events) + Notes(TextNotes(notesLimit, minPitch, pitchRange, data))
  {
    var n := |data|;
    if notesLimit == 0 {
      return Err(ZeroDivision);
    }
    var perNote := n / notesLimit;
    var lastNote := LastNote(n, notesLimit);
    var err := PlayEqualChunks(notesLimit, minPitch, pitchRange, track, data, perNote);
    if err.Some? {
      return Err(err.value);
    }
    TextTailStep(notesLimit, minPitch, pitchRange, data, n - lastNote, old(track.events));
    err := PlayChunk(minPitch, pitchRange, track, data[n - lastNote..]);
    if err.Some? {
      return Err(err.value);
    }
    return Ok(track);
  }

  /** The first k chunks, concatenated. */
  function JoinChunks(data: string, notesLimit: nat, k: nat): string
    requires notesLimit >= 1 && k <= notesLimit
  {
    if k == 0 then [] else JoinChunks(data, notesLimit, k - 1) + TextChunk(data, notesLimit, k - 1)
  }

  /** The tail is at least as long as every other chunk. */
  lemma TailIsLongest(n: nat, notesLimit: nat)
    requires notesLimit >= 1
    ensures LastNote(n, notesLimit) >= PerNote(n, notesLimit)
  {
  }

  lemma SuccTimes(k: nat, per: nat)
    ensures k * per + per == (k + 1) * per
  {
  }

  /** The first k equal chunks are exactly the first k * per_note digits. */
  lemma {:induction false} JoinPrefix(data: string, notesLimit: nat, k: nat)
    requires notesLimit >= 1 && k <= notesLimit - 1
    ensures k * PerNote(|data|, notesLimit) <= |data|
    ensures JoinChunks(data, notesLimit, k) == data[..k * PerNote(|data|, notesLimit)]
  {
    var per := PerNote(|data|, notesLimit);
    if k > 0 {
      JoinPrefix(data, notesLimit, k - 1);
      TextChunkBounds(|data|, notesLimit, k - 1);
      var start := (k - 1) * per;
      var end := k * per;
      assert start + per == end by {
        SuccTimes(k - 1, per);
      }
      assert TextChunk(data, notesLimit, k - 1) == data[start..end];
      assert data[..start] + data[start..end] == data[..end];
    }
  }

  /** All notes_limit chunks together give back the digit string, nothing dropped or repeated. */
  lemma ChunksCoverData(data: string, notesLimit: nat)
    requires notesLimit >= 1
    ensures JoinChunks(data, notesLimit, notesLimit) == data
  {
    var n := |data|;
    var per := PerNote(n, notesLimit);
    var start := n - LastNote(n, notesLimit);
    JoinPrefix(data, notesLimit, notesLimit - 1);
    assert start == (notesLimit - 1) * per by {
      assert per * (notesLimit - 1) == (notesLimit - 1) * per;
    }
    assert TextChunk(data, notesLimit, notesLimit - 1) == data[start..n];
    assert data[..start] + data[start..n] == data;
  }

  /** Every chunk's value int(chunk)/10^len(chunk) lies in [0,1). */
  lemma ChunkValueInUnit(chunk: string)
    requires IsDigits(chunk)
    ensures 0.0 <= ChunkValue(chunk) < 1.0
  {
    DigitsValueBound(chunk);
    RatioInUnit(DigitsValue(chunk), Pow10(|chunk|));
  }

  /** Note k of the first m notes is the note of chunk k. */
  lemma {:induction false} TextNotesAt(notesLimit: nat, minPitch: real, pitchRange: real, data: string, m: nat, k: nat)
    requires notesLimit >= 1 && IsDigits(data) && k < m <= notesLimit
    ensures TextNotesUpTo(notesLimit, minPitch, pitchRange, data, m)[k] == TextNote(notesLimit, minPitch, pitchRange, data, k)
  {
    if k < m - 1 {
      TextNotesAt(notesLimit, minPitch, pitchRange, data, m - 1, k);
    }
  }

  /** With a non-negative band, every text pitch lies between the truncated band ends,
      and with a positive band above zero it stays strictly below the top. */
  lemma TextPitchBounds(notesLimit: nat, minPitch: real, pitchRange: real, data: string, k: nat)
    requires notesLimit >= 1 && IsDigits(data) && k < notesLimit && pitchRange >= 0.0
    ensures Trunc(minPitch) <= TextNotes(notesLimit, minPitch, pitchRange, data)[k].pitch
                            <= Trunc(minPitch + pitchRange)
    ensures pitchRange > 0.0 && minPitch >= 0.0 ==>
      (TextNotes(notesLimit, minPitch, pitchRange, data)[k].pitch as real) < minPitch + pitchRange
    ensures TextNotes(notesLimit, minPitch, pitchRange, data)[k].volume == TextVolume
  {
    ChunksAreDigits(data, notesLimit, k);
    var chunk := TextChunk(data, notesLimit, k);
    TextNotesAt(notesLimit, minPitch, pitchRange, data, notesLimit, k);
    assert TextNotes(notesLimit, minPitch, pitchRange, data)[k] == ChunkNote(minPitch, pitchRange, chunk);
    var p := ChunkValue(chunk);
    ChunkValueInUnit(chunk);
    ScaleBounds(minPitch, pitchRange, p);
    if pitchRange > 0.0 && minPitch >= 0.0 {
      ScaleBelowTop(minPitch, pitchRange, p);
    }
  }

  /** "12345" over two notes: per_note is 2, so the chunks are "12" and the longer tail "345". */
  lemma FiveDigitChunks()
    ensures TextChunk("12345", 2, 0) == "12" && TextChunk("12345", 2, 1) == "345"
  {
  }

  /** "12" reads as 0.12 and "345" as 0.345; over [50, 80] they give pitches 53 and 60. */
  lemma FiveDigitValues()
    ensures ChunkNote(50.0, 30.0, "12") == Note(53, 70) && ChunkNote(50.0, 30.0, "345") == Note(60, 70)
  {
    assert ChunkValue("12") == 0.12 by {
      assert DigitsValue("1") == 1;
      assert DigitsValue("12") == 12;
      assert Pow10(2) == 100;
    }
    assert ChunkValue("345") == 0.345 by {
      assert DigitsValue("3") == 3;
      assert DigitsValue("34") == 34;
      assert DigitsValue("345") == 345;
      assert Pow10(3) == 1000;
    }
    assert Scale(50.0, 30.0, 0.12) == 53;
    assert Scale(50.0, 30.0, 0.345) == 60;
  }

  /** track_text with notes_limit 2 over [50, 80] plays "12345" as pitches 53 and 60. */
  lemma FiveDigits()
    ensures TextNotes(2, 50.0, 30.0, "12345") == [Note(53, 70), Note(60, 70)]
  {
    FiveDigitChunks();
    FiveDigitValues();
  }
}
