/** track_img: one note per equal chunk of the flattened pixel list, pitched by the
    chunk's mean channel intensity. */
module ImageMapper {
  import opened Errors
  import opened Events
  import opened Pitch
  import opened Arith

  /** One 8-bit colour channel, as decoded images store it. */
  type Channel = x: int | 0 <= x <= 255

  /** One pixel of the flattened (rows*cols, 3) pixel array. */
  type Pixel = (Channel, Channel, Channel)

  const ImageVolume: int := 70

  function PixelSum(p: Pixel): nat {
    p.0 + p.1 + p.2
  }

  /** The sum of all channels of the count pixels starting at start. */
  function ChunkSum(data: seq<Pixel>, start: nat, count: nat): nat
    requires start + count <= |data|
  {
    if count == 0 then 0 else ChunkSum(data, start, count - 1) + PixelSum(data[start + count - 1])
  }

  /** Note i reads pixels [i*per_note, (i+1)*per_note), all below notes_limit*per_note,
      which is at most len; the last len mod notes_limit pixels are never read. */
  lemma ChunkInBounds(len: nat, notesLimit: nat, i: nat)
    requires notesLimit >= 1 && i < notesLimit
    ensures i * PerNote(len, notesLimit) + PerNote(len, notesLimit) <= notesLimit * PerNote(len, notesLimit) <= len
    ensures len - notesLimit * PerNote(len, notesLimit) == len % notesLimit
    ensures PerNote(len, notesLimit) == 0 <==> len < notesLimit
  {
    var per := PerNote(len, notesLimit);
    DivMod(len, notesLimit);
    MulMonotone(i + 1, notesLimit, per);
    assert i * per + per == (i + 1) * per;
    assert notesLimit * per == per * notesLimit;
  }

  /** numerator / denominator for the count pixels starting at start: the chunk's mean
      channel intensity as a fraction of 255. */
  function ChunkMean(data: seq<Pixel>, start: nat, count: nat): real
    requires start + count <= |data| && count >= 1
  {
    ChunkSum(data, start, count) as real / (count * 255 * 3) as real
  }

  /** numerator / denominator for note i. */
  function ImageNormalized(data: seq<Pixel>, notesLimit: nat, i: nat): real
    requires 1 <= notesLimit <= |data| && i < notesLimit
  {
    var per := PerNote(|data|, notesLimit);
    ChunkInBounds(|data|, notesLimit, i);
    ChunkMean(data, i * per, per)
  }

  /** The notes track_img plays, one per chunk. */
  function ImageNotes(notesLimit: nat, minPitch: real, pitchRange: real, data: seq<Pixel>): (ns: seq<Note>)
    requires 1 <= notesLimit <= |data|
    ensures |ns| == notesLimit
  {
    seq(notesLimit, i requires 0 <= i < notesLimit =>
      Note(Scale(minPitch, pitchRange, ImageNormalized(data, notesLimit, i)), ImageVolume))
  }

  /** What the loop of track_img needs about chunk i, which starts at shift = i * per_note:
      it lies inside the image, and the notes grow by the note of its mean. */
  lemma ImageNotesStep(notesLimit: nat, minPitch: real, pitchRange: real, data: seq<Pixel>,
                       i: nat, perNote: nat, shift: nat, prefix: seq<Event>)
    requires 1 <= notesLimit <= |data| && i < notesLimit
    requires perNote == PerNote(|data|, notesLimit) && shift == i * perNote
    ensures shift + perNote <= |data|
    ensures prefix + Notes(ImageNotes(notesLimit, minPitch, pitchRange, data)[..i])
         + Pair(Note(Scale(minPitch, pitchRange, ChunkMean(data, shift, perNote)), ImageVolume))
      == prefix + Notes(ImageNotes(notesLimit, minPitch, pitchRange, data)[..i + 1])
  {
    ChunkInBounds(|data|, notesLimit, i);
    var ns := ImageNotes(notesLimit, minPitch, pitchRange, data);
    NotesSnoc(ns[..i], ns[i]);
    assert ns[..i] + [ns[i]] == ns[..i + 1];
    ConcatAssoc(prefix, Notes(ns[..i]), Pair(ns[i]));
  }

  /** A zero note limit divides len(data) by zero; fewer pixels than notes make
      per_note zero, and the first note divides by a zero denominator. */
  function ImageError(notesLimit: nat, len: nat): Option<Error> {
    if notesLimit == 0 || len < notesLimit then Some(ZeroDivision) else None
  }

  /** The inner loop of track_img: the channel sum of the count pixels from shift on. */
  method SumChunk(data: seq<Pixel>, shift: nat, count: nat) returns (numerator: int)
    requires shift + count <= |data|
    ensures numerator == ChunkSum(data, shift, count)
  {
    numerator := 0;
    for j := 0 to count
      invariant numerator == ChunkSum(data, shift, j)
    {
      numerator := numerator + data[j + shift].0 as int + data[j + shift].1 as int + data[j + shift].2 as int;
    }
  }

  /** One note of track_img: a chunk of no pixels divides by zero before anything is
      appended; otherwise the note of the chunk's mean is appended. */
  method PlayPixels(minPitch: real, pitchRange: real, track: Track, data: seq<Pixel>, shift: nat, perNote: nat)
    returns (err: Option<Error>)
    requires shift + perNote <= |data|
    modifies track
    ensures err.Some? <==> perNote == 0
    ensures err.Some? ==> err.value == ZeroDivision && track.events == old(track.events)
    ensures err.None? ==>
      track.events == old(track.events) + Pair(Note(Scale(minPitch, pitchRange, ChunkMean(data, shift, perNote)), ImageVolume))
  {
    var denominator := perNote * 255 * 3;
    var numerator := SumChunk(data, shift, perNote);
    if denominator == 0 {
      return Some(ZeroDivision);
    }
    var normalizedPitch := numerator as real / denominator as real;
    var pitch := Scale(minPitch, pitchRange, normalizedPitch);
    var volume := ImageVolume;
    track.AppendNote(pitch, volume);
    return None;
  }

  method TrackImg(notesLimit: nat, minPitch: real, pitchRange: real, track: Track, data: seq<Pixel>)
    returns (r: Result<Track>)
    modifies track
    ensures r.Err? <==> ImageError(notesLimit, |data|).Some?
    ensures r.Err? ==> r.error == ImageError(notesLimit, |data|).value && track.events == old(track.events)
    ensures r.Ok? ==>
      r.value == track &&
      track.events == old(track.events) + Notes(ImageNotes(notesLimit, minPitch, pitchRange, data))
  {
    if notesLimit == 0 {
      return Err(ZeroDivision);
    }
    var perNote := |data| / notesLimit;
    for i := 0 to notesLimit
      invariant i > 0 ==> notesLimit <= |data|
      invariant notesLimit <= |data| ==>
        track.events == old(track.events) + Notes(ImageNotes(notesLimit, minPitch, pitchRange, data)[..i])
      invariant notesLimit > |data| ==> track.events == old(track.events)
    {
      var shift := Shift(i, perNote);
      ChunkInBounds(|data|, notesLimit, i);
      if notesLimit <= |data| {
        ImageNotesStep(notesLimit, minPitch, pitchRange, data, i, perNote, shift, old(track.events));
      }
      var err := PlayPixels(minPitch, pitchRange, track, data, shift, perNote);
      if err.Some? {
        return Err(err.value);
      }
    }
    assert ImageNotes(notesLimit, minPitch, pitchRange, data)[..notesLimit]
      == ImageNotes(notesLimit, minPitch, pitchRange, data);
    return Ok(track);
  }

  /** Every chunk's channel sum lies between 0 and 765 per pixel. */
  lemma {:induction false} ChunkSumBounds(data: seq<Pixel>, start: nat, count: nat)
    requires start + count <= |data|
    ensures ChunkSum(data, start, count) <= 765 * count
  {
    if count > 0 {
      ChunkSumBounds(data, start, count - 1);
    }
  }

  /** The normalized pitch of every note lies in [0,1]. */
  lemma NormalizedInUnit(data: seq<Pixel>, notesLimit: nat, i: nat)
    requires 1 <= notesLimit <= |data| && i < notesLimit
    ensures 0.0 <= ImageNormalized(data, notesLimit, i) <= 1.0
  {
    var per := PerNote(|data|, notesLimit);
    ChunkInBounds(|data|, notesLimit, i);
    ChunkSumBounds(data, i * per, per);
    RatioInUnit(ChunkSum(data, i * per, per), per * 255 * 3);
  }

  /** With a non-negative range, every image pitch lies between the truncated band ends. */
  lemma ImagePitchBounds(notesLimit: nat, minPitch: real, pitchRange: real, data: seq<Pixel>, i: nat)
    requires 1 <= notesLimit <= |data| && i < notesLimit && pitchRange >= 0.0
    ensures Trunc(minPitch) <= ImageNotes(notesLimit, minPitch, pitchRange, data)[i].pitch
                            <= Trunc(minPitch + pitchRange)
    ensures ImageNotes(notesLimit, minPitch, pitchRange, data)[i].volume == ImageVolume
  {
    NormalizedInUnit(data, notesLimit, i);
    ScaleBounds(minPitch, pitchRange, ImageNormalized(data, notesLimit, i));
  }

  /** Every pixel of the chunk has all three channels equal to v. */
  ghost predicate ChunkIsGrey(data: seq<Pixel>, start: nat, count: nat, v: Channel) {
    start + count <= |data| && forall j :: start <= j < start + count ==> data[j] == (v, v, v)
  }

  lemma {:induction false} ChunkSumGrey(data: seq<Pixel>, start: nat, count: nat, v: Channel)
    requires ChunkIsGrey(data, start, count, v)
    ensures ChunkSum(data, start, count) == count * v * 3
  {
    if count > 0 {
      ChunkSumGrey(data, start, count - 1, v);
      assert PixelSum(data[start + count - 1]) == v * 3;
      assert count * v * 3 == (count - 1) * v * 3 + v * 3;
    }
  }

  /** A chunk whose every channel is v has mean v / 255. */
  lemma ChunkMeanGrey(data: seq<Pixel>, start: nat, count: nat, v: Channel)
    requires ChunkIsGrey(data, start, count, v) && count >= 1
    ensures ChunkMean(data, start, count) == v as real / 255.0
  {
    ChunkSumGrey(data, start, count, v);
    var c := (count * 3) as real;
    assert ChunkSum(data, start, count) as real == v as real * c;
    assert (count * 255 * 3) as real == 255.0 * c;
    assert (v as real * c) / (255.0 * c) == v as real / 255.0;
  }

  /** An all-black chunk gives normalized pitch 0, so its note sits at the truncated
      bottom of the band. */
  lemma BlackChunk(notesLimit: nat, minPitch: real, pitchRange: real, data: seq<Pixel>, i: nat)
    requires 1 <= notesLimit <= |data| && i < notesLimit
    requires ChunkIsGrey(data, i * PerNote(|data|, notesLimit), PerNote(|data|, notesLimit), 0)
    ensures ImageNormalized(data, notesLimit, i) == 0.0
    ensures ImageNotes(notesLimit, minPitch, pitchRange, data)[i].pitch == Trunc(minPitch)
  {
    var per := PerNote(|data|, notesLimit);
    ChunkInBounds(|data|, notesLimit, i);
    ChunkMeanGrey(data, i * per, per, 0);
    assert ImageNotes(notesLimit, minPitch, pitchRange, data)[i] == Note(Scale(minPitch, pitchRange, 0.0), ImageVolume);
    ScaleEnds(minPitch, pitchRange);
  }

  /** An all-white chunk gives normalized pitch 1, so its note sits at the truncated
      top of the band. */
  lemma WhiteChunk(notesLimit: nat, minPitch: real, pitchRange: real, data: seq<Pixel>, i: nat)
    requires 1 <= notesLimit <= |data| && i < notesLimit
    requires ChunkIsGrey(data, i * PerNote(|data|, notesLimit), PerNote(|data|, notesLimit), 255)
    ensures ImageNormalized(data, notesLimit, i) == 1.0
    ensures ImageNotes(notesLimit, minPitch, pitchRange, data)[i].pitch == Trunc(minPitch + pitchRange)
  {
    var per := PerNote(|data|, notesLimit);
    ChunkInBounds(|data|, notesLimit, i);
    ChunkMeanGrey(data, i * per, per, 255);
    assert ImageNotes(notesLimit, minPitch, pitchRange, data)[i] == Note(Scale(minPitch, pitchRange, 1.0), ImageVolume);
    ScaleEnds(minPitch, pitchRange);
  }

  /** A chunk's sum depends only on the pixels inside it. */
  lemma {:induction false} ChunkSumLocal(data: seq<Pixel>, other: seq<Pixel>, start: nat, count: nat)
    requires start + count <= |data| && start + count <= |other|
    requires data[start..start + count] == other[start..start + count]
    ensures ChunkSum(data, start, count) == ChunkSum(other, start, count)
  {
    if count > 0 {
      assert data[start + count - 1] == data[start..start + count][count - 1];
      assert other[start + count - 1] == other[start..start + count][count - 1];
      assert data[start..start + count - 1] == data[start..start + count][..count - 1];
      assert other[start..start + count - 1] == other[start..start + count][..count - 1];
      ChunkSumLocal(data, other, start, count - 1);
    }
  }

  /** The trailing len mod notes_limit pixels are never read: two images of the same
      length that agree on the first notes_limit*per_note pixels play the same notes. */
  lemma TrailingPixelsIgnored(notesLimit: nat, minPitch: real, pitchRange: real, data: seq<Pixel>, other: seq<Pixel>)
    requires 1 <= notesLimit <= |data| && |other| == |data|
    requires data[..notesLimit * PerNote(|data|, notesLimit)] == other[..notesLimit * PerNote(|data|, notesLimit)]
    ensures ImageNotes(notesLimit, minPitch, pitchRange, data) == ImageNotes(notesLimit, minPitch, pitchRange, other)
  {
    var per := PerNote(|data|, notesLimit);
    var read := notesLimit * per;
    forall i | 0 <= i < notesLimit
      ensures ImageNormalized(data, notesLimit, i) == ImageNormalized(other, notesLimit, i)
    {
      ChunkInBounds(|data|, notesLimit, i);
      assert data[i * per..i * per + per] == data[..read][i * per..i * per + per];
      assert other[i * per..i * per + per] == other[..read][i * per..i * per + per];
      ChunkSumLocal(data, other, i * per, per);
    }
  }

  /** track_img with notes_limit 2 over [50, 80]: two black pixels, then two white ones, play
      50 and 80; the fifth pixel is never read. */
  lemma FivePixels()
    ensures ImageNotes(2, 50.0, 30.0, [(0, 0, 0), (0, 0, 0), (255, 255, 255), (255, 255, 255), (7, 7, 7)])
         == [Note(50, 70), Note(80, 70)]
  {
  }
}
