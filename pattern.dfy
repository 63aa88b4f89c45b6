/** make_pattern: the global pitch band is split into n contiguous bands, one track per
    band, the last band taking what is left of the range. */
module PatternBuilder {
  import opened Errors
  import opened Events
  import opened Digits
  import opened Pitch
  import opened SingleTrack

  /** track_range = pitch_range / n. */
  function TrackRange(n: nat, pitchRange: real): (r: real)
    requires n >= 1
    ensures n as real * r == pitchRange
  {
    pitchRange / n as real
  }

  /** k * x, as k repeated additions of x. */
  function Times(k: nat, x: real): real {
    if k == 0 then 0.0 else Times(k - 1, x) + x
  }

  lemma {:induction false} TimesIsProduct(k: nat, x: real)
    ensures Times(k, x) == k as real * x
  {
    if k > 0 {
      TimesIsProduct(k - 1, x);
    }
  }

  /** With x >= 0, k * x grows with k. */
  lemma {:induction false} TimesMonotone(k: nat, m: nat, x: real)
    requires k <= m && x >= 0.0
    ensures Times(k, x) <= Times(m, x)
  {
    if k < m {
      TimesMonotone(k, m - 1, x);
    }
  }

  /** The min_pitch handed to track i: min_pitch + i * track_range. */
  function BandStart(n: nat, minPitch: real, pitchRange: real, i: nat): real
    requires n >= 1 && i < n
  {
    minPitch + Times(i, TrackRange(n, pitchRange))
  }

  /** The pitch_range handed to track i: track_range, except for the last track, which
      gets pitch_range - (n - 1) * track_range. */
  function BandWidth(n: nat, pitchRange: real, i: nat): real
    requires n >= 1 && i < n
  {
    if i < n - 1 then TrackRange(n, pitchRange)
    else pitchRange - Times(n - 1, TrackRange(n, pitchRange))
  }

  /** Band i starts at min_pitch + i * track_range; the last band is pitch_range - (n - 1) * track_range wide. */
  lemma BandFormulas(n: nat, minPitch: real, pitchRange: real, i: nat)
    requires n >= 1 && i < n
    ensures BandStart(n, minPitch, pitchRange, i) == minPitch + i as real * TrackRange(n, pitchRange)
    ensures BandWidth(n, pitchRange, i)
         == if i < n - 1 then TrackRange(n, pitchRange) else pitchRange - (n - 1) as real * TrackRange(n, pitchRange)
  {
    TimesIsProduct(i, TrackRange(n, pitchRange));
    TimesIsProduct(n - 1, TrackRange(n, pitchRange));
  }

  /** The sum of the first k band widths. */
  function WidthSum(n: nat, pitchRange: real, k: nat): real
    requires n >= 1 && k <= n
  {
    if k == 0 then 0.0 else WidthSum(n, pitchRange, k - 1) + BandWidth(n, pitchRange, k - 1)
  }

  lemma FirstBandStartsAtMin(n: nat, minPitch: real, pitchRange: real)
    requires n >= 1
    ensures BandStart(n, minPitch, pitchRange, 0) == minPitch
  {
  }

  /** Each band starts where the previous one ends. */
  lemma BandsContiguous(n: nat, minPitch: real, pitchRange: real, i: nat)
    requires n >= 1 && i + 1 < n
    ensures BandStart(n, minPitch, pitchRange, i) + BandWidth(n, pitchRange, i)
         == BandStart(n, minPitch, pitchRange, i + 1)
  {
  }

  /** The last band ends at the top of the global band. */
  lemma LastBandEndsAtTop(n: nat, minPitch: real, pitchRange: real)
    requires n >= 1
    ensures BandStart(n, minPitch, pitchRange, n - 1) + BandWidth(n, pitchRange, n - 1) == minPitch + pitchRange
  {
  }

  /** Band k starts the sum of the widths before it above min_pitch. */
  lemma {:induction false} StartIsWidthSum(n: nat, minPitch: real, pitchRange: real, k: nat)
    requires n >= 1 && k < n
    ensures BandStart(n, minPitch, pitchRange, k) == minPitch + WidthSum(n, pitchRange, k)
  {
    if k > 0 {
      StartIsWidthSum(n, minPitch, pitchRange, k - 1);
      BandsContiguous(n, minPitch, pitchRange, k - 1);
    }
  }

  /** The band widths add up to exactly pitch_range. */
  lemma WidthsSumToRange(n: nat, minPitch: real, pitchRange: real)
    requires n >= 1
    ensures WidthSum(n, pitchRange, n) == pitchRange
  {
    StartIsWidthSum(n, minPitch, pitchRange, n - 1);
    LastBandEndsAtTop(n, minPitch, pitchRange);
  }

  /** With exact division the last band is as wide as the others. */
  lemma LastBandWidth(n: nat, pitchRange: real)
    requires n >= 1
    ensures BandWidth(n, pitchRange, n - 1) == TrackRange(n, pitchRange)
  {
    var tr := TrackRange(n, pitchRange);
    TimesIsProduct(n - 1, tr);
    assert n as real * tr == pitchRange;
  }

  /** With a non-negative range the half-open bands [start, start + width) do not overlap:
      a pitch inside band i lies outside every later band j. */
  lemma BandsDisjoint(n: nat, minPitch: real, pitchRange: real, i: nat, j: nat, p: real)
    requires n >= 1 && i < j < n && pitchRange >= 0.0
    requires BandStart(n, minPitch, pitchRange, i) <= p < BandStart(n, minPitch, pitchRange, i) + BandWidth(n, pitchRange, i)
    ensures !(BandStart(n, minPitch, pitchRange, j) <= p < BandStart(n, minPitch, pitchRange, j) + BandWidth(n, pitchRange, j))
  {
    var tr := TrackRange(n, pitchRange);
    assert tr >= 0.0;
    BandsContiguous(n, minPitch, pitchRange, i);
    TimesMonotone(i + 1, j, tr);
    assert BandStart(n, minPitch, pitchRange, i + 1) <= BandStart(n, minPitch, pitchRange, j);
  }

  /** The closed bands of adjacent tracks meet: the truncated top of band i, the highest pitch
      its track can play, is the truncated start of band i + 1, the lowest pitch of the next. */
  lemma SharedBoundary(n: nat, minPitch: real, pitchRange: real, i: nat)
    requires n >= 1 && i + 1 < n
    ensures Trunc(BandStart(n, minPitch, pitchRange, i) + BandWidth(n, pitchRange, i))
         == Trunc(BandStart(n, minPitch, pitchRange, i + 1))
  {
    BandsContiguous(n, minPitch, pitchRange, i);
  }

  /** Three tracks over [50, 80] get the bands [50, 60], [60, 70] and [70, 80]. */
  lemma ThreeBands()
    ensures BandStart(3, 50.0, 30.0, 0) == 50.0 && BandWidth(3, 30.0, 0) == 10.0
    ensures BandStart(3, 50.0, 30.0, 1) == 60.0 && BandWidth(3, 30.0, 1) == 10.0
    ensures BandStart(3, 50.0, 30.0, 2) == 70.0 && BandWidth(3, 30.0, 2) == 10.0
  {
    assert TrackRange(3, 30.0) == 10.0;
  }

  /** A MIDI pattern: the list of tracks make_pattern appends to. */
  class Pattern {
    var tracks: seq<Track>

    constructor ()
      ensures tracks == []
    {
      tracks := [];
    }

    method Append(t: Track)
      modifies this
      ensures tracks == old(tracks) + [t]
    {
      tracks := tracks + [t];
    }
  }

  /** What make_pattern gives back: the pattern, the -1 of a track count below one, or
      the exception a track raised. */
  datatype PatternResult = Built(pattern: Pattern) | Rejected | Raised(error: Error)

  /** The error of the first of the first k bands whose track raises, if any. */
  function FirstBandError(limit: nat, n: nat, minPitch: real, pitchRange: real, src: Source, k: nat): Option<Error>
    requires n >= 1 && k <= n
  {
    if k == 0 then None
    else
      var earlier := FirstBandError(limit, n, minPitch, pitchRange, src, k - 1);
      if earlier.Some? then earlier
      else TrackError(limit, BandStart(n, minPitch, pitchRange, k - 1), BandWidth(n, pitchRange, k - 1), src)
  }

  /** Once a band has raised, later bands do not change which error is raised. */
  lemma {:induction false} FirstBandErrorSticks(limit: nat, n: nat, minPitch: real, pitchRange: real, src: Source,
                                                k: nat, m: nat)
    requires n >= 1 && k <= m <= n
    requires FirstBandError(limit, n, minPitch, pitchRange, src, k).Some?
    ensures FirstBandError(limit, n, minPitch, pitchRange, src, m) == FirstBandError(limit, n, minPitch, pitchRange, src, k)
  {
    if k < m {
      FirstBandErrorSticks(limit, n, minPitch, pitchRange, src, k, m - 1);
    }
  }

  /** With no error among the first k bands, the first k + 1 raise what band k raises. */
  lemma FirstBandErrorNext(limit: nat, n: nat, minPitch: real, pitchRange: real, src: Source, k: nat)
    requires n >= 1 && k < n
    requires FirstBandError(limit, n, minPitch, pitchRange, src, k).None?
    ensures FirstBandError(limit, n, minPitch, pitchRange, src, k + 1)
         == TrackError(limit, BandStart(n, minPitch, pitchRange, k), BandWidth(n, pitchRange, k), src)
  {
  }

  /** No track object appears twice. */
  predicate Distinct(tracks: seq<Track>) {
    forall k, l :: 0 <= k < l < |tracks| ==> tracks[k] != tracks[l]
  }

  lemma DistinctSnoc(tracks: seq<Track>, t: Track)
    requires Distinct(tracks) && t !in tracks
    ensures Distinct(tracks + [t])
  {
  }

  /** The events of the track of band i. */
  ghost predicate BandTrack(limit: nat, n: nat, minPitch: real, pitchRange: real, src: Source, i: nat,
                            events: seq<Event>)
    requires n >= 1 && i < n
  {
    SingleTrackOf(limit, BandStart(n, minPitch, pitchRange, i), BandWidth(n, pitchRange, i), src, events)
  }

  /** Band i of make_pattern: build the track of its pitch band and append it to the
      pattern, unless building it raises. */
  method AddBand(pattern: Pattern, limit: nat, n: nat, minPitch: real, pitchRange: real, trackRange: real,
                 src: Source, i: nat)
    returns (err: Option<Error>)
    requires n >= 1 && i < n && trackRange == TrackRange(n, pitchRange)
    requires src.Text? ==> IsDigits(src.chars)
    requires FirstBandError(limit, n, minPitch, pitchRange, src, i).None?
    modifies pattern
    ensures err == FirstBandError(limit, n, minPitch, pitchRange, src, i + 1)
    ensures err.Some? ==> pattern.tracks == old(pattern.tracks)
    ensures err.None? ==>
      |pattern.tracks| == |old(pattern.tracks)| + 1 &&
      pattern.tracks[..|old(pattern.tracks)|] == old(pattern.tracks) &&
      fresh(pattern.tracks[|old(pattern.tracks)|]) &&
      pattern.tracks[|old(pattern.tracks)|] !in old(pattern.tracks) &&
      BandTrack(limit, n, minPitch, pitchRange, src, i, pattern.tracks[|old(pattern.tracks)|].events)
  {
    var bandMin := minPitch + Times(i, trackRange);
    var bandRange := if i < n - 1 then trackRange else pitchRange - Times(n - 1, trackRange);
    var built, ns := MakeSingleTrack(limit, bandMin, bandRange, src);
    if built.Err? {
      return Some(built.error);
    }
    pattern.Append(built.value);
    return None;
  }

  /** The first n - 1 bands of make_pattern, each of width track_range, in order; stops at
      the first band whose track raises. */
  method AddEqualBands(pattern: Pattern, limit: nat, n: nat, minPitch: real, pitchRange: real, trackRange: real,
                       src: Source)
    returns (err: Option<Error>)
    requires n >= 1 && trackRange == TrackRange(n, pitchRange)
    requires src.Text? ==> IsDigits(src.chars)
    requires pattern.tracks == []
    modifies pattern
    ensures err.Some? ==> err == FirstBandError(limit, n, minPitch, pitchRange, src, n)
    ensures err.None? ==> FirstBandError(limit, n, minPitch, pitchRange, src, n - 1).None?
    ensures err.None? ==> |pattern.tracks| == n - 1
    ensures err.None? ==> forall k :: 0 <= k < n - 1 ==> fresh(pattern.tracks[k])
    ensures err.None? ==>
      forall k :: 0 <= k < n - 1 ==> BandTrack(limit, n, minPitch, pitchRange, src, k, pattern.tracks[k].events)
    ensures err.None? ==> Distinct(pattern.tracks)
  {
    for i := 0 to n - 1
      invariant |pattern.tracks| == i
      invariant FirstBandError(limit, n, minPitch, pitchRange, src, i).None?
      invariant forall k :: 0 <= k < i ==> fresh(pattern.tracks[k])
      invariant forall k :: 0 <= k < i ==> BandTrack(limit, n, minPitch, pitchRange, src, k, pattern.tracks[k].events)
      invariant Distinct(pattern.tracks)
    {
      ghost var before := pattern.tracks;
      err := AddBand(pattern, limit, n, minPitch, pitchRange, trackRange, src, i);
      if err.Some? {
        FirstBandErrorSticks(limit, n, minPitch, pitchRange, src, i + 1, n);
        return;
      }
      assert pattern.tracks == before + [pattern.tracks[i]];
      DistinctSnoc(before, pattern.tracks[i]);
    }
    return None;
  }

  method MakePattern(limit: nat, numberOfTracks: int, minPitch: real, pitchRange: real, src: Source)
    returns (r: PatternResult)
    requires src.Text? ==> IsDigits(src.chars)
    ensures r.Rejected? <==> numberOfTracks < 1
    ensures numberOfTracks >= 1 ==>
      (r.Raised? <==> FirstBandError(limit, numberOfTracks, minPitch, pitchRange, src, numberOfTracks).Some?)
    ensures r.Raised? ==>
      numberOfTracks >= 1 &&
      r.error == FirstBandError(limit, numberOfTracks, minPitch, pitchRange, src, numberOfTracks).value
    ensures r.Built? ==>
      numberOfTracks >= 1 && fresh(r.pattern) && |r.pattern.tracks| == numberOfTracks &&
      (forall i :: 0 <= i < numberOfTracks ==> fresh(r.pattern.tracks[i]))
    ensures r.Built? ==>
      forall i :: 0 <= i < |r.pattern.tracks| ==>
        BandTrack(limit, numberOfTracks, minPitch, pitchRange, src, i, r.pattern.tracks[i].events)
    ensures r.Built? ==> Distinct(r.pattern.tracks)
  {
    if numberOfTracks < 1 {
      return Rejected;
    }
    var n: nat := numberOfTracks;
    var pattern := new Pattern();
    var trackRange := pitchRange / n as real;
    var err := AddEqualBands(pattern, limit, n, minPitch, pitchRange, trackRange, src);
    if err.Some? {
      return Raised(err.value);
    }
    ghost var before := pattern.tracks;
    err := AddBand(pattern, limit, n, minPitch, pitchRange, trackRange, src, n - 1);
    if err.Some? {
      return Raised(err.value);
    }
    assert pattern.tracks == before + [pattern.tracks[n - 1]];
    DistinctSnoc(before, pattern.tracks[n - 1]);
    return Built(pattern);
  }
}
