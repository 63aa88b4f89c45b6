# Data-Sonification: the data-to-pitch mapping, in Dafny

Data-Sonification turns data into a MIDI pattern. The data can be:

- a function sampled at points;
- an image, as a flat list of RGB pixels;
- a string of decimal digits derived from a text file;
- nothing at all, in which case pitches are drawn at random.

Each track has a pitch band `[min_pitch, min_pitch + pitch_range]`. The mapper for the data's kind does two things:

1. It turns the data into `notes_limit` normalized pitches.
2. It scales each pitch into the band as `int(min_pitch + normalized_pitch * pitch_range)`.

Each pitch becomes a note-on event at tick 0 and a note-off event at tick 140, both with the same `[pitch, volume]`. An end-of-track marker closes the track. `make_pattern` splits a global band into `number_of_tracks` contiguous bands and builds one track per band; the last band takes whatever is left of the range.

The model follows `main.py` module by module:

| module | file | models |
|---|---|---|
| `Errors` | errors.dfy | the exceptions that reach the caller (`ZeroDivisionError`, the `ValueError`s of `int()` and `random.randint`), plus `Option` and `Result` |
| `Pitch` | pitch.dfy | `int()` on a number (truncation toward zero), and the scaling shared by every mapper |
| `Events` | events.dfy | note and event values, and the `Track` class whose `events` list the mappers append to in place |
| `Digits` | digits.dfy | `int(s)` on decimal strings and `str(n)` |
| `TextSource` | text_source.dfy | the conversion in `parse_txt_data`: hexlify the bytes, read them in base 16, render in decimal |
| `ImageMapper` | image_mapper.dfy | `track_img` |
| `TextMapper` | text_mapper.dfy | `track_text` |
| `RandomMapper` | random_mapper.dfy | `random.randint` and `track_random` |
| `FunctionMapper` | function_mapper.dfy | `track_function` over an abstract sampler |
| `SingleTrack` | single_track.dfy | `make_single_track`: the dispatch on the kind of data and the end-of-track marker |
| `PatternBuilder` | pattern.dfy | `make_pattern`: the band split, and the `Pattern` class that collects the tracks |

`Arith` (arith.dfy) holds `per_note` and `shift`, which the image and text mappers share, and a few facts about integer multiplication and division.

The mappers and `make_single_track`/`make_pattern` are methods:

- `Track` and `Pattern` are classes, and the mappers change them with `modifies` clauses, as the source appends to its lists in place.
- The loops of the source stay loops, with their invariants.
- Each method is proved against a specification function, for example `ImageNotes` or `TextNotes`. The properties the source promises are lemmas about those functions.
- Each Python exception becomes an `Err` result. In every mode the exception is raised before anything is appended, so the track is unchanged on error, and the contracts state exactly when each error happens.
- `random.randint` is a nondeterministic choice (`:|`) inside the `Randint` method. The notes a random or function track may play are stated as a predicate, and each method returns the notes it played as a ghost value.
- Floats are modelled as exact reals. `int()` on a float is `Pitch.Trunc`.

Two details of the code shape the model:

- `int(...)` truncates toward zero, so the model uses `Pitch.Trunc`, which differs from floor only for negative non-integral values.
- `min_pitch + i * track_range` is a float in Python 3, so `min_pitch` is a real throughout, and `random.randint` refuses a bound with a fractional part.

The model follows Python 3 releases that have neither the integer-string conversion limit nor 3.12's refusal of float bounds in `random.randint`, that is any Python 3 release before 3.10.7 except 3.7.14 and later 3.7 releases, 3.8.14 and later 3.8 releases, and 3.9.14 and later 3.9 releases.

## Model

| member | source | states |
|---|---|---|
| TextSource.Hexlify | main.py:26 | `binascii.hexlify`, defined as two lower-case hex digits per byte, high nibble first; no contract of its own: HexlifyIsHex states its shape |
| TextSource.HexValue | main.py:27 | `int(s, 16)` on a hex string, defined left to right as 16·int(s[:-1], 16) plus the last digit; no contract of its own: HexlifyValue ties it to the bytes |
| TextSource.ParseTxtData | main.py:26-27 | an empty input fails with the `int('', 16)` error; otherwise the result is a non-empty decimal digit string whose value equals the bytes read as one big-endian base-256 number, and it starts with '0' only when it is "0" |
| TextSource.HexlifyIsHex | main.py:26 | hexlify writes exactly two hex digits per byte |
| TextSource.HexlifyValue | main.py:26-27 | reading the hexlified bytes as a base-16 number gives their big-endian base-256 value |
| TextSource.BigEndianLeadingZero | main.py:26-27 | a leading zero byte does not change the number the bytes denote |
| TextSource.LeadingZeroBytesVanish | main.py:26-27 | a file with an extra leading zero byte gives the same digit string |
| Digits.Decimal | main.py:27 | `str(n)` is a non-empty string of decimal digits; its value and its first digit are stated by DecimalValue and DecimalNoLeadingZero |
| Digits.DigitsValue | main.py:92-93 | `int(s)` on a decimal string, defined left to right as 10·int(s[:-1]) plus the last digit; no contract of its own: DigitsValueBound bounds it, and the error of `int('')` is kept apart by TextMapper.PlayChunk |
| Digits.Pow10 | main.py:93 | `10 ** k`, the chunk denominator at main.py:93 and main.py:103, is at least 1, so dividing by it never fails |
| Digits.DecimalValue | main.py:27 | int(str(n)) == n: the decimal rendering denotes the number |
| Digits.DecimalNoLeadingZero | main.py:27 | str(n) starts with '0' exactly when n is 0, and then it is "0" |
| Digits.DigitsValueBound | main.py:93 | a k-digit string denotes a number below 10^k |
| Pitch.Trunc | main.py:72 | int(x) is the integer next to x toward zero: within one below a non-negative x, within one above a negative x |
| Pitch.TruncExact | main.py:117 | int(x) == x exactly when x has no fractional part (the check randint makes on its bounds) |
| Pitch.IntegralShift | main.py:117 | b + 1 is integral exactly when b is (randint's upper bound) |
| Pitch.TruncMonotone | main.py:72 | int() on numbers is monotone |
| Pitch.Scale | main.py:72 | `int(min_pitch + normalized_pitch * pitch_range)`, the pitch every mapper computes (also main.py:49, 95, 104); no contract of its own: ScaleBounds, ScaleBelowTop and ScaleEnds state what it gives |
| Pitch.ScaleBounds | main.py:72 | with a non-negative range, a normalized pitch in [0,1] scales to a pitch between int(min_pitch) and int(min_pitch + pitch_range) |
| Pitch.ScaleBelowTop | main.py:95 | a normalized pitch below 1 scales strictly below min_pitch + pitch_range (band above zero) |
| Pitch.ScaleEnds | main.py:72 | normalized 0 gives int(min_pitch) and 1 gives int(min_pitch + pitch_range) |
| Events.Track.Append | main.py:43 | appending an event (the end-of-track marker) grows the track's events by exactly that event |
| Events.Pair | main.py:75-79 | one note appends a note-on then a note-off carrying the same pitch and volume |
| Events.Notes | main.py:75-79 | the events a sequence of notes appends, defined as the pairs of its notes in order; no contract of its own: NotesShape and NotesSnoc state its shape |
| Events.NotesShape | main.py:75-79 | k notes give 2k events, and note k is at events 2k and 2k+1 as note-on tick 0 and note-off tick 140 on channel 0 |
| Events.NotesSnoc | main.py:78-79 | playing one more note extends the events by exactly its pair |
| Events.Track.AppendNote | main.py:78-79 | the track's events grow by the note's note-on / note-off pair and nothing else |
| Arith.PerNote | main.py:61 | `per_note = int(len / notes_limit)` (also main.py:86) is the largest count with notes_limit·per_note ≤ len < notes_limit·(per_note + 1) |
| Arith.Shift | main.py:64 | `shift = i * per_note` (also main.py:90), where chunk i starts; defined by the product, no contract of its own: ChunkInBounds and TextChunkBounds bound it |
| ImageMapper.ImageError | main.py:61-70 | defined as ZeroDivisionError when notes_limit is 0 (main.py:61) or len < notes_limit, which makes per_note and so the denominator 0 (main.py:70); TrackImg states that it raises exactly this |
| ImageMapper.PixelSum | main.py:68 | `int(p[0]) + int(p[1]) + int(p[2])`, the channel sum one pixel adds to the numerator; ChunkSumBounds bounds the sums it makes |
| ImageMapper.ChunkSum | main.py:66-68 | defined as the R+G+B sum of the count pixels from start; SumChunk states that the inner loop computes it |
| ImageMapper.ChunkMean | main.py:65-70 | `numerator / denominator` for a chunk, defined as its channel sum over count·255·3; no contract of its own: ChunkMeanGrey, BlackChunk and WhiteChunk state it on uniform chunks |
| ImageMapper.ImageNormalized | main.py:64-70 | the normalized pitch of note i, defined as the mean of chunk i, which starts at i·per_note; NormalizedInUnit bounds it |
| ImageMapper.ImageNotes | main.py:63-79 | track_img's notes are exactly notes_limit, note i being chunk i's mean scaled into the band at volume 70 |
| ImageMapper.ChunkInBounds | main.py:61-68 | note i reads pixels [i·per_note, (i+1)·per_note), all below notes_limit·per_note ≤ len; len − notes_limit·per_note = len mod notes_limit; per_note is 0 exactly when len < notes_limit |
| ImageMapper.SumChunk | main.py:66-68 | the inner loop's numerator is the R+G+B channel sum of the chunk's pixels |
| ImageMapper.PlayPixels | main.py:64-79 | a chunk of no pixels raises ZeroDivisionError with the track unchanged; otherwise the note of the chunk's mean intensity, at volume 70, is appended |
| ImageMapper.TrackImg | main.py:60-81 | raises ZeroDivisionError exactly when notes_limit is 0 or there are fewer pixels than notes, leaving the track unchanged; otherwise appends exactly the notes ImageNotes gives, one per chunk in order |
| ImageMapper.ImageNotesStep | main.py:63-79 | the note of chunk i's mean, appended after the first i notes, gives the first i+1 notes, and the chunk is inside the image |
| ImageMapper.ChunkSumBounds | main.py:68 | a chunk's channel sum is at most 765 per pixel |
| ImageMapper.NormalizedInUnit | main.py:65-70 | every normalized image pitch numerator/denominator lies in [0,1] |
| ImageMapper.ImagePitchBounds | main.py:70-74 | with a non-negative range every image pitch lies between int(min_pitch) and int(min_pitch + pitch_range), at volume 70 |
| ImageMapper.ChunkSumGrey | main.py:66-68 | a chunk whose channels all equal v sums to count·v·3 |
| ImageMapper.ChunkMeanGrey | main.py:65-70 | a chunk whose channels all equal v has normalized pitch v/255 |
| ImageMapper.BlackChunk | main.py:65-72 | an all-zero chunk gives normalized pitch 0 and pitch int(min_pitch) |
| ImageMapper.WhiteChunk | main.py:65-72 | an all-255 chunk gives normalized pitch 1 and pitch int(min_pitch + pitch_range) |
| ImageMapper.ChunkSumLocal | main.py:66-68 | a chunk's sum depends only on the pixels inside it |
| ImageMapper.TrailingPixelsIgnored | main.py:61-68 | two images of the same length that agree on their first notes_limit·per_note pixels play the same notes: the trailing len mod notes_limit pixels are never read |
| ImageMapper.FivePixels | main.py:60-81 | two black pixels, two white ones and a grey one, over [50, 80] with two notes, play 50 and 80 |
| TextMapper.TextError | main.py:86-93 | defined as ZeroDivisionError when notes_limit is 0 (main.py:86) and the `int('')` ValueError when n < notes_limit, as PlayEqualChunks and TextTailStep show; TrackText states that it raises exactly this |
| TextMapper.LastNote | main.py:87 | the tail chunk is no longer than the string |
| TextMapper.TextChunkBounds | main.py:86-92 | every equal chunk ends no later than where the tail starts, n − last_note = per_note·(notes_limit − 1) |
| TextMapper.TextChunk | main.py:90-103 | chunk k is data[k·per_note : (k+1)·per_note], per_note long, for k < notes_limit − 1, and the tail data[n − last_note : n], last_note long, for the last k |
| TextMapper.ChunkValue | main.py:93 | `int(chunk) / 10 ** len(chunk)`, defined by DigitsValue over Pow10; no contract of its own: ChunkValueInUnit bounds it |
| TextMapper.ChunkNote | main.py:93-96 | the note of a chunk, defined as its value scaled into the band at volume 70; FiveDigitValues gives two worked cases |
| TextMapper.TextNote | main.py:92-104 | note k of track_text, defined as the note of chunk k: `int(chunk) / 10 ** len(chunk)` scaled into the band at volume 70 (main.py:92-96 for the equal chunks, main.py:103-105 for the tail) |
| TextMapper.TextNotesUpTo | main.py:89-101 | the notes of the first k chunks, in order, exactly k of them: what the loop of main.py:89-101 has appended after k rounds |
| TextMapper.TextNotes | main.py:89-110 | track_text's notes are exactly notes_limit, note k being the note of chunk k (TextNotesAt) |
| TextMapper.ChunksAreDigits | main.py:92-93 | every chunk of a digit string is a digit string |
| TextMapper.EmptyChunks | main.py:86-87 | the equal chunks are empty exactly when n < notes_limit, the tail exactly when n = 0 |
| TextMapper.TextLoopStep | main.py:89-101 | chunk i = data[i·per_note : (i+1)·per_note] lies inside the string, is empty exactly when n < notes_limit, and its note extends the first i notes to the first i+1 |
| TextMapper.TextTailStep | main.py:103-110 | the tail data[n − last_note : n] is empty exactly when n = 0, and its note after the first notes_limit − 1 notes gives all the notes |
| TextMapper.PlayChunk | main.py:92-101 | an empty chunk raises the int('') ValueError with the track unchanged; otherwise the chunk's note at volume 70 is appended |
| TextMapper.PlayEqualChunks | main.py:89-101 | the loop raises exactly when notes_limit > 1 and n < notes_limit, leaving the track unchanged; otherwise it appends the first notes_limit − 1 notes |
| TextMapper.TrackText | main.py:84-112 | raises ZeroDivisionError when notes_limit is 0 and the int('') ValueError exactly when n < notes_limit otherwise, leaving the track unchanged; otherwise appends exactly the notes TextNotes gives, the tail's last |
| TextMapper.TextNotesAt | main.py:89-110 | note k of the notes played is the note of chunk k |
| TextMapper.TailIsLongest | main.py:86-87 | last_note ≥ per_note |
| TextMapper.JoinPrefix | main.py:89-92 | the first k equal chunks concatenate to the first k·per_note digits |
| TextMapper.ChunksCoverData | main.py:85-103 | the notes_limit − 1 equal chunks followed by the tail concatenate to exactly the digit string |
| TextMapper.ChunkValueInUnit | main.py:93 | int(chunk)/10^len(chunk) lies in [0,1) |
| TextMapper.TextPitchBounds | main.py:93-105 | with a non-negative range every text pitch lies between int(min_pitch) and int(min_pitch + pitch_range), strictly below min_pitch + pitch_range for a positive band above zero, at volume 70 |
| TextMapper.FiveDigitChunks | main.py:86-92 | "12345" over two notes splits into "12" and the longer tail "345" |
| TextMapper.FiveDigitValues | main.py:93-96 | over [50, 80], "12" gives pitch 53 and "345" pitch 60 |
| TextMapper.FiveDigits | main.py:84-112 | track_text plays "12345" over [50, 80] with two notes as 53 then 60, at volume 70 |
| RandomMapper.RandintError | main.py:117 | defined as the error `randint(a, b)` raises: a non-integral bound first, then b < a; Randint states that it raises exactly this |
| RandomMapper.Randint | main.py:117 | randint(a, b) raises exactly when a bound is not integral or b < a, with the matching error; otherwise returns an integer of [a, b] |
| RandomMapper.RandomError | main.py:116-117 | defined as nothing when notes_limit is 0, otherwise the error of the first draw `randint(min_pitch, min_pitch + pitch_range)`, whose bounds every draw shares; TrackRandom states that it raises exactly this |
| RandomMapper.RandomNotes | main.py:117-119 | the notes track_random may play: each at volume 75 with a pitch in [min_pitch, min_pitch + pitch_range] |
| RandomMapper.TrackRandom | main.py:115-123 | raises exactly when some draw would, before any append; otherwise appends notes_limit notes, each at volume 75 with a pitch in [min_pitch, min_pitch + pitch_range] |
| RandomMapper.IntegralBandDraws | main.py:117 | integral band ends with a non-negative range never make randint raise |
| FunctionMapper.VolumeTop | main.py:50 | `60 + int(min_pitch / 8)`, the top of the volume draw; no contract of its own: VolumeRangeEmpty states when the draw falls empty |
| FunctionMapper.FunctionPitch | main.py:49 | the pitch of note i, defined as the sample for i scaled into the band; FunctionPitchBounds bounds it |
| FunctionMapper.FunctionNotes | main.py:49-52 | the notes track_function may play: note k has the sampled pitch of k and a volume in [55, 60 + int(min_pitch / 8)] |
| FunctionMapper.FunctionError | main.py:49-50 | defined as ZeroDivisionError when min_pitch is 0, else the error of the first volume draw, and nothing when there are no notes; TrackFunction states that it raises exactly this |
| FunctionMapper.TrackFunction | main.py:47-57 | a zero min_pitch raises ZeroDivisionError in the first note, and an empty volume range raises in the first draw, both before any append; otherwise appends notes_limit notes, note i with pitch int(min_pitch + sample·pitch_range) and a volume in [55, 60 + int(min_pitch/8)] |
| FunctionMapper.FunctionPitchBounds | main.py:49 | with a non-negative range, a sample in [0,1] gives a pitch between int(min_pitch) and int(min_pitch + pitch_range) |
| FunctionMapper.VolumeRangeEmpty | main.py:50 | past the zero check, the volume range is empty, and the first draw fails, exactly when min_pitch ≤ −48 |
| SingleTrack.TrackError | main.py:33-41 | defined as the error of the mapper the data's kind selects, and nothing for unsupported data; MakeSingleTrack states that it raises exactly this |
| SingleTrack.ModeNotes | main.py:33-41 | the notes the mapper selected by the data's kind may play: ImageNotes for pixels, TextNotes for a digit string, RandomNotes for None, FunctionNotes for a function, none for unsupported data |
| SingleTrack.SingleTrackOf | main.py:30-44 | the events of a track make_single_track may build: the events of notes ModeNotes allows, then the end-of-track marker |
| SingleTrack.MakeSingleTrack | main.py:30-44 | fails exactly when the matching mapper raises, with its error; otherwise returns a new track holding the notes that mapper may play, then the end-of-track marker |
| SingleTrack.SingleTrackShape | main.py:30-44 | a track holds 2·len(notes)+1 events, the last the end-of-track marker, note k as note-on / note-off at events 2k, 2k+1; a supported kind plays notes_limit notes; volume 70 for pixels and strings, 75 for None with the pitch in the band, [55, 60 + int(min_pitch/8)] for a function; unsupported data gives only the marker |
| PatternBuilder.TrackRange | main.py:131 | `track_range = pitch_range / n`, so that n·track_range == pitch_range |
| PatternBuilder.BandStart | main.py:133 | the min_pitch handed to track i, defined as min_pitch + i·track_range by repeated addition (the last band's at main.py:135); BandFormulas ties it to the product |
| PatternBuilder.BandWidth | main.py:133-135 | the pitch_range handed to track i, defined as track_range, and pitch_range − (n−1)·track_range for the last track; BandFormulas and WidthsSumToRange state it |
| PatternBuilder.FirstBandStartsAtMin | main.py:131-133 | band 0 starts at min_pitch |
| PatternBuilder.BandFormulas | main.py:131-135 | band i starts at min_pitch + i·track_range; every band is track_range wide except the last, which is pitch_range − (n−1)·track_range wide |
| PatternBuilder.BandsContiguous | main.py:131-135 | each band starts where the previous one ends |
| PatternBuilder.LastBandEndsAtTop | main.py:135 | the last band ends at min_pitch + pitch_range |
| PatternBuilder.StartIsWidthSum | main.py:131-135 | band k starts at min_pitch plus the widths of the bands before it |
| PatternBuilder.WidthsSumToRange | main.py:131-135 | the band widths sum to exactly pitch_range |
| PatternBuilder.LastBandWidth | main.py:131-135 | with exact division the last band is as wide as the others |
| PatternBuilder.BandsDisjoint | main.py:131-135 | with a non-negative range the half-open bands [start, start + width) do not overlap: a real pitch lies in at most one of them |
| PatternBuilder.SharedBoundary | main.py:131-135 | the closed bands of adjacent tracks share their boundary: the truncated top of band i is the truncated start of band i+1, so adjacent tracks can play the same integer pitch there |
| PatternBuilder.ThreeBands | main.py:131-135 | three tracks over [50, 80] get the bands starting at 50, 60, 70, each 10 wide |
| PatternBuilder.FirstBandError | main.py:132-136 | defined as the error of the first of the first k bands whose track raises; FirstBandErrorSticks and FirstBandErrorNext state how it grows |
| PatternBuilder.Pattern.Append | main.py:134-136 | appending a track grows the pattern's tracks by exactly that track |
| PatternBuilder.FirstBandErrorSticks | main.py:132-136 | once a band's track has raised, later bands do not change which error make_pattern raises |
| PatternBuilder.FirstBandErrorNext | main.py:132-136 | with no error before band k, the first k+1 bands raise what band k raises |
| PatternBuilder.BandTrack | main.py:133-135 | the events of band i's track: a track make_single_track may build over BandStart and BandWidth of band i |
| PatternBuilder.AddBand | main.py:133-136 | builds band i's track over that band's start and width and appends it, or leaves the pattern unchanged when the track raises, the first error of the bands so far |
| PatternBuilder.AddEqualBands | main.py:132-134 | the loop over the first n − 1 bands either raises the first error of all n bands or appends n − 1 new, distinct tracks, track k built over band k |
| PatternBuilder.MakePattern | main.py:126-141 | a track count below one is refused (-1) and nothing is built; otherwise it raises exactly when some band's track raises, with the first such error; otherwise the new pattern holds exactly n new, distinct tracks, track i built over band i |

## Left out

- Floating point: every float is an exact real, and `int()` on a float is exact truncation. IEEE rounding of `/`, `*` and `int()` is not modelled. So the exact-sum facts about the bands hold in the model but not bit-for-bit in Python.
- `sinusoidal_function` and the sampling point `math.pi * i / (float(min_pitch) / 5)` use floating-point `sin` and `pi`. They are abstracted into `FunctionMapper.Sampler`, a function of `min_pitch` and `i`. Only the division by zero of that point is kept.
- `parse_img_data`: image decoding with cv2 and the numpy reshape are foreign code. The image mapper starts from the flattened pixel list.
- File reading and UTF-8 encoding in `parse_txt_data` are I/O. The conversion starts from the encoded bytes.
- The `midi` library is modelled only by values: its track and pattern lists become the `Track` and `Pattern` classes, and its events become the `Event` datatype. `write_midifile` and FluidSynth playback are not modelled.
- `random`: randint's draw is a nondeterministic choice, not a generator, so no distribution is modelled.
- The `print` of the error message in `make_pattern` is output only. The model keeps its `-1` result as `Rejected`.
- The `__main__` block is configuration.
- notes_limit is a `nat`, so negative note counts are not modelled.
- TextMapper.TrackText: requires the string to be decimal digits, the only strings `parse_txt_data` produces. Python's `int()` also accepts whitespace, signs and, from 3.6, underscores, and rejects other characters; for other strings those cases are not modelled. The integer-string conversion limit is not modelled either: in Python 3.7.14, 3.8.14, 3.9.14, 3.10.7 and later, `int()` raises ValueError on a chunk of more than 4300 digits (leading zeros count) at main.py:92-93 and main.py:103, where the model returns `Ok`.
- SingleTrack.MakeSingleTrack, PatternBuilder.MakePattern (and its helpers PatternBuilder.AddBand and PatternBuilder.AddEqualBands): require the same of a string source, and share the same omission of the 4300-digit limit.
- RandomMapper.Randint: follows `random.randrange` up to Python 3.11, which accepts integral floats. Python 3.12 refuses every float bound with a TypeError, which is not modelled.
- TextSource.ParseTxtData: the releases with the integer-string conversion limit (3.7.14, 3.8.14, 3.9.14, 3.10.7 and later) refuse `str()` of an integer with more than 4300 digits; that limit is not modelled.
- The unused `denominator = 10 ** per_note`, the unused `numerator = int(...)` and the repeated `int(...)` at main.py:91-93 add nothing beyond the error that `int('')` raises, so each chunk is converted once.
- Which Python object types count as a "function", an `np.ndarray` or a `str` in `make_single_track` is reduced to the cases of `SingleTrack.Source`. Any other non-None data is `Unsupported`, and it gives a track holding only the end-of-track marker, as in the source.
