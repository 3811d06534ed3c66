# spotify-chorus-maker in Dafny

A model of the core of `app.py`. The program reads the songs of a Spotify
playlist and summarises them: their keys, modes, time signatures, tempi,
energies and genres. It then generates chord progressions whose parameters are
drawn from that summary, renders each progression as a MIDI track, and asks
Spotify for recommended tracks close to a target tempo, energy and time
signature.

The model covers the deterministic logic between the network calls. There is
one module per concern:

- `MusicTheory` (`music_theory.dfy`) holds `key_dict`, the key normalisation of
  `get_standard_key`, the full `CHORD_DICT` table and `chord_to_midi`.
  - Lemmas about the table state its shape. Every key's dict is the C dict
    transposed up by the key's pitch class, with one authored exception. Every
    entry is ascending and within MIDI range. Only the three seventh chords have
    four notes.
- `Progressions` (`progressions.dfy`) holds the two progression catalogs with
  their weights and the weighted pick `random.choices(..., weights=..., k=1)[0]`.
  The random number is a parameter. Exactly `weights[i]` of the `Sum(weights)`
  equally likely integer draws choose template `i`. The driver's
  `endswith('Major')` / `endswith('Minor')` dispatch is modelled too.
- `Midi` (`midi.dfy`) gives `generate_midi_file` as a method that builds the
  message list of the track. Each chord contributes one `note_on` per pitch at
  delta 0, then one `note_off` per pitch at delta 480. The method is proved
  equal to a specification function. That function is proved compositional and
  well formed, and its tick counts are proved.
- `Counters` (`counter.dfy`) holds the part of `collections.Counter` that
  `gather_data` uses:
  - construction from a list;
  - iteration in first-insertion order;
  - expansion back into a list by repeating each item by its count;
  - `most_common(1)`, which returns the earliest-inserted item among those of
    maximal count.
- `Corpus` (`corpus.dfy`) models the song loop of `gather_data` as a method with
  invariants over prefix functions, followed by the summary. The three
  exceptions that can escape are modelled as error values:
  - the `KeyError` for an unknown key index;
  - the `ZeroDivisionError` for an empty playlist;
  - the `IndexError` when no genre was collected.
- `Recommend` (`recommend.dfy`) holds `calculate_difference` and the tail of
  `get_recommendations`:
  - the nested-if filter loop, modelled as a method;
  - the stable sort by energy closeness;
  - the first three tracks;
  - the one-element tuple produced by the trailing comma.
- `Links` (`links.dfy`) holds Python's `str.split` and `str.join` with their two
  round trips, and `parse_spotify_link`.
- `Seqs` (`seqs.dfy`) and `Wrappers` (`wrappers.dfy`) are shared sequence
  helpers and the `Option` / `Result` types.

Floats are modelled as `real`. Every draw of the `random` module is a
parameter.

### Where the model follows the code rather than its comments or documentation

- `generate_midi_file` gives every `note_off` a delta of 480 ticks. A triad
  therefore spans 1440 ticks, not 480 (`Midi.ChordSpan`, `Midi.CMajorTriadExample`).
- A chord symbol missing from the key's dict yields `[]`. It adds no message and
  raises nothing (`Midi.UnresolvedChordsSilent`). The minor template
  `['i', 'ii˚', 'v', 'i']` spells its second chord with a ring above (U+02DA).
  No key dict has a supertonic diminished entry under any spelling: the only
  diminished symbol is `vii°`, and `ii°` with a degree sign is absent too. So
  `ii˚` never sounds, and respelling the template would still give `[]`
  (`MusicTheory.RingAboveSymbolUnlisted`, `MusicTheory.NoSupertonicDiminished`,
  `Progressions.CatalogChordsResolve`).
- The comment says the tracks are sorted by BPM closeness. The sort key is the
  energy distance `abs(energy - target_energy)` (`Recommend.Closeness`).
- `get_recommendations` returns `sorted_tracks[:3],`, which is a tuple holding
  one list (`Recommend.OneTuple`).
- The `VII` entry of `F` is `[75, 79, 82]`, an E-flat major triad. It is not the
  transposed C entry (`MusicTheory.FChordsFromC`).
- `get_standard_key` maps the dual spellings to `C#`, `Eb`, `F#`, `Ab` and `Bb`.
  That is a mix of sharps and flats, despite its docstring. Each of these five
  names is a key of `CHORD_DICT`, spelled as there (`MusicTheory.StandardKey`,
  `MusicTheory.KeyDictCoverage`).

## Model

| member | source | states |
|---|---|---|
| MusicTheory.StandardKey | app.py:42-51 | a dual-spelled name becomes its mapped spelling, which is a key of `CHORD_DICT` and is not itself rewritten; every other string is returned unchanged |
| MusicTheory.StandardKeySpellings | app.py:42-51 | each of the five dual-spelled names maps to `C#`, `Eb`, `F#`, `Ab` or `Bb` respectively |
| MusicTheory.StandardKeyIdempotent | app.py:42-51 | normalising twice equals normalising once; a name changes exactly when it is one of the five dual spellings |
| MusicTheory.KeyDictCoverage | app.py:204-217 | `key_dict` has the twelve pitch classes 0..11, and every name in it, once normalised, is a key of `CHORD_DICT` whose table is `TablesByPitchClass[pc]`; distinct pitch classes reach distinct keys |
| MusicTheory.DualSpellingsAbsent | app.py:292-555 | none of the dual-spelled names is a key of `CHORD_DICT` |
| MusicTheory.ChordDictReachedFromKeyDict | app.py:204-217 | every key of `CHORD_DICT` is reached, after normalisation, from some pitch class of `key_dict` (from only one, by `KeyDictCoverage`) |
| MusicTheory.UnnormalisedLookupFails | app.py:54-56 | looking up a dual-spelled `key_dict` name without normalising it raises `KeyError` for any chord |
| MusicTheory.Lookup | app.py:56 | `.get(chord_name, [])`: a listed symbol gives the entry at one of its positions in the key's dict, an unlisted one gives `[]` |
| MusicTheory.ChordToMidi | app.py:54-56 | the lookup fails exactly when the key is not in `CHORD_DICT`, with `KeyError` on that key; otherwise it returns the entry for the chord or `[]` |
| MusicTheory.ChordToMidiVerbatim | app.py:54-56 | for a known key, a listed symbol returns its authored pitch list verbatim and an unlisted symbol returns `[]` |
| MusicTheory.SymbolsDistinct | app.py:380-400 | the nineteen chord symbols of a key's dict are pairwise distinct |
| MusicTheory.CMajorTonicExample | app.py:381 | `chord_to_midi('C', 'I')` is `[60, 64, 67]` |
| MusicTheory.AFlatMinorTonicExample | app.py:307 | `chord_to_midi('Ab', 'i')` is `[68, 71, 75]` |
| MusicTheory.RingAboveSymbolUnlisted | app.py:249 | `ii˚` (ring above) resolves to `[]` in every key, while `vii°` (degree sign) is a listed symbol |
| MusicTheory.NoSupertonicDiminished | app.py:380-400 | neither `ii°` (degree sign) nor `ii˚` (ring above) is a symbol of the dict; only the minor triad `ii` is |
| MusicTheory.CShape | app.py:380-400 | every entry of the C dict is strictly ascending and lies in 57..77 |
| MusicTheory.CSharpChordsFromC | app.py:402-422 | every entry of `C#` is the C entry raised by 1 semitone |
| MusicTheory.DChordsFromC | app.py:423-442 | every entry of `D` is the C entry raised by 2 |
| MusicTheory.EbChordsFromC | app.py:444-463 | every entry of `Eb` is the C entry raised by 3 |
| MusicTheory.EChordsFromC | app.py:465-484 | every entry of `E` is the C entry raised by 4 |
| MusicTheory.FChordsFromC | app.py:486-506 | every entry of `F` except `VII` is the C entry raised by 5; `VII` is `[75, 79, 82]`, which is not that transposition |
| MusicTheory.FSharpChordsFromC | app.py:508-528 | every entry of `F#` is the C entry raised by 6 |
| MusicTheory.GChordsFromC | app.py:530-550 | every entry of `G` is the C entry raised by 7 |
| MusicTheory.AbChordsFromC | app.py:293-312 | every entry of `Ab` is the C entry raised by 8 |
| MusicTheory.AChordsFromC | app.py:314-334 | every entry of `A` is the C entry raised by 9 |
| MusicTheory.BbChordsFromC | app.py:336-356 | every entry of `Bb` is the C entry raised by 10 |
| MusicTheory.BChordsFromC | app.py:358-378 | every entry of `B` is the C entry raised by 11 |
| MusicTheory.PitchClassTable | app.py:292-555 | the table of the key named for pitch class `pc` is the C table raised by `pc` semitones, entry by entry, except F's `VII` |
| MusicTheory.TonicTriads | app.py:292-555 | for every pitch class, `I` is `[60+pc, 64+pc, 67+pc]` and `i` is `[60+pc, 63+pc, 67+pc]` in the normalised key of that pitch class |
| MusicTheory.SeventhPositions | app.py:380-400 | the four-note symbols `ii7`, `V7`, `I7` sit at positions 7, 8 and 9 of the symbol list and nowhere else |
| MusicTheory.TableShape | app.py:292-555 | every entry of every key is strictly ascending and within 57..88; it has four notes for a seventh symbol and three otherwise |
| MusicTheory.ChordToMidiRange | app.py:54-56 | a successful lookup returns a strictly ascending list of MIDI notes 0..127 with 0, 3 or 4 elements |
| Progressions.MajorCatalogFacts | app.py:220-272 | the 15 major templates pair one-to-one with 15 positive weights totalling 92 |
| Progressions.MinorCatalogFacts | app.py:238-289 | the 14 minor templates pair one-to-one with 14 positive weights totalling 86 |
| Progressions.MajorRunningSums | app.py:256-272 | `MajorCumulative` is the list of running sums of the major weights, the cumulative weights that `random.choices` bisects |
| Progressions.MinorRunningSums | app.py:274-289 | `MinorCumulative` is the list of running sums of the minor weights |
| Progressions.MajorCatalogDistinct | app.py:220-236 | the major templates are pairwise distinct |
| Progressions.MinorCatalogDistinct | app.py:238-253 | the minor templates are pairwise distinct |
| Progressions.MajorVocabulary | app.py:220-236 | every chord of every major template is a symbol of `CHORD_DICT` |
| Progressions.MinorVocabulary | app.py:238-253 | every chord of every minor template is a listed symbol, except the supertonic of template 10, which is `ii˚` with a ring above and the only place that spelling occurs |
| Progressions.CatalogChordsResolve | app.py:220-253 | every chord of every template resolves in every key of `CHORD_DICT`; its voicing is non-empty exactly when it is not `ii˚` |
| Progressions.Pick | app.py:736 | the draw `r` picks the first position whose running weight exceeds `r`: the running weight before it is at most `r` and the one through it exceeds `r` |
| Progressions.PickExactly | app.py:736 | a draw picks position `i` if and only if it lies in the `i`-th block of running weights |
| Progressions.PickCount | app.py:736 | of the `Sum(w)` integer draws, exactly `w[i]` pick position `i` |
| Progressions.PickFromRealDraw | app.py:736 | for a real draw `x` in [0, total), the position picked by `floor(x)` is the first whose running weight exceeds `x`, which is the position `bisect` returns |
| Progressions.SelectProgression | app.py:733-738 | a mode ending in `Major` selects the weighted choice `Choose` from the major catalog for the draw; otherwise a mode ending in `Minor` selects the weighted choice from the minor catalog; any other mode selects `[]` |
| Progressions.EndsWith | app.py:735 | `str.endswith`: `s` ends with `suffix` exactly when `s` is some prefix followed by `suffix` |
| Progressions.ModeLabelsSelectTheirCatalog | app.py:735-738 | `Major` ends with `Major` and not with `Minor`, and `Minor` ends with `Minor` and not with `Major`, so each label `gather_data` produces takes its own branch |
| Progressions.Choose | app.py:736 | the weighted choice returns a template of the catalog |
| Progressions.ChoiceFrequency | app.py:736 | with distinct templates, exactly `weights[i]` of the `Sum(weights)` draws choose template `i` |
| Progressions.MajorSelectionFrequency | app.py:736 | of the 92 draws for a major mode, exactly `major_weights[i]` choose major template `i` |
| Progressions.MinorSelectionFrequency | app.py:738 | of the 86 draws for a minor mode, exactly `minor_weights[i]` choose minor template `i` |
| Midi.NoteOns | app.py:67-68 | one `note_on` per pitch, in pitch order, with velocity 64 and delta 0 |
| Midi.NoteOffs | app.py:70-71 | one `note_off` per pitch, in pitch order, with velocity 64 and delta 480 |
| Midi.ChordEvents | app.py:66-71 | one chord appends `2n` messages: message `k` is the `note_on` of pitch `k` at delta 0, and message `n + k` the `note_off` of pitch `k` at delta 480 |
| Midi.Events | app.py:64-71 | the messages of the whole progression number two per pitch over all voicings |
| Midi.Voicings | app.py:64-66 | one voicing per chord of the progression |
| Midi.VoicingAt | app.py:65-66 | the `i`-th voicing is `chord_to_midi` on the normalised key and the `i`-th chord |
| Midi.AppendChord | app.py:67-71 | the two inner loops append exactly the chord's note-ons followed by its note-offs to the track |
| Midi.GenerateMidiEvents | app.py:59-71 | the outer loop fails exactly when the progression is non-empty and the normalised key is not in `CHORD_DICT`, with `KeyError` on that key; otherwise the track is the event stream of the voicings |
| Midi.NoteOnTicks | app.py:67-68 | the note-ons of a chord take no time |
| Midi.NoteOffTicks | app.py:70-71 | the note-offs of `n` pitches take `480 n` ticks |
| Midi.ChordSpan | app.py:66-71 | a chord of `n` pitches adds `2n` messages spanning `480 n` ticks |
| Midi.EventTotals | app.py:64-71 | the track has two messages per pitch of the progression and lasts 480 ticks per pitch |
| Midi.EventsAppend | app.py:64-71 | the stream of two progressions played one after the other is the concatenation of their streams |
| Midi.EventsSingleton | app.py:66-71 | the stream of a single chord is the chord's own messages |
| Midi.ChordPlacement | app.py:64-71 | the messages of chord `c` come after those of every earlier chord and before those of every later chord |
| Midi.UnresolvedChordsSilent | app.py:64-71 | chords that resolved to `[]` leave no message: the stream equals the stream of the resolved chords alone |
| Midi.EventsWellFormed | app.py:67-71 | when every voicing is in 0..127, every message is a note in 0..127 with velocity 64 and delta 0 (on) or 480 (off) |
| Midi.GeneratedMessagesValid | app.py:59-71 | every message of a generated track is well formed |
| Midi.CMajorTriadVoicing | app.py:381 | the progression `['I']` in C is voiced as `[[60, 64, 67]]` |
| Midi.CMajorTriadExample | app.py:59-71 | `['I']` in C gives three note-ons at delta 0, then three note-offs at delta 480: 1440 ticks |
| Midi.TwoChordExample | app.py:64-71 | the six messages of the first chord precede the six of the second |
| Counters.Add | app.py:650 | counting `x` once more raises its count by one and leaves the other counts alone; a new element goes to the end of the iteration order |
| Counters.FromSeq | app.py:650 | `Counter(xs)` has exactly the elements of `xs`, each counted with its multiplicity |
| Counters.ExpandOf | app.py:677-682 | every element of the comprehension over the items is one of the items |
| Counters.Expand | app.py:677-682 | the comprehension holds each item exactly as many times as its count, and nothing else |
| Counters.BestIndex | app.py:661 | the position of an item of maximal count, with every earlier item strictly less frequent: the first maximum over insertion order |
| Counters.FirstOccurrenceOrder | app.py:677-682 | the items of `Counter(xs)` come in the order of their first occurrences in `xs` |
| Counters.ExpandBlocks | app.py:677-682 | expansion lays out one contiguous block of `count` copies per item, in iteration order |
| Counters.ExpandPreservesMultiset | app.py:677-682 | expanding `Counter(xs)` gives a list of the same length and the same multiset as `xs` |
| Counters.ExpandedDrawHits | app.py:677-682 | each value occurs in the expansion exactly as often as in `xs`, so a uniform choice from it draws `v` with the frequency of `v` in `xs` |
| Counters.MostCommon | app.py:661 | `most_common(1)` is empty exactly when the counter is; otherwise it returns an element with its count, and no count exceeds it |
| Counters.MostCommonOfSeq | app.py:661 | `Counter(xs).most_common(1)` is absent exactly when `xs` is empty; otherwise it is an element of maximal multiplicity, the first to occur in `xs` among those |
| Corpus.ModeName | app.py:600-607 | the label is `Major` exactly when `mode == 1` and `Minor` exactly otherwise |
| Corpus.KeysAt | app.py:597-598 | the `j`-th recorded key name is `key_dict[songs[j].key]` |
| Corpus.Observe | app.py:592-632 | the loop fails exactly when some song's key is not in `key_dict`, with `KeyError` on the first such key; otherwise its records hold one entry per song in song order and the tallies over all songs |
| Corpus.RecordsElementwise | app.py:592-632 | in successful records every list has one entry per song, and entry `i` is song `i`'s key name, mode label, time signature, rounded tempo, energy or duration |
| Corpus.TalliesPartition | app.py:600-625 | the major and minor counts sum to the song count, as do the 4/4 and other counts; the major count is the number of `Major` labels and the 4/4 count the number of 4s |
| Corpus.MajorTally | app.py:600-607 | the major counter equals the number of `Major` labels appended |
| Corpus.CommonTimeTally | app.py:621-625 | the 4/4 counter equals the number of 4s appended |
| Corpus.Summarise | app.py:646-683 | no songs gives `ZeroDivisionError`; songs without genres give `IndexError`; otherwise the most common genre is one of the genres |
| Corpus.SummaryPreservesObservations | app.py:677-682 | every `all_*` list has exactly the multiset of the values observed for its attribute |
| Corpus.MostCommonGenre | app.py:661 | `most_common_genre` has maximal count among the genres, and is the earliest seen of those |
| Corpus.KeyDrawFrequency | app.py:677-682 | `all_keys` holds each key name as often as songs were in that key, and `all_modes` holds `Major` as often as there were major songs |
| Corpus.GatherData | app.py:560-683 | an unknown key index raises `KeyError` on the first one; otherwise the result is the summary of records that match the songs |
| Recommend.Difference | app.py:165-171 | the difference is non-negative, zero exactly when tempo and energy agree, and at least the tempo gap |
| Recommend.DifferenceIsDistance | app.py:165-171 | the difference is symmetric and obeys the triangle inequality |
| Recommend.EnergyCountsHalf | app.py:167 | at equal tempo the difference is half the energy gap |
| Recommend.Admits | app.py:702-706 | a track passes exactly when its time signature equals the target's, its energy is within 1.3 of the target energy and its tempo within 30 of the target tempo, all bounds inclusive |
| Recommend.AdmittedWithinDifference | app.py:702-706 | an admitted track lies within `calculate_difference` 30 + 0.65 of the target |
| Recommend.ClosenessIsDoubledDifference | app.py:710 | the sort key `abs(energy - target_energy)` is non-negative, zero exactly at the target energy, and twice the energy term of `calculate_difference` |
| Recommend.Shortlist | app.py:697-706 | the filtered list is no longer than the input, and every member passes all three tests |
| Recommend.ShortlistMultiset | app.py:697-706 | a track is kept, with all its occurrences, exactly when it passes the three inclusive tests |
| Recommend.ShortlistKeepsOrder | app.py:697-706 | the filtered tracks appear in their order of recommendation |
| Recommend.GetRecommendations | app.py:697-711 | the filter loop followed by sort and slice returns the recommendations of the specification function |
| Recommend.SortByCloseness | app.py:709-710 | the result is ordered by non-decreasing energy distance and is a permutation of its input |
| Recommend.SortStable | app.py:709-710 | tracks at equal energy distance keep their relative order, as in Python's stable `sorted` |
| Recommend.Top | app.py:711 | the result is a prefix of the ranking, of length 3 unless the ranking is shorter, in which case it is all of it |
| Recommend.Recommendations | app.py:711 | the returned one-element tuple holds at most three tracks, each recommended and admitted, in non-decreasing energy distance |
| Recommend.RankedMembers | app.py:697-710 | a track is in the ranking exactly when it is recommended and passes the three tests |
| Recommend.RecommendationGuarantees | app.py:697-711 | at most three tracks, each recommended and admitted, in non-decreasing energy distance; fewer than three only when fewer were admitted; no admitted track left out is closer than one returned |
| Recommend.RankingIsStable | app.py:697-710 | the ranking keeps recommendation order among tracks at equal energy distance, and the shortlist is a subsequence of the recommendations |
| Links.Split | app.py:83 | `str.split` returns at least one piece, and no piece contains the separator |
| Links.JoinSplit | app.py:83 | joining the pieces with the separator gives the string back |
| Links.SplitJoin | app.py:83 | splitting the join of separator-free pieces gives the pieces back |
| Links.FirstPieceIsPrefix | app.py:85 | `s.split(sep)[0]` is the prefix of `s` up to its first separator, or all of `s` |
| Links.LastPieceIsSuffix | app.py:85 | `s.split(sep)[-1]` is the suffix of `s` after its last separator, or all of `s` |
| Links.LastSegmentCut | app.py:85 | the cut id has no `/` and no `?`; it starts after the last `/` of the link and ends at the end or at a `?` |
| Links.ParseLink | app.py:81-87 | the link is accepted exactly when one of its `/`-segments is `playlist`, else `ValueError`; an accepted link's type is always `playlist`, so the check at app.py:720-722 never raises; the id is the last segment cut at its first `?` |
| Links.ParseJoinedLink | app.py:81-87 | a link joined from `/`-free segments that include `playlist` parses to its last segment cut at `?` |
| Links.QueryCutExample | app.py:85 | `'abc?si=7'.split('?')[0]` is `abc` |
| Links.AcceptedLinkExample | app.py:81-87 | `open.spotify.com/playlist/abc?si=7` parses to `('playlist', 'abc')` |
| Links.RejectedLinkExample | app.py:86-87 | `open.spotify.com/album/abc` is rejected |

## Left out

- `get_access_token`, `fetch_artist_genre`, `fetch_songs`, `get_drum_audio`, `sp.playlist`, `sp.recommendations` and `sp.audio_features`: HTTP and Spotify API calls. The songs and the recommended tracks with their audio features are inputs.
- `seed_genres` in `get_recommendations`: it only feeds `sp.recommendations`, which is not modelled.
- The sort key of `get_recommendations` calls `sp.audio_features` again for every track. The model assumes that call returns the same features the filter saw.
- The retry loop of `gather_data`: the `requests` exceptions, the backoff and `time.sleep`. The model covers one attempt that succeeds in fetching.
- Every `print`, and the `input` read of the link in the driver.
- The float averages `average_bpm` and `average_energy`, and the minute/second arithmetic. The model keeps their zero-division error because it decides whether `gather_data` succeeds. `Corpus.Summarise` does not return the values themselves.
- `most_common_key` and `most_common_mode`, and the counters' roles as module globals: `gather_data` computes them, but nothing reads them.
- Corpus.Song: `bpm` is the value of `round(tempo)`, taken as given, so Python's round-half-to-even is not modelled.
- Floating point in general is modelled as exact `real` arithmetic.
- `mido` and `MidiFile.save`: the track is the list of messages appended to it, and the file is not modelled.
- The `random` module: `random.choice` and `random.choices` take their draw as a parameter. `Progressions.PickFromRealDraw` relates the integer draw to `random() * total`.
- The `__main__` driver loop that draws ten songs, `sorted_songs`, and the generated-song dictionaries.
