/**
 * The static music-theory tables of the chorus maker and the lookups over them:
 * the pitch-class names (`key_dict`), the enharmonic normalisation
 * (`get_standard_key`), the chord table (`CHORD_DICT`) and `chord_to_midi`.
 *
 * Each of the twelve per-key dicts of `CHORD_DICT` lists the same nineteen
 * roman-numeral symbols in the same order, so the model keeps that symbol row
 * once (`Symbols`) and, per key, the pitch lists in that order (`KeyTable`).
 * A lookup `CHORD_DICT[key].get(chord, [])` becomes `Lookup`, which finds the
 * symbol's position in the row.
 */
module MusicTheory {
  import opened Wrappers
  import opened Seqs

  /**
   * `key_dict`: Spotify's pitch class of the tonic to its display name. Its keys
   * are exactly 0..11, so it is kept as the sequence indexed by pitch class.
   */
  const KeyDict: seq<string> := [
    "C", "C♯/D♭", "D", "D♯/E♭", "E", "F",
    "F♯/G♭", "G", "G♯/A♭", "A", "A♯/B♭", "B"
  ]

  /** The dual-spelled names `get_standard_key` rewrites, and what it rewrites them to. */
  const KeyMapping: map<string, string> := map[
    "C♯/D♭" := "C#",
    "D♯/E♭" := "Eb",
    "F♯/G♭" := "F#",
    "G♯/A♭" := "Ab",
    "A♯/B♭" := "Bb"
  ]

  /** `get_standard_key`: the rewritten name for a dual-spelled key, any other string unchanged. */
  function StandardKey(key: string): (k: string)
    ensures key in KeyMapping ==> k == KeyMapping[key] && k in ChordDict && k !in KeyMapping
    ensures key !in KeyMapping ==> k == key
  {
    if key in KeyMapping then KeyMapping[key] else key
  }

  /** The symbols of every per-key dict of `CHORD_DICT`, in the order they are written. */
  const Symbols: seq<string> := [
    "I", "ii", "iii", "IV", "V", "vi", "vii°",
    "ii7", "V7", "I7",
    "bVII", "bIII", "bVI",
    "i", "iv", "v", "VII", "VI", "III"
  ]

  /** Positions in `Symbols` that the lemmas below single out. */
  const MajorTonic := 0    // "I"
  const MinorTonic := 13   // "i"
  const SubtonicTriad := 16 // "VII"

  /** The highest note number a MIDI message can carry. */
  const MaxMidiNote := 127

  /** The three four-note symbols of the table; every other symbol is a triad. */
  const SeventhSymbols: set<string> := {"ii7", "V7", "I7"}

  /** One key's dict of `CHORD_DICT`: the pitch list of `Symbols[i]` at position `i`. */
  type KeyTable = t: seq<seq<int>> | |t| == |Symbols| witness seq(19, i => [])

  /** `CHORD_DICT`: key name to that key's chord table. */
  const ChordDict: map<string, KeyTable> := map[
    "Ab" := AbChords,
    "A" := AChords,
    "Bb" := BbChords,
    "B" := BChords,
    "C" := CChords,
    "C#" := CSharpChords,
    "D" := DChords,
    "Eb" := EbChords,
    "E" := EChords,
    "F" := FChords,
    "F#" := FSharpChords,
    "G" := GChords
  ]

  /** The `Ab` entry of `CHORD_DICT`, one pitch list per symbol of `Symbols`. */
  const AbChords: KeyTable := [
    [68, 72, 75],     // I
    [70, 73, 77],     // ii
    [72, 75, 79],     // iii
    [73, 77, 80],     // IV
    [75, 79, 82],     // V
    [77, 80, 84],     // vi
    [79, 82, 85],     // vii°
    [70, 73, 77, 80], // ii7
    [75, 79, 82, 85], // V7
    [68, 72, 75, 78], // I7
    [67, 70, 73],     // bVII
    [71, 75, 78],     // bIII
    [65, 68, 72],     // bVI
    [68, 71, 75],     // i
    [73, 76, 80],     // iv
    [75, 78, 82],     // v
    [77, 80, 83],     // VII
    [76, 80, 83],     // VI
    [72, 75, 79]      // III
  ]

  /** The `A` entry of `CHORD_DICT`, one pitch list per symbol of `Symbols`. */
  const AChords: KeyTable := [
    [69, 73, 76],     // I
    [71, 74, 78],     // ii
    [73, 76, 80],     // iii
    [74, 78, 81],     // IV
    [76, 80, 83],     // V
    [78, 81, 85],     // vi
    [80, 83, 86],     // vii°
    [71, 74, 78, 81], // ii7
    [76, 80, 83, 86], // V7
    [69, 73, 76, 79], // I7
    [68, 71, 74],     // bVII
    [72, 76, 79],     // bIII
    [66, 69, 73],     // bVI
    [69, 72, 76],     // i
    [74, 77, 81],     // iv
    [76, 79, 83],     // v
    [78, 81, 84],     // VII
    [77, 81, 84],     // VI
    [73, 76, 80]      // III
  ]

  /** The `Bb` entry of `CHORD_DICT`, one pitch list per symbol of `Symbols`. */
  const BbChords: KeyTable := [
    [70, 74, 77],     // I
    [72, 75, 79],     // ii
    [74, 77, 81],     // iii
    [75, 79, 82],     // IV
    [77, 81, 84],     // V
    [79, 82, 86],     // vi
    [81, 84, 87],     // vii°
    [72, 75, 79, 82], // ii7
    [77, 81, 84, 87], // V7
    [70, 74, 77, 80], // I7
    [69, 72, 75],     // bVII
    [73, 77, 80],     // bIII
    [67, 70, 74],     // bVI
    [70, 73, 77],     // i
    [75, 78, 82],     // iv
    [77, 80, 84],     // v
    [79, 82, 85],     // VII
    [78, 82, 85],     // VI
    [74, 77, 81]      // III
  ]

  /** The `B` entry of `CHORD_DICT`, one pitch list per symbol of `Symbols`. */
  const BChords: KeyTable := [
    [71, 75, 78],     // I
    [73, 76, 80],     // ii
    [75, 78, 82],     // iii
    [76, 80, 83],     // IV
    [78, 82, 85],     // V
    [80, 83, 87],     // vi
    [82, 85, 88],     // vii°
    [73, 76, 80, 83], // ii7
    [78, 82, 85, 88], // V7
    [71, 75, 78, 81], // I7
    [70, 73, 76],     // bVII
    [74, 78, 81],     // bIII
    [68, 71, 75],     // bVI
    [71, 74, 78],     // i
    [76, 79, 83],     // iv
    [78, 81, 85],     // v
    [80, 83, 86],     // VII
    [79, 83, 86],     // VI
    [75, 78, 82]      // III
  ]

  /** The `C` entry of `CHORD_DICT`, one pitch list per symbol of `Symbols`. */
  const CChords: KeyTable := [
    [60, 64, 67],     // I
    [62, 65, 69],     // ii
    [64, 67, 71],     // iii
    [65, 69, 72],     // IV
    [67, 71, 74],     // V
    [69, 72, 76],     // vi
    [71, 74, 77],     // vii°
    [62, 65, 69, 72], // ii7
    [67, 71, 74, 77], // V7
    [60, 64, 67, 70], // I7
    [59, 62, 65],     // bVII
    [63, 67, 70],     // bIII
    [57, 60, 64],     // bVI
    [60, 63, 67],     // i
    [65, 68, 72],     // iv
    [67, 70, 74],     // v
    [69, 72, 75],     // VII
    [68, 72, 75],     // VI
    [64, 67, 71]      // III
  ]

  /** The `C#` entry of `CHORD_DICT`, one pitch list per symbol of `Symbols`. */
  const CSharpChords: KeyTable := [
    [61, 65, 68],     // I
    [63, 66, 70],     // ii
    [65, 68, 72],     // iii
    [66, 70, 73],     // IV
    [68, 72, 75],     // V
    [70, 73, 77],     // vi
    [72, 75, 78],     // vii°
    [63, 66, 70, 73], // ii7
    [68, 72, 75, 78], // V7
    [61, 65, 68, 71], // I7
    [60, 63, 66],     // bVII
    [64, 68, 71],     // bIII
    [58, 61, 65],     // bVI
    [61, 64, 68],     // i
    [66, 69, 73],     // iv
    [68, 71, 75],     // v
    [70, 73, 76],     // VII
    [69, 73, 76],     // VI
    [65, 68, 72]      // III
  ]

  /** The `D` entry of `CHORD_DICT`, one pitch list per symbol of `Symbols`. */
  const DChords: KeyTable := [
    [62, 66, 69],     // I
    [64, 67, 71],     // ii
    [66, 69, 73],     // iii
    [67, 71, 74],     // IV
    [69, 73, 76],     // V
    [71, 74, 78],     // vi
    [73, 76, 79],     // vii°
    [64, 67, 71, 74], // ii7
    [69, 73, 76, 79], // V7
    [62, 66, 69, 72], // I7
    [61, 64, 67],     // bVII
    [65, 69, 72],     // bIII
    [59, 62, 66],     // bVI
    [62, 65, 69],     // i
    [67, 70, 74],     // iv
    [69, 72, 76],     // v
    [71, 74, 77],     // VII
    [70, 74, 77],     // VI
    [66, 69, 73]      // III
  ]

  /** The `Eb` entry of `CHORD_DICT`, one pitch list per symbol of `Symbols`. */
  const EbChords: KeyTable := [
    [63, 67, 70],     // I
    [65, 68, 72],     // ii
    [67, 70, 74],     // iii
    [68, 72, 75],     // IV
    [70, 74, 77],     // V
    [72, 75, 79],     // vi
    [74, 77, 80],     // vii°
    [65, 68, 72, 75], // ii7
    [70, 74, 77, 80], // V7
    [63, 67, 70, 73], // I7
    [62, 65, 68],     // bVII
    [66, 70, 73],     // bIII
    [60, 63, 67],     // bVI
    [63, 66, 70],     // i
    [68, 71, 75],     // iv
    [70, 73, 77],     // v
    [72, 75, 78],     // VII
    [71, 75, 78],     // VI
    [67, 70, 74]      // III
  ]

  /** The `E` entry of `CHORD_DICT`, one pitch list per symbol of `Symbols`. */
  const EChords: KeyTable := [
    [64, 68, 71],     // I
    [66, 69, 73],     // ii
    [68, 71, 75],     // iii
    [69, 73, 76],     // IV
    [71, 75, 78],     // V
    [73, 76, 80],     // vi
    [75, 78, 81],     // vii°
    [66, 69, 73, 76], // ii7
    [71, 75, 78, 81], // V7
    [64, 68, 71, 74], // I7
    [63, 66, 69],     // bVII
    [67, 71, 74],     // bIII
    [61, 64, 68],     // bVI
    [64, 67, 71],     // i
    [69, 72, 76],     // iv
    [71, 74, 78],     // v
    [73, 76, 79],     // VII
    [72, 76, 79],     // VI
    [68, 71, 75]      // III
  ]

  /** The `F` entry of `CHORD_DICT`, one pitch list per symbol of `Symbols`. */
  const FChords: KeyTable := [
    [65, 69, 72],     // I
    [67, 70, 74],     // ii
    [69, 72, 76],     // iii
    [70, 74, 77],     // IV
    [72, 76, 79],     // V
    [74, 77, 81],     // vi
    [76, 79, 82],     // vii°
    [67, 70, 74, 77], // ii7
    [72, 76, 79, 82], // V7
    [65, 69, 72, 75], // I7
    [64, 67, 70],     // bVII
    [68, 72, 75],     // bIII
    [62, 65, 69],     // bVI
    [65, 68, 72],     // i
    [70, 73, 77],     // iv
    [72, 75, 79],     // v
    [75, 79, 82],     // VII
    [73, 77, 80],     // VI
    [69, 72, 76]      // III
  ]

  /** The `F#` entry of `CHORD_DICT`, one pitch list per symbol of `Symbols`. */
  const FSharpChords: KeyTable := [
    [66, 70, 73],     // I
    [68, 71, 75],     // ii
    [70, 73, 77],     // iii
    [71, 75, 78],     // IV
    [73, 77, 80],     // V
    [75, 78, 82],     // vi
    [77, 80, 83],     // vii°
    [68, 71, 75, 78], // ii7
    [73, 77, 80, 83], // V7
    [66, 70, 73, 76], // I7
    [65, 68, 71],     // bVII
    [69, 73, 76],     // bIII
    [63, 66, 70],     // bVI
    [66, 69, 73],     // i
    [71, 74, 78],     // iv
    [73, 76, 80],     // v
    [75, 78, 81],     // VII
    [74, 78, 81],     // VI
    [70, 73, 77]      // III
  ]

  /** The `G` entry of `CHORD_DICT`, one pitch list per symbol of `Symbols`. */
  const GChords: KeyTable := [
    [67, 71, 74],     // I
    [69, 72, 76],     // ii
    [71, 74, 78],     // iii
    [72, 76, 79],     // IV
    [74, 78, 81],     // V
    [76, 79, 83],     // vi
    [78, 81, 84],     // vii°
    [69, 72, 76, 79], // ii7
    [74, 78, 81, 84], // V7
    [67, 71, 74, 77], // I7
    [66, 69, 72],     // bVII
    [70, 74, 77],     // bIII
    [64, 67, 71],     // bVI
    [67, 70, 74],     // i
    [72, 75, 79],     // iv
    [74, 77, 81],     // v
    [76, 79, 82],     // VII
    [75, 79, 82],     // VI
    [71, 74, 78]      // III
  ]

  /** `CHORD_DICT[key].get(chord, [])` once `CHORD_DICT[key]` has been found. */
  function Lookup(table: KeyTable, chord: string): (ps: seq<int>)
    ensures chord in Symbols ==> exists i :: 0 <= i < |Symbols| && Symbols[i] == chord && ps == table[i]
    ensures chord !in Symbols ==> ps == []
  {
    match IndexOf(Symbols, chord)
    case Some(i) => table[i]
    case None => []
  }

  datatype LookupError = KeyError(key: string)

  /** `chord_to_midi`: a key that is not in `CHORD_DICT` raises `KeyError`. */
  function ChordToMidi(key: string, chord: string): (r: Result<seq<int>, LookupError>)
    ensures r.Err? <==> key !in ChordDict
    ensures r.Err? ==> r.error == KeyError(key)
  {
    if key in ChordDict then Ok(Lookup(ChordDict[key], chord)) else Err(KeyError(key))
  }

  // ---------------------------------------------------------------------------
  // Key names and their normalisation

  /** The dual-spelled names become two sharp and three flat spellings. */
  lemma StandardKeySpellings()
    ensures StandardKey("C♯/D♭") == "C#"
    ensures StandardKey("D♯/E♭") == "Eb"
    ensures StandardKey("F♯/G♭") == "F#"
    ensures StandardKey("G♯/A♭") == "Ab"
    ensures StandardKey("A♯/B♭") == "Bb"
    ensures StandardKey("C#") == "C#" && StandardKey("Eb") == "Eb"
  {
  }

  /** Normalising twice is normalising once, and only the five dual spellings change. */
  lemma StandardKeyIdempotent(key: string)
    ensures StandardKey(StandardKey(key)) == StandardKey(key)
    ensures StandardKey(key) != key <==> key in KeyMapping
  {
  }

  /** The chord tables in pitch-class order: position `pc` holds the table of the key `key_dict` names for `pc`. */
  const TablesByPitchClass: seq<KeyTable> := [
    CChords, CSharpChords, DChords, EbChords, EChords, FChords,
    FSharpChords, GChords, AbChords, AChords, BbChords, BChords
  ]

  /**
   * Every name of `key_dict`, normalised, is a key of `CHORD_DICT` (the table at
   * position `pc` of `TablesByPitchClass`), and distinct pitch classes reach distinct keys.
   */
  lemma KeyDictCoverage()
    ensures |KeyDict| == 12
    ensures forall pc :: 0 <= pc < 12 ==>
      StandardKey(KeyDict[pc]) in ChordDict && ChordDict[StandardKey(KeyDict[pc])] == TablesByPitchClass[pc]
    ensures forall pc, pc' :: 0 <= pc < pc' < 12 ==> StandardKey(KeyDict[pc]) != StandardKey(KeyDict[pc'])
  {
  }

  /** None of the dual spellings is a key of `CHORD_DICT`. */
  lemma DualSpellingsAbsent()
    ensures forall key :: key in KeyMapping ==> key !in ChordDict
  {
  }

  /** Every key of `CHORD_DICT` is reached from a pitch class of `key_dict`. */
  lemma ChordDictReachedFromKeyDict(key: string)
    requires key in ChordDict
    ensures exists pc :: 0 <= pc < 12 && StandardKey(KeyDict[pc]) == key
  {
    var pc :=
      if key == "C" then 0 else if key == "C#" then 1 else if key == "D" then 2
      else if key == "Eb" then 3 else if key == "E" then 4 else if key == "F" then 5
      else if key == "F#" then 6 else if key == "G" then 7 else if key == "Ab" then 8
      else if key == "A" then 9 else if key == "Bb" then 10 else 11;
    assert StandardKey(KeyDict[pc]) == key;
  }

  /** Looking up a dual-spelled name without normalising it first always raises `KeyError`. */
  lemma UnnormalisedLookupFails(pc: int, chord: string)
    requires 0 <= pc < 12 && KeyDict[pc] in KeyMapping
    ensures ChordToMidi(KeyDict[pc], chord) == Err(KeyError(KeyDict[pc]))
  {
    DualSpellingsAbsent();
  }

  // ---------------------------------------------------------------------------
  // The chord table

  /** No symbol is listed twice in a key's dict. */
  lemma SymbolsDistinct()
    ensures Distinct(Symbols)
  {
  }

  /** The table has no supertonic diminished triad under any spelling: only `ii`, the minor triad. */
  lemma NoSupertonicDiminished()
    ensures "ii°" !in Symbols && "ii˚" !in Symbols && "ii" in Symbols
  {
  }

  /** `chord_to_midi` returns the authored entry verbatim for a listed symbol and `[]` otherwise. */
  lemma {:induction false} ChordToMidiVerbatim(key: string, i: nat, chord: string)
    requires key in ChordDict && i < |Symbols|
    ensures ChordToMidi(key, Symbols[i]) == Ok(ChordDict[key][i])
    ensures chord !in Symbols ==> ChordToMidi(key, chord) == Ok([])
  {
    SymbolsDistinct();
    var j := IndexOf(Symbols, Symbols[i]).value;
    assert Symbols[j] == Symbols[i];
  }

  lemma CMajorTonicExample()
    ensures ChordToMidi("C", "I") == Ok([60, 64, 67])
  {
    assert "C" in ChordDict && ChordDict["C"] == CChords;
    ChordToMidiVerbatim("C", MajorTonic, "");
  }

  lemma AFlatMinorTonicExample()
    ensures ChordToMidi("Ab", "i") == Ok([68, 71, 75])
  {
    assert "Ab" in ChordDict && ChordDict["Ab"] == AbChords;
    ChordToMidiVerbatim("Ab", MinorTonic, "");
  }

  /** `ii˚` (written with a ring above) is not a symbol of the table, unlike `vii°` (written with a degree sign). */
  lemma RingAboveSymbolUnlisted(key: string)
    requires key in ChordDict
    ensures "ii˚" !in Symbols && "vii°" in Symbols
    ensures ChordToMidi(key, "ii˚") == Ok([])
  {
    assert Symbols[6] == "vii°";
    ChordToMidiVerbatim(key, 0, "ii˚");
  }

  ghost predicate StrictlyAscending(ps: seq<int>)
  {
    forall i :: 0 <= i < |ps| - 1 ==> ps[i] < ps[i + 1]
  }

  ghost predicate Within(ps: seq<int>, lo: int, hi: int)
  {
    forall i :: 0 <= i < |ps| ==> lo <= ps[i] <= hi
  }

  /** The shape of the entry for `symbol`: ascending, in 57..88, four notes for a seventh and three otherwise. */
  ghost predicate WellShaped(symbol: string, ps: seq<int>)
  {
    && StrictlyAscending(ps)
    && Within(ps, 57, 88)
    && |ps| == (if symbol in SeventhSymbols then 4 else 3)
  }

  /** `ps` is `base` with every pitch raised by `k` semitones. */
  ghost predicate Transposes(ps: seq<int>, base: seq<int>, k: int)
  {
    |ps| == |base| && forall i :: 0 <= i < |ps| ==> ps[i] == base[i] + k
  }

  /** Every entry of `table`, except those at the positions in `except`, is the C entry moved up `k` semitones. */
  ghost predicate TransposedFromC(table: KeyTable, k: int, except: set<nat>)
  {
    forall i :: 0 <= i < |Symbols| && i !in except ==> Transposes(table[i], CChords[i], k)
  }

  /** The entries of exceptional positions: only F's `VII`, an E-flat triad instead of the transposed C entry. */
  function Irregular(pc: int): set<nat>
  {
    if pc == 5 then {SubtonicTriad} else {}
  }

  lemma CShape()
    ensures forall i :: 0 <= i < |Symbols| ==> Within(CChords[i], 57, 77)
    ensures forall i :: 0 <= i < |Symbols| ==> StrictlyAscending(CChords[i])
    ensures forall i :: 0 <= i < |Symbols| ==> |CChords[i]| == if i in {7, 8, 9} then 4 else 3
  {
  }

  lemma CSharpChordsFromC()
    ensures TransposedFromC(CSharpChords, 1, {})
  {
  }

  lemma DChordsFromC()
    ensures TransposedFromC(DChords, 2, {})
  {
  }

  lemma EbChordsFromC()
    ensures TransposedFromC(EbChords, 3, {})
  {
  }

  lemma EChordsFromC()
    ensures TransposedFromC(EChords, 4, {})
  {
  }

  lemma FChordsFromC()
    ensures TransposedFromC(FChords, 5, {SubtonicTriad})
    ensures FChords[SubtonicTriad] == [75, 79, 82] && !Transposes(FChords[SubtonicTriad], CChords[SubtonicTriad], 5)
  {
    assert FChords[SubtonicTriad][0] != CChords[SubtonicTriad][0] + 5;
  }

  lemma FSharpChordsFromC()
    ensures TransposedFromC(FSharpChords, 6, {})
  {
  }

  lemma GChordsFromC()
    ensures TransposedFromC(GChords, 7, {})
  {
  }

  lemma AbChordsFromC()
    ensures TransposedFromC(AbChords, 8, {})
  {
  }

  lemma AChordsFromC()
    ensures TransposedFromC(AChords, 9, {})
  {
  }

  lemma BbChordsFromC()
    ensures TransposedFromC(BbChords, 10, {})
  {
  }

  lemma BChordsFromC()
    ensures TransposedFromC(BChords, 11, {})
  {
  }

  /**
   * The chord table of the key that `key_dict` names for pitch class `pc` (see
   * `KeyDictCoverage`) is the C table moved up `pc` semitones, entry by entry,
   * except F's `VII`.
   */
  lemma PitchClassTable(pc: int)
    requires 0 <= pc < 12
    ensures TransposedFromC(TablesByPitchClass[pc], pc, Irregular(pc))
  {
    if pc < 6 {
      LowerPitchClassTable(pc);
    } else {
      UpperPitchClassTable(pc);
    }
  }

  lemma LowerPitchClassTable(pc: int)
    requires 0 <= pc < 6
    ensures TransposedFromC(TablesByPitchClass[pc], pc, Irregular(pc))
  {
    if pc == 1 {
      CSharpChordsFromC();
    } else if pc == 2 {
      DChordsFromC();
    } else if pc == 3 {
      EbChordsFromC();
    } else if pc == 4 {
      EChordsFromC();
    } else if pc == 5 {
      FChordsFromC();
    }
  }

  lemma UpperPitchClassTable(pc: int)
    requires 6 <= pc < 12
    ensures TransposedFromC(TablesByPitchClass[pc], pc, Irregular(pc))
  {
    if pc == 6 {
      FSharpChordsFromC();
    } else if pc == 7 {
      GChordsFromC();
    } else if pc == 8 {
      AbChordsFromC();
    } else if pc == 9 {
      AChordsFromC();
    } else if pc == 10 {
      BbChordsFromC();
    } else {
      BChordsFromC();
    }
  }

  /** The major and minor tonic triads of the key reached from pitch class `pc` start on MIDI note 60 + pc. */
  lemma TonicTriads(pc: int)
    requires 0 <= pc < 12
    ensures ChordToMidi(StandardKey(KeyDict[pc]), "I") == Ok([60 + pc, 64 + pc, 67 + pc])
    ensures ChordToMidi(StandardKey(KeyDict[pc]), "i") == Ok([60 + pc, 63 + pc, 67 + pc])
  {
    KeyDictCoverage();
    PitchClassTable(pc);
    var key := StandardKey(KeyDict[pc]);
    var table := TablesByPitchClass[pc];
    assert Transposes(table[MajorTonic], CChords[MajorTonic], pc);
    assert Transposes(table[MinorTonic], CChords[MinorTonic], pc);
    assert table[MajorTonic] == [60 + pc, 64 + pc, 67 + pc];
    assert table[MinorTonic] == [60 + pc, 63 + pc, 67 + pc];
    ChordToMidiVerbatim(key, MajorTonic, "");
    ChordToMidiVerbatim(key, MinorTonic, "");
  }

  /** Moving an ascending voicing in 57..77 up by at most 11 semitones keeps it ascending and in 57..88. */
  lemma TransposedShape(ps: seq<int>, base: seq<int>, k: int)
    requires Transposes(ps, base, k) && 0 <= k < 12
    requires StrictlyAscending(base) && Within(base, 57, 77)
    ensures StrictlyAscending(ps) && Within(ps, 57, 88) && |ps| == |base|
  {
  }

  lemma SeventhPositions(i: nat)
    requires i < |Symbols|
    ensures Symbols[i] in SeventhSymbols <==> i in {7, 8, 9}
  {
  }

  lemma ShapeByPitchClass(pc: int, i: nat)
    requires 0 <= pc < 12 && i < |Symbols|
    ensures WellShaped(Symbols[i], TablesByPitchClass[pc][i])
  {
    var ps := TablesByPitchClass[pc][i];
    PitchClassTable(pc);
    SeventhPositions(i);
    if i in Irregular(pc) {
      FChordsFromC();
      assert pc == 5 && i == SubtonicTriad;
    } else {
      CShape();
      TransposedShape(ps, CChords[i], pc);
    }
  }

  /** Every entry of every key is ascending, lies in 57..88 and has four notes exactly for the seventh chords. */
  lemma TableShape(key: string, i: nat)
    requires key in ChordDict && i < |Symbols|
    ensures WellShaped(Symbols[i], ChordDict[key][i])
  {
    ChordDictReachedFromKeyDict(key);
    var pc :| 0 <= pc < 12 && StandardKey(KeyDict[pc]) == key;
    KeyDictCoverage();
    ShapeByPitchClass(pc, i);
  }

  /** What `chord_to_midi` returns for a known key is a valid voicing: MIDI notes 0..127, ascending, 0, 3 or 4 of them. */
  lemma {:induction false} ChordToMidiRange(key: string, chord: string)
    requires key in ChordDict
    ensures var ps := ChordToMidi(key, chord).value;
      && StrictlyAscending(ps)
      && Within(ps, 0, MaxMidiNote)
      && |ps| in {0, 3, 4}
  {
    match IndexOf(Symbols, chord)
    case Some(i) => TableShape(key, i);
    case None =>
  }
}
