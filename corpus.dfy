/**
 * The counting half of `gather_data`: one pass over the songs of the playlist
 * that names each key, labels each mode, tallies modes and time signatures and
 * collects the per-song values (`Observe`), followed by the summary that builds
 * a `Counter` per attribute, picks the most common genre and expands every
 * counter back into a list with each value repeated by its count (`Summarise`).
 * Fetching the songs, printing, and the float averages are not modelled.
 */
module Corpus {
  import opened Wrappers
  import opened Seqs
  import opened MusicTheory
  import opened Counters

  /** One song as `fetch_songs` returns it; `bpm` is `round(tempo)`, taken as given. */
  datatype Song = Song(
    key: int,
    mode: int,
    timeSignature: int,
    tempo: real,
    bpm: int,
    energy: real,
    durationMs: int,
    genres: seq<string>)

  /** The exceptions `gather_data` lets escape. */
  datatype CorpusError =
    | MissingKeyIndex(key: int)  // `KeyError` from `key_dict[key]`
    | EmptyCorpus                // `ZeroDivisionError` from the average over no songs
    | NoGenres                   // `IndexError` from `most_common(1)[0]` on an empty genre counter

  predicate KnownKey(s: Song)
  {
    0 <= s.key < |KeyDict|
  }

  /** `'Major'` for mode 1 and `'Minor'` for every other value. */
  function ModeName(mode: int): (name: string)
    ensures name == "Major" <==> mode == 1
    ensures name == "Minor" <==> mode != 1
  {
    if mode == 1 then "Major" else "Minor"
  }

  predicate IsMajor(s: Song)
  {
    s.mode == 1
  }

  predicate InCommonTime(s: Song)
  {
    s.timeSignature == 4
  }

  /** The key names of the first `n` songs (`key_dict[key]`), defined once all of them have one. */
  function KeysOf(songs: seq<Song>, n: nat): (keys: seq<string>)
    requires n <= |songs| && forall j :: 0 <= j < n ==> KnownKey(songs[j])
    ensures |keys| == n
  {
    if n == 0 then []
    else
      assert KnownKey(songs[n - 1]);
      KeysOf(songs, n - 1) + [KeyDict[songs[n - 1].key]]
  }

  /** The value `f` reads off each of the first `n` songs, in song order. */
  function Column<U>(songs: seq<Song>, n: nat, f: Song -> U): (column: seq<U>)
    requires n <= |songs|
    ensures |column| == n
  {
    if n == 0 then [] else Column(songs, n - 1, f) + [f(songs[n - 1])]
  }

  function ModeLabel(s: Song): string { ModeName(s.mode) }
  function Meter(s: Song): int { s.timeSignature }
  function Bpm(s: Song): int { s.bpm }
  function Energy(s: Song): real { s.energy }
  function Duration(s: Song): int { s.durationMs }

  /** The genres of the first `n` songs, concatenated in song order (`genres.extend`). */
  function GenresOf(songs: seq<Song>, n: nat): seq<string>
    requires n <= |songs|
  {
    if n == 0 then [] else GenresOf(songs, n - 1) + songs[n - 1].genres
  }

  /** How many of the first `n` songs satisfy `p`. */
  function CountOf(songs: seq<Song>, n: nat, p: Song -> bool): (c: nat)
    requires n <= |songs|
    ensures c <= n
  {
    if n == 0 then 0 else CountOf(songs, n - 1, p) + (if p(songs[n - 1]) then 1 else 0)
  }

  function TempoTotal(songs: seq<Song>, n: nat): real
    requires n <= |songs|
  {
    if n == 0 then 0.0 else TempoTotal(songs, n - 1) + songs[n - 1].tempo
  }

  function EnergyTotal(songs: seq<Song>, n: nat): real
    requires n <= |songs|
  {
    if n == 0 then 0.0 else EnergyTotal(songs, n - 1) + songs[n - 1].energy
  }

  function DurationTotal(songs: seq<Song>, n: nat): int
    requires n <= |songs|
  {
    if n == 0 then 0 else DurationTotal(songs, n - 1) + songs[n - 1].durationMs
  }

  /** Position `j` of a column holds the value read off song `j`. */
  lemma {:induction false} ColumnAt<U>(songs: seq<Song>, n: nat, f: Song -> U, j: nat)
    requires j < n <= |songs|
    ensures Column(songs, n, f)[j] == f(songs[j])
  {
    if j < n - 1 {
      ColumnAt(songs, n - 1, f, j);
    }
  }

  lemma {:induction false} KeysAt(songs: seq<Song>, n: nat, j: nat)
    requires j < n <= |songs| && forall k :: 0 <= k < n ==> KnownKey(songs[k])
    ensures KeysOf(songs, n)[j] == KeyDict[songs[j].key]
  {
    if j < n - 1 {
      KeysAt(songs, n - 1, j);
    }
  }

  /** Everything the loop of `gather_data` accumulates. */
  datatype Observations = Observations(
    keys: seq<string>,
    modes: seq<string>,
    timeSignatures: seq<int>,
    bpms: seq<int>,
    energies: seq<real>,
    genres: seq<string>,
    times: seq<int>,
    majorCount: nat,
    minorCount: nat,
    commonTimeCount: nat,
    otherTimeCount: nat,
    songCount: nat,
    tempoTotal: real,
    energyTotal: real,
    timeTotal: int)

  /** `obs` records `songs`: one entry per song in every list, in song order, and the tallies over all songs. */
  ghost predicate Records(obs: Observations, songs: seq<Song>)
  {
    && (forall j :: 0 <= j < |songs| ==> KnownKey(songs[j]))
    && obs.keys == KeysOf(songs, |songs|)
    && obs.modes == Column(songs, |songs|, ModeLabel)
    && obs.timeSignatures == Column(songs, |songs|, Meter)
    && obs.bpms == Column(songs, |songs|, Bpm)
    && obs.energies == Column(songs, |songs|, Energy)
    && obs.times == Column(songs, |songs|, Duration)
    && obs.genres == GenresOf(songs, |songs|)
    && obs.majorCount == CountOf(songs, |songs|, IsMajor)
    && obs.minorCount == |songs| - CountOf(songs, |songs|, IsMajor)
    && obs.commonTimeCount == CountOf(songs, |songs|, InCommonTime)
    && obs.otherTimeCount == |songs| - CountOf(songs, |songs|, InCommonTime)
    && obs.songCount == |songs|
    && obs.tempoTotal == TempoTotal(songs, |songs|)
    && obs.energyTotal == EnergyTotal(songs, |songs|)
    && obs.timeTotal == DurationTotal(songs, |songs|)
  }

  /** Read position by position: song `i` is the `i`-th entry of every list `gather_data` builds. */
  lemma RecordsElementwise(obs: Observations, songs: seq<Song>, i: nat)
    requires Records(obs, songs) && i < |songs|
    ensures |obs.keys| == |obs.modes| == |obs.timeSignatures| == |songs|
    ensures |obs.bpms| == |obs.energies| == |obs.times| == |songs|
    ensures obs.keys[i] == KeyDict[songs[i].key]
    ensures obs.modes[i] == ModeName(songs[i].mode)
    ensures obs.timeSignatures[i] == songs[i].timeSignature
    ensures obs.bpms[i] == songs[i].bpm
    ensures obs.energies[i] == songs[i].energy
    ensures obs.times[i] == songs[i].durationMs
  {
    KeysAt(songs, |songs|, i);
    ColumnAt(songs, |songs|, ModeLabel, i);
    ColumnAt(songs, |songs|, Meter, i);
    ColumnAt(songs, |songs|, Bpm, i);
    ColumnAt(songs, |songs|, Energy, i);
    ColumnAt(songs, |songs|, Duration, i);
  }

  /** Each prefix summary grows by the song added to the prefix. */
  lemma PrefixStep(songs: seq<Song>, i: nat)
    requires i < |songs| && forall j :: 0 <= j <= i ==> KnownKey(songs[j])
    ensures KeysOf(songs, i + 1) == KeysOf(songs, i) + [KeyDict[songs[i].key]]
    ensures Column(songs, i + 1, ModeLabel) == Column(songs, i, ModeLabel) + [ModeName(songs[i].mode)]
    ensures Column(songs, i + 1, Meter) == Column(songs, i, Meter) + [songs[i].timeSignature]
    ensures Column(songs, i + 1, Bpm) == Column(songs, i, Bpm) + [songs[i].bpm]
    ensures Column(songs, i + 1, Energy) == Column(songs, i, Energy) + [songs[i].energy]
    ensures Column(songs, i + 1, Duration) == Column(songs, i, Duration) + [songs[i].durationMs]
    ensures GenresOf(songs, i + 1) == GenresOf(songs, i) + songs[i].genres
    ensures CountOf(songs, i + 1, IsMajor) == CountOf(songs, i, IsMajor) + if songs[i].mode == 1 then 1 else 0
    ensures CountOf(songs, i + 1, InCommonTime) == CountOf(songs, i, InCommonTime) + if songs[i].timeSignature == 4 then 1 else 0
    ensures TempoTotal(songs, i + 1) == TempoTotal(songs, i) + songs[i].tempo
    ensures EnergyTotal(songs, i + 1) == EnergyTotal(songs, i) + songs[i].energy
    ensures DurationTotal(songs, i + 1) == DurationTotal(songs, i) + songs[i].durationMs
  {
  }

  /** `songs[i]` is the first song whose key has no name. */
  ghost predicate FirstUnknownKey(songs: seq<Song>, i: nat)
  {
    i < |songs| && !KnownKey(songs[i]) && forall j :: 0 <= j < i ==> KnownKey(songs[j])
  }

  /**
   * The loop of `gather_data` over the fetched songs. It stops with `KeyError`
   * at the first song whose key index is not a `key_dict` key.
   */
  method Observe(songs: seq<Song>) returns (r: Result<Observations, CorpusError>)
    ensures r.Err? <==> exists i :: 0 <= i < |songs| && !KnownKey(songs[i])
    ensures r.Err? ==> exists i: nat :: FirstUnknownKey(songs, i) && r.error == MissingKeyIndex(songs[i].key)
    ensures r.Ok? ==> Records(r.value, songs)
  {
    var keys: seq<string> := [];
    var modes: seq<string> := [];
    var timeSignatures: seq<int> := [];
    var bpms: seq<int> := [];
    var energies: seq<real> := [];
    var genres: seq<string> := [];
    var times: seq<int> := [];
    var noMaj: nat, noMin: nat, no4: nat, noOther: nat, totalSongs: nat := 0, 0, 0, 0, 0;
    var totalBpm: real, totalEnergy: real, totalTime: int := 0.0, 0.0, 0;
    var i := 0;
    while i < |songs|
      invariant 0 <= i <= |songs|
      invariant forall j :: 0 <= j < i ==> KnownKey(songs[j])
      invariant keys == KeysOf(songs, i)
      invariant modes == Column(songs, i, ModeLabel)
      invariant timeSignatures == Column(songs, i, Meter)
      invariant bpms == Column(songs, i, Bpm)
      invariant energies == Column(songs, i, Energy)
      invariant times == Column(songs, i, Duration)
      invariant genres == GenresOf(songs, i)
      invariant noMaj == CountOf(songs, i, IsMajor) && noMin == i - noMaj
      invariant no4 == CountOf(songs, i, InCommonTime) && noOther == i - no4
      invariant totalSongs == i
      invariant totalBpm == TempoTotal(songs, i) && totalEnergy == EnergyTotal(songs, i)
      invariant totalTime == DurationTotal(songs, i)
    {
      var song := songs[i];
      totalSongs := totalSongs + 1;
      if !(0 <= song.key < |KeyDict|) {
        assert FirstUnknownKey(songs, i);
        return Err(MissingKeyIndex(song.key));
      }
      PrefixStep(songs, i);
      keys := keys + [KeyDict[song.key]];
      var mode;
      if song.mode == 1 {
        mode := "Major";
        noMaj := noMaj + 1;
      } else {
        mode := "Minor";
        noMin := noMin + 1;
      }
      modes := modes + [mode];
      genres := genres + song.genres;
      timeSignatures := timeSignatures + [song.timeSignature];
      if song.timeSignature == 4 {
        no4 := no4 + 1;
      } else {
        noOther := noOther + 1;
      }
      bpms := bpms + [song.bpm];
      totalBpm := totalBpm + song.tempo;
      energies := energies + [song.energy];
      totalEnergy := totalEnergy + song.energy;
      times := times + [song.durationMs];
      totalTime := totalTime + song.durationMs;
      i := i + 1;
    }
    r := Ok(Observations(keys, modes, timeSignatures, bpms, energies, genres, times,
      noMaj, noMin, no4, noOther, totalSongs, totalBpm, totalEnergy, totalTime));
  }

  /** The mode tally and the time-signature tally each split the songs in two, and agree with the label lists. */
  lemma TalliesPartition(obs: Observations, songs: seq<Song>)
    requires Records(obs, songs)
    ensures obs.majorCount + obs.minorCount == obs.songCount
    ensures obs.commonTimeCount + obs.otherTimeCount == obs.songCount
    ensures obs.majorCount == Occurrences(obs.modes, "Major")
    ensures obs.commonTimeCount == Occurrences(obs.timeSignatures, 4)
  {
    MajorTally(songs, |songs|);
    CommonTimeTally(songs, |songs|);
  }

  lemma {:induction false} MajorTally(songs: seq<Song>, n: nat)
    requires n <= |songs|
    ensures Occurrences(Column(songs, n, ModeLabel), "Major") == CountOf(songs, n, IsMajor)
  {
    if n > 0 {
      MajorTally(songs, n - 1);
      var c := Column(songs, n, ModeLabel);
      assert c[..|c| - 1] == Column(songs, n - 1, ModeLabel);
    }
  }

  lemma {:induction false} CommonTimeTally(songs: seq<Song>, n: nat)
    requires n <= |songs|
    ensures Occurrences(Column(songs, n, Meter), 4) == CountOf(songs, n, InCommonTime)
  {
    if n > 0 {
      CommonTimeTally(songs, n - 1);
      var c := Column(songs, n, Meter);
      assert c[..|c| - 1] == Column(songs, n - 1, Meter);
    }
  }

  // ---------------------------------------------------------------------------
  // The summary

  /** The `all_*` lists and `most_common_genre`. */
  datatype Summary = Summary(
    allKeys: seq<string>,
    allModes: seq<string>,
    allTimeSignatures: seq<int>,
    allBpms: seq<int>,
    allEnergies: seq<real>,
    allGenres: seq<string>,
    mostCommonGenre: string)

  /**
   * The tail of `gather_data`: the average over no songs divides by zero,
   * `most_common(1)[0]` fails without genres, and otherwise every counter is
   * expanded into its `all_*` list.
   */
  function Summarise(obs: Observations): (r: Result<Summary, CorpusError>)
    ensures r.Err? <==> obs.songCount == 0 || obs.genres == []
    ensures r.Err? ==> r.error == if obs.songCount == 0 then EmptyCorpus else NoGenres
    ensures r.Ok? ==> r.value.mostCommonGenre in obs.genres
  {
    if obs.songCount == 0 then Err(EmptyCorpus)
    else
      match MostCommon(FromSeq(obs.genres))
      case None => Err(NoGenres)
      case Some((genre, _)) =>
        Ok(Summary(
          Expand(FromSeq(obs.keys)),
          Expand(FromSeq(obs.modes)),
          Expand(FromSeq(obs.timeSignatures)),
          Expand(FromSeq(obs.bpms)),
          Expand(FromSeq(obs.energies)),
          Expand(FromSeq(obs.genres)),
          genre))
  }

  /** Every `all_*` list holds exactly the observed values, each as often as it was observed. */
  lemma SummaryPreservesObservations(obs: Observations)
    requires obs.songCount > 0 && obs.genres != []
    ensures var s := Summarise(obs).value;
      && multiset(s.allKeys) == multiset(obs.keys)
      && multiset(s.allModes) == multiset(obs.modes)
      && multiset(s.allTimeSignatures) == multiset(obs.timeSignatures)
      && multiset(s.allBpms) == multiset(obs.bpms)
      && multiset(s.allEnergies) == multiset(obs.energies)
      && multiset(s.allGenres) == multiset(obs.genres)
  {
    ExpandPreservesMultiset(obs.keys);
    ExpandPreservesMultiset(obs.modes);
    ExpandPreservesMultiset(obs.timeSignatures);
    ExpandPreservesMultiset(obs.bpms);
    ExpandPreservesMultiset(obs.energies);
    ExpandPreservesMultiset(obs.genres);
  }

  /** `most_common_genre` is a genre of maximal count, the earliest-seen one among those. */
  lemma MostCommonGenre(obs: Observations)
    requires obs.songCount > 0 && obs.genres != []
    ensures var g := Summarise(obs).value.mostCommonGenre;
      && (forall h :: h in obs.genres ==> multiset(obs.genres)[h] <= multiset(obs.genres)[g])
      && (forall h :: h in obs.genres && multiset(obs.genres)[h] == multiset(obs.genres)[g] ==>
            IndexOf(obs.genres, g).value <= IndexOf(obs.genres, h).value)
  {
    MostCommonOfSeq(obs.genres);
  }

  /** `random.choice(all_keys)` with a uniform index picks key `k` at as many indices as songs were in key `k`. */
  lemma KeyDrawFrequency(obs: Observations, songs: seq<Song>, k: string)
    requires Records(obs, songs) && obs.songCount > 0 && obs.genres != []
    ensures Occurrences(Summarise(obs).value.allKeys, k) == Occurrences(obs.keys, k)
    ensures Occurrences(Summarise(obs).value.allModes, "Major") == obs.majorCount
  {
    ExpandedDrawHits(obs.keys, k);
    ExpandedDrawHits(obs.modes, "Major");
    TalliesPartition(obs, songs);
  }

  /** `gather_data` without fetching, printing and the float averages. */
  method GatherData(songs: seq<Song>) returns (r: Result<Summary, CorpusError>)
    ensures (exists i :: 0 <= i < |songs| && !KnownKey(songs[i])) ==>
      exists i: nat :: FirstUnknownKey(songs, i) && r == Err(MissingKeyIndex(songs[i].key))
    ensures (forall i :: 0 <= i < |songs| ==> KnownKey(songs[i])) ==>
      exists obs :: Records(obs, songs) && r == Summarise(obs)
  {
    var observed := Observe(songs);
    if observed.Err? {
      return Err(observed.error);
    }
    r := Summarise(observed.value);
  }
}
