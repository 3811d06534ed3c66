/**
 * Scoring and ranking of Spotify recommendations: `calculate_difference` and
 * the filter / sort / take-three tail of `get_recommendations`. The audio
 * features that `sp.audio_features` would return are part of each input track.
 */
module Recommend {
  import opened Seqs

  function Abs(x: real): (a: real)
    ensures a >= 0.0 && (a == x || a == -x)
  {
    if x < 0.0 then -x else x
  }

  /** The two entries of a song dictionary that `calculate_difference` reads. */
  datatype Profile = Profile(tempo: real, energy: real)

  /** `calculate_difference`: the tempo gap plus half the energy gap. */
  function Difference(song: Profile, generated: Profile): (d: real)
    ensures d >= 0.0
    ensures d == 0.0 <==> song == generated
    ensures d >= Abs(song.tempo - generated.tempo)
  {
    Abs(song.tempo - generated.tempo) + Abs((song.energy - generated.energy) / 2.0)
  }

  /** The difference is a distance: symmetric, and it obeys the triangle inequality. */
  lemma DifferenceIsDistance(a: Profile, b: Profile, c: Profile)
    ensures Difference(a, b) == Difference(b, a)
    ensures Difference(a, c) <= Difference(a, b) + Difference(b, c)
  {
  }

  /** At equal tempo only the energy gap counts, at half weight. */
  lemma EnergyCountsHalf(tempo: real, e1: real, e2: real)
    ensures Difference(Profile(tempo, e1), Profile(tempo, e2)) == Abs(e1 - e2) / 2.0
  {
  }

  // ---------------------------------------------------------------------------
  // get_recommendations

  /** The audio features of one recommended track. */
  datatype Features = Features(timeSignature: int, energy: real, tempo: real)

  datatype Track = Track(id: string, features: Features)

  /** The arguments of `get_recommendations`. */
  datatype Target = Target(tempo: real, energy: real, timeSignature: int)

  const EnergyTolerance: real := 1.3
  const TempoTolerance: real := 30.0
  const TopCount: nat := 3

  /** The three tests a track passes to enter `filtered_tracks`; every bound is inclusive. */
  predicate Admits(t: Target, x: Track)
    ensures Admits(t, x) <==>
      && x.features.timeSignature == t.timeSignature
      && Closeness(t, x) <= EnergyTolerance
      && Abs(x.features.tempo - t.tempo) <= TempoTolerance
  {
    && x.features.timeSignature == t.timeSignature
    && Abs(x.features.energy - t.energy) <= EnergyTolerance
    && t.tempo - TempoTolerance <= x.features.tempo <= t.tempo + TempoTolerance
  }

  /** The tracks of `tracks` that `t` admits, in their order in `tracks`. */
  function Shortlist(t: Target, tracks: seq<Track>): (s: seq<Track>)
    ensures |s| <= |tracks|
    ensures forall i :: 0 <= i < |s| ==> Admits(t, s[i])
  {
    if tracks == [] then []
    else
      var last := tracks[|tracks| - 1];
      Shortlist(t, tracks[..|tracks| - 1]) + if Admits(t, last) then [last] else []
  }

  /** A track is shortlisted exactly as often as it was recommended when it is admitted, and never otherwise. */
  lemma {:induction false} ShortlistMultiset(t: Target, tracks: seq<Track>)
    ensures forall x :: multiset(Shortlist(t, tracks))[x] == if Admits(t, x) then multiset(tracks)[x] else 0
  {
    if tracks != [] {
      var init := tracks[..|tracks| - 1];
      ShortlistMultiset(t, init);
      assert tracks == init + [tracks[|tracks| - 1]];
    }
  }

  /** The shortlist keeps the recommendation order. */
  lemma {:induction false} ShortlistKeepsOrder(t: Target, tracks: seq<Track>)
    ensures Subsequence(Shortlist(t, tracks), tracks)
  {
    if tracks != [] {
      var init := tracks[..|tracks| - 1];
      ShortlistKeepsOrder(t, init);
      if Admits(t, tracks[|tracks| - 1]) {
        var s := Shortlist(t, tracks);
        assert s[..|s| - 1] == Shortlist(t, init);
      } else {
        SubsequenceExtend(Shortlist(t, init), init, tracks[|tracks| - 1]);
        assert tracks == init + [tracks[|tracks| - 1]];
        assert Shortlist(t, tracks) == Shortlist(t, init);
      }
    }
  }

  /** The sort key: how far the track's energy is from the target energy. */
  function Closeness(t: Target, x: Track): real
  {
    Abs(x.features.energy - t.energy)
  }

  /**
   * The sort key is non-negative, zero exactly at the target energy, and twice
   * what the energy gap adds to `calculate_difference`.
   */
  lemma ClosenessIsDoubledDifference(t: Target, x: Track)
    ensures Closeness(t, x) >= 0.0 && (Closeness(t, x) == 0.0 <==> x.features.energy == t.energy)
    ensures Closeness(t, x) == 2.0 * Difference(Profile(t.tempo, x.features.energy), Profile(t.tempo, t.energy))
  {
    EnergyCountsHalf(t.tempo, x.features.energy, t.energy);
  }

  /** An admitted track lies within `calculate_difference` 30 + 1.3 / 2 of the target. */
  lemma AdmittedWithinDifference(t: Target, x: Track)
    requires Admits(t, x)
    ensures Difference(Profile(x.features.tempo, x.features.energy), Profile(t.tempo, t.energy))
      <= TempoTolerance + EnergyTolerance / 2.0
  {
  }

  ghost predicate SortedByCloseness(t: Target, s: seq<Track>)
  {
    forall i, j :: 0 <= i < j < |s| ==> Closeness(t, s[i]) <= Closeness(t, s[j])
  }

  lemma SortedHeadIsLeast(t: Target, s: seq<Track>)
    requires SortedByCloseness(t, s) && s != []
    ensures forall y :: y in s[1..] ==> Closeness(t, s[0]) <= Closeness(t, y)
  {
    forall y | y in s[1..] ensures Closeness(t, s[0]) <= Closeness(t, y) {
      var j :| 0 <= j < |s[1..]| && s[1..][j] == y;
      assert s[j + 1] == y;
    }
  }

  /** Insertion of `x` before the first element whose key exceeds its own. */
  function Insert(t: Target, x: Track, s: seq<Track>): (r: seq<Track>)
    ensures multiset(r) == multiset(s) + multiset{x}
    ensures forall y :: y in r ==> y == x || y in s
  {
    if s == [] then [x]
    else if Closeness(t, s[0]) > Closeness(t, x) then [x] + s
    else
      assert s == [s[0]] + s[1..];
      [s[0]] + Insert(t, x, s[1..])
  }

  lemma {:induction false} InsertSorted(t: Target, x: Track, s: seq<Track>)
    requires SortedByCloseness(t, s)
    ensures SortedByCloseness(t, Insert(t, x, s))
  {
    if s != [] && Closeness(t, s[0]) <= Closeness(t, x) {
      var rest := Insert(t, x, s[1..]);
      InsertSorted(t, x, s[1..]);
      SortedHeadIsLeast(t, s);
      var r := [s[0]] + rest;
      forall i, j | 0 <= i < j < |r| ensures Closeness(t, r[i]) <= Closeness(t, r[j]) {
        assert r[j] == rest[j - 1];
        if i == 0 {
          assert rest[j - 1] in rest;
        } else {
          assert r[i] == rest[i - 1];
        }
      }
    }
  }

  /** `sorted(tracks, key=closeness)`: the stable sort, by insertion. */
  function SortByCloseness(t: Target, s: seq<Track>): (r: seq<Track>)
    ensures SortedByCloseness(t, r)
    ensures multiset(r) == multiset(s)
  {
    if s == [] then []
    else
      assert s == s[..|s| - 1] + [s[|s| - 1]];
      var sorted := SortByCloseness(t, s[..|s| - 1]);
      InsertSorted(t, s[|s| - 1], sorted);
      Insert(t, s[|s| - 1], sorted)
  }

  /** The elements of `s` whose key is exactly `k`, in their order in `s`. */
  function WithCloseness(t: Target, s: seq<Track>, k: real): seq<Track>
  {
    if s == [] then []
    else (if Closeness(t, s[0]) == k then [s[0]] else []) + WithCloseness(t, s[1..], k)
  }

  lemma {:induction false} WithClosenessAppend(t: Target, a: seq<Track>, b: seq<Track>, k: real)
    ensures WithCloseness(t, a + b, k) == WithCloseness(t, a, k) + WithCloseness(t, b, k)
  {
    if a == [] {
      assert a + b == b;
    } else {
      assert (a + b)[1..] == a[1..] + b;
      WithClosenessAppend(t, a[1..], b, k);
    }
  }

  lemma WithClosenessSnoc(t: Target, s: seq<Track>, k: real)
    requires s != []
    ensures WithCloseness(t, s, k)
      == WithCloseness(t, s[..|s| - 1], k) + if Closeness(t, s[|s| - 1]) == k then [s[|s| - 1]] else []
  {
    var init, last := s[..|s| - 1], s[|s| - 1];
    assert s == init + [last];
    WithClosenessAppend(t, init, [last], k);
    assert [last][1..] == [];
  }

  lemma {:induction false} WithClosenessAbove(t: Target, s: seq<Track>, k: real)
    requires forall i :: 0 <= i < |s| ==> Closeness(t, s[i]) > k
    ensures WithCloseness(t, s, k) == []
  {
    if s != [] {
      WithClosenessAbove(t, s[1..], k);
    }
  }

  lemma {:induction false} InsertStable(t: Target, x: Track, s: seq<Track>, k: real)
    requires SortedByCloseness(t, s)
    ensures WithCloseness(t, Insert(t, x, s), k)
      == WithCloseness(t, s, k) + if Closeness(t, x) == k then [x] else []
  {
    if s == [] {
    } else if Closeness(t, s[0]) > Closeness(t, x) {
      assert ([x] + s)[1..] == s;
      if Closeness(t, x) == k {
        WithClosenessAbove(t, s, k);
      }
    } else {
      InsertStable(t, x, s[1..], k);
      assert ([s[0]] + Insert(t, x, s[1..]))[1..] == Insert(t, x, s[1..]);
    }
  }

  /** The sort is stable: the tracks of any one key keep their relative order. */
  lemma {:induction false} SortStable(t: Target, s: seq<Track>, k: real)
    ensures WithCloseness(t, SortByCloseness(t, s), k) == WithCloseness(t, s, k)
  {
    if s != [] {
      var init, last := s[..|s| - 1], s[|s| - 1];
      var sortedInit := SortByCloseness(t, init);
      var own := if Closeness(t, last) == k then [last] else [];
      assert SortByCloseness(t, s) == Insert(t, last, sortedInit);
      SortStable(t, init, k);
      InsertStable(t, last, sortedInit, k);
      WithClosenessSnoc(t, s, k);
    }
  }

  /** `sorted_tracks[:3]`. */
  function Top(s: seq<Track>): (r: seq<Track>)
    ensures |r| <= |s| && |r| <= TopCount && r == s[..|r|]
    ensures |r| == TopCount || r == s
  {
    if |s| <= TopCount then s else s[..TopCount]
  }

  /** The trailing comma of the `return` statement makes the result a tuple of one element. */
  datatype OneTuple<T> = OneTuple(only: T)

  /** What `get_recommendations` returns for the recommended tracks `tracks`. */
  function Recommendations(t: Target, tracks: seq<Track>): (r: OneTuple<seq<Track>>)
    ensures |r.only| <= TopCount && SortedByCloseness(t, r.only)
    ensures forall i :: 0 <= i < |r.only| ==> r.only[i] in tracks && Admits(t, r.only[i])
  {
    RankedMembers(t, tracks);
    OneTuple(Top(SortByCloseness(t, Shortlist(t, tracks))))
  }

  /**
   * The tail of `get_recommendations`: the filtering loop over the recommended
   * tracks, then the sort by energy closeness and the first three.
   */
  method GetRecommendations(t: Target, tracks: seq<Track>) returns (r: OneTuple<seq<Track>>)
    ensures r == Recommendations(t, tracks)
  {
    var filtered: seq<Track> := [];
    var i := 0;
    while i < |tracks|
      invariant 0 <= i <= |tracks|
      invariant filtered == Shortlist(t, tracks[..i])
    {
      var track := tracks[i];
      assert tracks[..i + 1][..i] == tracks[..i];
      if track.features.timeSignature == t.timeSignature {
        if Abs(track.features.energy - t.energy) <= EnergyTolerance {
          if t.tempo - TempoTolerance <= track.features.tempo <= t.tempo + TempoTolerance {
            filtered := filtered + [track];
          }
        }
      }
      i := i + 1;
    }
    assert tracks[..|tracks|] == tracks;
    var sorted := SortByCloseness(t, filtered);
    return OneTuple(Top(sorted));
  }

  /** The ranked list holds exactly the recommended tracks that pass the filter. */
  lemma RankedMembers(t: Target, tracks: seq<Track>)
    ensures forall y :: y in SortByCloseness(t, Shortlist(t, tracks)) <==> y in tracks && Admits(t, y)
  {
    var short := Shortlist(t, tracks);
    var sorted := SortByCloseness(t, short);
    ShortlistMultiset(t, tracks);
    forall y ensures y in sorted <==> y in tracks && Admits(t, y) {
      assert y in sorted <==> y in multiset(sorted);
      assert y in tracks <==> y in multiset(tracks);
    }
  }

  /**
   * At most three tracks, each a recommended track that passes the filter, in
   * non-decreasing energy distance; no admitted track left out is closer than
   * one returned; fewer than three only when fewer passed.
   */
  lemma RecommendationGuarantees(t: Target, tracks: seq<Track>)
    ensures var top := Recommendations(t, tracks).only;
      && |top| <= TopCount
      && (forall i :: 0 <= i < |top| ==> top[i] in tracks && Admits(t, top[i]))
      && SortedByCloseness(t, top)
      && (|top| < TopCount ==> |top| == |Shortlist(t, tracks)|)
      && (forall i, y :: 0 <= i < |top| && y in tracks && Admits(t, y) && y !in top ==>
            Closeness(t, top[i]) <= Closeness(t, y))
  {
    var sorted := SortByCloseness(t, Shortlist(t, tracks));
    var top := Top(sorted);
    RankedMembers(t, tracks);
    assert |sorted| == |Shortlist(t, tracks)| by {
      assert |multiset(sorted)| == |multiset(Shortlist(t, tracks))|;
    }
    forall i | 0 <= i < |top| ensures top[i] in tracks && Admits(t, top[i]) {
      assert top[i] == sorted[i];
    }
    forall i, y | 0 <= i < |top| && y in tracks && Admits(t, y) && y !in top
      ensures Closeness(t, top[i]) <= Closeness(t, y)
    {
      var j :| 0 <= j < |sorted| && sorted[j] == y;
      assert j >= |top|;
      assert sorted[i] == top[i];
    }
  }

  /** The ranking keeps, for every energy distance, the recommendation order of the tracks at that distance. */
  lemma RankingIsStable(t: Target, tracks: seq<Track>, k: real)
    ensures WithCloseness(t, SortByCloseness(t, Shortlist(t, tracks)), k) == WithCloseness(t, Shortlist(t, tracks), k)
    ensures Subsequence(Shortlist(t, tracks), tracks)
  {
    SortStable(t, Shortlist(t, tracks), k);
    ShortlistKeepsOrder(t, tracks);
  }
}
