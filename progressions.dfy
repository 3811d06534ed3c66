/**
 * The two chord-progression catalogs with their weights, and the weighted pick
 * `random.choices(catalog, weights=weights, k=1)[0]` made by the driver once the
 * mode of a generated song is known. The random number is a parameter: `Pick`
 * takes the integer draw `r` in [0, total weight) and returns the first template
 * whose running weight exceeds `r`, which is what `random.choices` computes with
 * `bisect` over the cumulative weights (`PickFromRealDraw` relates the two).
 */
module Progressions {
  import opened Seqs
  import opened MusicTheory

  const MajorProgressions: seq<seq<string>> := [
    ["I", "IV", "V", "IV"],
    ["I", "V", "vi", "IV"],
    ["ii", "V", "I"],
    ["I", "vi", "ii", "V"],
    ["I", "IV", "ii", "V"],
    ["I", "iii", "IV", "V"],
    ["I", "IV", "I", "V"],
    ["I", "V", "IV", "V"],
    ["I", "vi", "IV", "V", "IV"],
    ["I", "IV", "V", "vi"],
    ["ii7", "V7", "I7"],
    ["I", "vi", "IV", "V"],
    ["I", "V", "vi", "iii", "IV", "I", "IV", "V"],
    ["IV", "V", "iii", "vi"],
    ["I", "bVII", "I"]
  ]

  const MinorProgressions: seq<seq<string>> := [
    ["i", "iv", "v", "i"],
    ["i", "VI", "III", "VII"],
    ["i", "iv", "VII", "i"],
    ["i", "iv", "v", "VII"],
    ["i", "VI", "iv", "VII"],
    ["i", "v", "iv", "i"],
    ["i", "VII", "VI", "v"],
    ["i", "iv", "i", "v"],
    ["i", "VI", "VII", "i"],
    ["i", "iv", "VI", "VII"],
    ["i", "ii˚", "v", "i"],
    ["i", "bVI", "bIII", "bVII"],
    ["i", "bVII", "bVI", "bVII", "i"],
    ["i", "bVII", "bVI", "V7"]
  ]

  const MajorWeights: seq<nat> := [10, 9, 8, 7, 6, 5, 7, 6, 5, 4, 7, 9, 3, 4, 2]
  const MinorWeights: seq<nat> := [8, 7, 9, 6, 5, 7, 6, 8, 7, 5, 9, 4, 3, 2]

  /** The running sums of the weights (the `cum_weights` that `random.choices` bisects). */
  const MajorCumulative: seq<nat> := [10, 19, 27, 34, 40, 45, 52, 58, 63, 67, 74, 83, 86, 90, 92]
  const MinorCumulative: seq<nat> := [8, 15, 24, 30, 35, 42, 48, 56, 63, 68, 77, 81, 84, 86]

  const MajorTotal := 92
  const MinorTotal := 86

  /** Template `i` of a catalog is paired with `weights[i]`; every weight is positive. */
  ghost predicate Paired(catalog: seq<seq<string>>, weights: seq<nat>)
  {
    |catalog| == |weights| && forall i :: 0 <= i < |weights| ==> weights[i] > 0
  }

  /** `cum` lists the running sums of `w`. */
  ghost predicate RunningSums(w: seq<nat>, cum: seq<nat>)
  {
    && |cum| == |w|
    && (|w| > 0 ==> cum[0] == w[0])
    && forall k :: 0 < k < |w| ==> cum[k] == cum[k - 1] + w[k]
  }

  lemma SumStep(s: seq<nat>, k: nat)
    requires k < |s|
    ensures Sum(s[..k + 1]) == Sum(s[..k]) + s[k]
  {
    assert s[..k + 1][..k] == s[..k];
  }

  lemma RunningSumsArePrefixSums(w: seq<nat>, cum: seq<nat>)
    requires RunningSums(w, cum)
    ensures forall k :: 0 <= k < |w| ==> Sum(w[..k + 1]) == cum[k]
  {
    var k := 0;
    while k < |w|
      invariant 0 <= k <= |w|
      invariant forall j :: 0 <= j < k ==> Sum(w[..j + 1]) == cum[j]
    {
      SumStep(w, k);
      if k == 0 {
        assert w[..0] == [];
      }
      k := k + 1;
    }
  }

  lemma TotalIsLastRunningSum(w: seq<nat>, cum: seq<nat>)
    requires RunningSums(w, cum) && |w| > 0
    ensures Sum(w) == cum[|w| - 1]
  {
    RunningSumsArePrefixSums(w, cum);
    assert w[..|w| - 1 + 1] == w;
  }

  lemma MajorRunningSums()
    ensures RunningSums(MajorWeights, MajorCumulative)
  {
  }

  lemma MinorRunningSums()
    ensures RunningSums(MinorWeights, MinorCumulative)
  {
  }

  /** The major catalog pairs one-to-one with positive weights: 15 templates, total weight 92. */
  lemma MajorCatalogFacts()
    ensures Paired(MajorProgressions, MajorWeights) && |MajorWeights| == 15
    ensures Sum(MajorWeights) == MajorTotal
  {
    MajorRunningSums();
    TotalIsLastRunningSum(MajorWeights, MajorCumulative);
  }

  /** The minor catalog pairs one-to-one with positive weights: 14 templates, total weight 86. */
  lemma MinorCatalogFacts()
    ensures Paired(MinorProgressions, MinorWeights) && |MinorWeights| == 14
    ensures Sum(MinorWeights) == MinorTotal
  {
    MinorRunningSums();
    TotalIsLastRunningSum(MinorWeights, MinorCumulative);
  }
  // ---------------------------------------------------------------------------
  // The weighted pick

  lemma {:induction false} PrefixSumMonotone(w: seq<nat>, a: nat, b: nat)
    requires a <= b <= |w|
    ensures Sum(w[..a]) <= Sum(w[..b])
    decreases b - a
  {
    if a < b {
      SumStep(w, b - 1);
      PrefixSumMonotone(w, a, b - 1);
    }
  }

  /** The first position at or after `i` whose running weight exceeds `r`. */
  function PickFrom(weights: seq<nat>, r: nat, i: nat): (j: nat)
    requires i < |weights| && Sum(weights[..i]) <= r < Sum(weights)
    ensures i <= j < |weights|
    ensures Sum(weights[..j]) <= r < Sum(weights[..j + 1])
    decreases |weights| - i
  {
    SumStep(weights, i);
    assert weights[..|weights|] == weights;
    if r < Sum(weights[..i + 1]) then i
    else PickFrom(weights, r, i + 1)
  }

  /**
   * The template chosen by the integer draw `r`: the first position whose
   * running weight exceeds `r`.
   */
  function Pick(weights: seq<nat>, r: nat): (i: nat)
    requires r < Sum(weights)
    ensures i < |weights|
    ensures Sum(weights[..i]) <= r < Sum(weights[..i + 1])
    ensures forall j :: 0 < j <= i ==> Sum(weights[..j]) <= r
  {
    assert weights[..0] == [];
    assert |weights| > 0;
    var i := PickFrom(weights, r, 0);
    assert forall j :: 0 < j <= i ==> Sum(weights[..j]) <= r by {
      forall j | 0 < j <= i ensures Sum(weights[..j]) <= r {
        PrefixSumMonotone(weights, j, i);
      }
    }
    i
  }

  /** A draw picks position `i` exactly when it lies in the `i`-th block of running weights. */
  lemma PickExactly(w: seq<nat>, r: nat, i: nat)
    requires r < Sum(w) && i < |w|
    ensures Pick(w, r) == i <==> Sum(w[..i]) <= r < Sum(w[..i + 1])
  {
    var j := Pick(w, r);
    if j < i {
      PrefixSumMonotone(w, j + 1, i);
    }
  }

  /** How many of the draws `0 .. n-1` pick position `i`. */
  function Hits(w: seq<nat>, i: nat, n: nat): nat
    requires n <= Sum(w)
  {
    if n == 0 then 0
    else Hits(w, i, n - 1) + (if Pick(w, n - 1) == i then 1 else 0)
  }

  lemma {:induction false} HitsBelow(w: seq<nat>, i: nat, n: nat)
    requires i < |w| && n <= Sum(w)
    ensures var lo, hi := Sum(w[..i]), Sum(w[..i + 1]);
      Hits(w, i, n) == if n <= lo then 0 else if n <= hi then n - lo else hi - lo
  {
    SumStep(w, i);
    if n > 0 {
      HitsBelow(w, i, n - 1);
      PickExactly(w, n - 1, i);
    }
  }

  /** Of the `Sum(w)` possible draws, exactly `w[i]` pick position `i`. */
  lemma PickCount(w: seq<nat>, i: nat)
    requires i < |w|
    ensures Hits(w, i, Sum(w)) == w[i]
  {
    assert w[..0] == [] && w[..|w|] == w;
    PrefixSumMonotone(w, 0, i);
    PrefixSumMonotone(w, i + 1, |w|);
    SumStep(w, i);
    HitsBelow(w, i, Sum(w));
  }

  /**
   * `random.choices` bisects the running weights with `x = random() * total`.
   * For a real `x` in [0, total) that first position whose running weight
   * exceeds `x` is the one `Pick` chooses for the integer draw `floor(x)`.
   */
  lemma PickFromRealDraw(w: seq<nat>, x: real)
    requires 0.0 <= x < Sum(w) as real
    ensures 0 <= x.Floor < Sum(w)
    ensures var i := Pick(w, x.Floor);
      && (Sum(w[..i + 1]) as real) > x
      && forall j :: 0 < j <= i ==> (Sum(w[..j]) as real) <= x
  {
  }

  // ---------------------------------------------------------------------------
  // Choosing a template for a mode

  /** Python's `str.endswith`. */
  predicate EndsWith(s: string, suffix: string)
    ensures EndsWith(s, suffix) <==> exists prefix: string :: s == prefix + suffix
  {
    assert |suffix| <= |s| ==> s == s[..|s| - |suffix|] + s[|s| - |suffix|..];
    |suffix| <= |s| && s[|s| - |suffix|..] == suffix
  }

  /**
   * The driver's pick of `selected_progression`: a weighted pick from the major
   * catalog for a mode ending in `Major`, else from the minor catalog for one
   * ending in `Minor`, else the empty progression.
   */
  function SelectProgression(mode: string, draw: nat): (p: seq<string>)
    requires EndsWith(mode, "Major") ==> draw < MajorTotal
    requires !EndsWith(mode, "Major") && EndsWith(mode, "Minor") ==> draw < MinorTotal
    ensures EndsWith(mode, "Major") ==> p in MajorProgressions
    ensures !EndsWith(mode, "Major") && EndsWith(mode, "Minor") ==> p in MinorProgressions
    ensures !EndsWith(mode, "Major") && !EndsWith(mode, "Minor") ==> p == []
    ensures |MajorProgressions| == |MajorWeights| && Sum(MajorWeights) == MajorTotal
    ensures |MinorProgressions| == |MinorWeights| && Sum(MinorWeights) == MinorTotal
    ensures EndsWith(mode, "Major") ==> p == Choose(MajorProgressions, MajorWeights, draw)
    ensures !EndsWith(mode, "Major") && EndsWith(mode, "Minor") ==> p == Choose(MinorProgressions, MinorWeights, draw)
  {
    MajorCatalogFacts();
    MinorCatalogFacts();
    if EndsWith(mode, "Major") then
      Choose(MajorProgressions, MajorWeights, draw)
    else if EndsWith(mode, "Minor") then
      Choose(MinorProgressions, MinorWeights, draw)
    else
      []
  }

  /** The two labels `gather_data` produces each select their own catalog. */
  lemma ModeLabelsSelectTheirCatalog()
    ensures EndsWith("Major", "Major") && !EndsWith("Major", "Minor")
    ensures !EndsWith("Minor", "Major") && EndsWith("Minor", "Minor")
  {
    assert "Major"[0..] == "Major" && "Minor"[0..] == "Minor";
  }

  lemma MajorCatalogDistinct()
    ensures Distinct(MajorProgressions)
  {
  }

  lemma MinorCatalogDistinct()
    ensures Distinct(MinorProgressions)
  {
  }

  /** `random.choices(catalog, weights=weights, k=1)[0]` for the integer draw `r`. */
  function Choose(catalog: seq<seq<string>>, weights: seq<nat>, r: nat): (p: seq<string>)
    requires |catalog| == |weights| && r < Sum(weights)
    ensures p in catalog
  {
    catalog[Pick(weights, r)]
  }

  /** How many of the draws `0 .. n-1` make `Choose` return `p`. */
  function ChoiceHits(catalog: seq<seq<string>>, weights: seq<nat>, p: seq<string>, n: nat): nat
    requires |catalog| == |weights| && n <= Sum(weights)
  {
    if n == 0 then 0
    else ChoiceHits(catalog, weights, p, n - 1) + (if Choose(catalog, weights, n - 1) == p then 1 else 0)
  }

  lemma {:induction false} ChoiceHitsAreIndexHits(catalog: seq<seq<string>>, weights: seq<nat>, i: nat, n: nat)
    requires |catalog| == |weights| && Distinct(catalog) && i < |catalog| && n <= Sum(weights)
    ensures ChoiceHits(catalog, weights, catalog[i], n) == Hits(weights, i, n)
  {
    if n > 0 {
      ChoiceHitsAreIndexHits(catalog, weights, i, n - 1);
    }
  }

  /** With distinct templates, exactly `weights[i]` of the `Sum(weights)` draws choose template `i`. */
  lemma ChoiceFrequency(catalog: seq<seq<string>>, weights: seq<nat>, i: nat)
    requires |catalog| == |weights| && Distinct(catalog) && i < |catalog|
    ensures ChoiceHits(catalog, weights, catalog[i], Sum(weights)) == weights[i]
  {
    ChoiceHitsAreIndexHits(catalog, weights, i, Sum(weights));
    PickCount(weights, i);
  }

  /** Of the 92 draws for a major mode, exactly `MajorWeights[i]` select major template `i`. */
  lemma MajorSelectionFrequency(i: nat)
    requires i < |MajorProgressions|
    ensures |MajorProgressions| == |MajorWeights| && Sum(MajorWeights) == MajorTotal
    ensures ChoiceHits(MajorProgressions, MajorWeights, MajorProgressions[i], MajorTotal) == MajorWeights[i]
  {
    MajorCatalogFacts();
    MajorCatalogDistinct();
    ChoiceFrequency(MajorProgressions, MajorWeights, i);
  }

  /** Of the 86 draws for a minor mode, exactly `MinorWeights[i]` select minor template `i`. */
  lemma MinorSelectionFrequency(i: nat)
    requires i < |MinorProgressions|
    ensures |MinorProgressions| == |MinorWeights| && Sum(MinorWeights) == MinorTotal
    ensures ChoiceHits(MinorProgressions, MinorWeights, MinorProgressions[i], MinorTotal) == MinorWeights[i]
  {
    MinorCatalogFacts();
    MinorCatalogDistinct();
    ChoiceFrequency(MinorProgressions, MinorWeights, i);
  }

  // ---------------------------------------------------------------------------
  // The symbols the catalogs use

  /** The misspelled supertonic of minor template 10, written with a ring above. */
  const RingAboveSupertonic := "ii˚"

  lemma MajorVocabulary()
    ensures forall i, j :: 0 <= i < |MajorProgressions| && 0 <= j < |MajorProgressions[i]| ==>
      MajorProgressions[i][j] in Symbols
  {
  }

  lemma MinorVocabulary()
    ensures forall i, j :: 0 <= i < |MinorProgressions| && 0 <= j < |MinorProgressions[i]| ==>
      (MinorProgressions[i][j] in Symbols <==> MinorProgressions[i][j] != RingAboveSupertonic)
    ensures MinorProgressions[10][1] == RingAboveSupertonic
    ensures forall i, j :: 0 <= i < |MinorProgressions| && 0 <= j < |MinorProgressions[i]| ==>
      (MinorProgressions[i][j] == RingAboveSupertonic <==> i == 10 && j == 1)
  {
  }

  /** Every chord of every template resolves in every key of `CHORD_DICT`, to a non-empty voicing unless it is `ii˚`. */
  lemma CatalogChordsResolve(key: string, p: seq<string>, j: nat)
    requires key in ChordDict && (p in MajorProgressions || p in MinorProgressions) && j < |p|
    ensures ChordToMidi(key, p[j]).Ok?
    ensures |ChordToMidi(key, p[j]).value| > 0 <==> p[j] != RingAboveSupertonic
  {
    MajorVocabulary();
    MinorVocabulary();
    RingAboveSymbolUnlisted(key);
    if p[j] in Symbols {
      var k := IndexOf(Symbols, p[j]).value;
      ChordToMidiVerbatim(key, k, p[j]);
      TableShape(key, k);
    }
  }
}
