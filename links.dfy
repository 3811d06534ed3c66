/**
 * `parse_spotify_link`: Python's `str.split` with a one-character separator,
 * its inverse `str.join`, and the playlist id cut out of a share link.
 */
module Links {
  import opened Wrappers
  import opened Seqs

  /** `s.split(sep)`: the pieces between separators; there is always at least one, possibly empty. */
  function Split(s: string, sep: char): (parts: seq<string>)
    ensures |parts| >= 1
    ensures forall i :: 0 <= i < |parts| ==> sep !in parts[i]
    decreases |s|
  {
    match IndexOf(s, sep)
    case None => [s]
    case Some(i) => [s[..i]] + Split(s[i + 1..], sep)
  }

  /** `sep.join(parts)`. */
  function Join(parts: seq<string>, sep: char): string
    requires |parts| >= 1
  {
    if |parts| == 1 then parts[0] else parts[0] + [sep] + Join(parts[1..], sep)
  }

  /** Joining the pieces with the separator gives the string back. */
  lemma {:induction false} JoinSplit(s: string, sep: char)
    ensures Join(Split(s, sep), sep) == s
    decreases |s|
  {
    match IndexOf(s, sep)
    case None =>
    case Some(i) =>
      var rest := Split(s[i + 1..], sep);
      JoinSplit(s[i + 1..], sep);
      assert ([s[..i]] + rest)[1..] == rest;
      assert s == s[..i] + [sep] + s[i + 1..];
  }

  /** In a separator-free prefix followed by the separator, the first separator is the one after the prefix. */
  lemma {:induction false} FirstSeparatorAfter(p: string, q: string, sep: char)
    requires sep !in p
    ensures IndexOf(p + [sep] + q, sep) == Some(|p|)
  {
    if p != [] {
      FirstSeparatorAfter(p[1..], q, sep);
      assert (p + [sep] + q)[1..] == p[1..] + [sep] + q;
    }
  }

  /** Splitting the join of separator-free pieces gives the pieces back. */
  lemma {:induction false} SplitJoin(parts: seq<string>, sep: char)
    requires |parts| >= 1 && forall i :: 0 <= i < |parts| ==> sep !in parts[i]
    ensures Split(Join(parts, sep), sep) == parts
  {
    if |parts| > 1 {
      var p, q := parts[0], Join(parts[1..], sep);
      SplitJoin(parts[1..], sep);
      FirstSeparatorAfter(p, q, sep);
      var s := p + [sep] + q;
      assert s[..|p|] == p && s[|p| + 1..] == q;
      assert parts == [parts[0]] + parts[1..];
    }
  }

  /** The first piece is the longest separator-free prefix: it runs up to the first separator or to the end. */
  lemma FirstPieceIsPrefix(s: string, sep: char)
    ensures var p := Split(s, sep)[0];
      |p| <= |s| && p == s[..|p|] && (|p| == |s| || s[|p|] == sep)
  {
  }

  lemma {:induction false} JoinLast(parts: seq<string>, sep: char)
    requires |parts| >= 2
    ensures Join(parts, sep) == Join(parts[..|parts| - 1], sep) + [sep] + parts[|parts| - 1]
  {
    var n := |parts|;
    if n == 2 {
      assert parts[1..] == [parts[1]];
    } else {
      JoinLast(parts[1..], sep);
      assert parts[1..][..n - 2] == parts[..n - 1][1..];
    }
  }

  /** The last piece is the text after the last separator, or the whole string when there is none. */
  lemma LastPieceIsSuffix(s: string, sep: char)
    ensures var parts := Split(s, sep); var p := parts[|parts| - 1];
      |p| <= |s| && p == s[|s| - |p|..] && (|p| == |s| || s[|s| - |p| - 1] == sep)
  {
    var parts := Split(s, sep);
    JoinSplit(s, sep);
    if |parts| >= 2 {
      JoinLast(parts, sep);
    }
  }

  /** Cutting a string at its first `b` leaves a piece free of `b`, and of `a` when the string was. */
  lemma FirstPieceAvoids(s: string, a: char, b: char)
    requires a !in s
    ensures a !in Split(s, b)[0] && b !in Split(s, b)[0]
  {
    FirstPieceIsPrefix(s, b);
    var p := Split(s, b)[0];
    assert forall i :: 0 <= i < |p| ==> p[i] == s[i];
  }

  /** `ValueError("Invalid Spotify link")`. */
  datatype LinkError = InvalidLink

  /** The segment a playlist link must contain. */
  const PlaylistSegment: string := "playlist"

  /**
   * `id` holds neither `/` nor `?`, and it is the text after the last `/` of
   * `link` (or all of `link` when it has none), cut at the first `?` there.
   */
  ghost predicate IsIdOf(id: string, link: string)
  {
    && '/' !in id && '?' !in id
    && exists k :: 0 <= k <= |link| && '/' !in link[k..] && (k == 0 || link[k - 1] == '/')
         && k + |id| <= |link| && id == link[k..k + |id|] && (k + |id| == |link| || link[k + |id|] == '?')
  }

  lemma IdWitness(link: string, last: string, id: string)
    requires |last| <= |link| && last == link[|link| - |last|..] && '/' !in last
    requires |last| == |link| || link[|link| - |last| - 1] == '/'
    requires |id| <= |last| && id == last[..|id|] && (|id| == |last| || last[|id|] == '?')
    requires '/' !in id && '?' !in id
    ensures IsIdOf(id, link)
  {
    var k := |link| - |last|;
    assert link[k..k + |id|] == id;
    if k + |id| < |link| {
      assert link[k + |id|] == last[|id|];
    }
  }

  /** `parts[-1].split('?')[0]`. */
  function LastSegmentId(parts: seq<string>): string
    requires |parts| >= 1
  {
    Split(parts[|parts| - 1], '?')[0]
  }

  /** The id `parse_spotify_link` cuts out of `link`. */
  function IdOf(link: string): string
  {
    LastSegmentId(Split(link, '/'))
  }

  lemma LastSegmentCut(link: string)
    ensures IsIdOf(IdOf(link), link)
  {
    var parts := Split(link, '/');
    var last := parts[|parts| - 1];
    LastPieceIsSuffix(link, '/');
    FirstPieceIsPrefix(last, '?');
    FirstPieceAvoids(last, '/', '?');
    IdWitness(link, last, Split(last, '?')[0]);
  }

  /**
   * `parse_spotify_link`: the link is accepted exactly when one of its
   * `/`-separated segments is `playlist`; the type returned is then always
   * `playlist`, and the id is the last segment cut at its first `?`.
   */
  function ParseLink(link: string): (r: Result<(string, string), LinkError>)
    ensures r.Ok? <==> PlaylistSegment in Split(link, '/')
    ensures r.Ok? ==> r.value.0 == PlaylistSegment && IsIdOf(r.value.1, link)
  {
    if PlaylistSegment in Split(link, '/') then
      LastSegmentCut(link);
      Ok((PlaylistSegment, IdOf(link)))
    else Err(InvalidLink)
  }

  /** A link assembled from `/`-free segments, one of them `playlist`, parses to its last segment cut at `?`. */
  lemma ParseJoinedLink(segments: seq<string>)
    requires |segments| >= 1 && forall i :: 0 <= i < |segments| ==> '/' !in segments[i]
    requires PlaylistSegment in segments
    ensures ParseLink(Join(segments, '/')) == Ok((PlaylistSegment, LastSegmentId(segments)))
  {
    SplitJoin(segments, '/');
  }

  lemma {:induction false} QueryCutExample(s: string)
    requires s == "abc?si=7"
    ensures Split(s, '?')[0] == "abc"
  {
    assert Join(["abc", "si=7"], '?') == s;
    SplitJoin(["abc", "si=7"], '?');
  }

  lemma {:induction false} AcceptedLinkExample(link: string)
    requires link == "open.spotify.com/playlist/abc?si=7"
    ensures ParseLink(link) == Ok(("playlist", "abc"))
  {
    var segments := ["open.spotify.com", "playlist", "abc?si=7"];
    assert Join(segments, '/') == link;
    ParseJoinedLink(segments);
    QueryCutExample(segments[2]);
    assert LastSegmentId(segments) == "abc";
  }

  lemma {:induction false} RejectedLinkExample(link: string)
    requires link == "open.spotify.com/album/abc"
    ensures ParseLink(link) == Err(InvalidLink)
  {
    var segments := ["open.spotify.com", "album", "abc"];
    assert Join(segments, '/') == link;
    SplitJoin(segments, '/');
  }
}
