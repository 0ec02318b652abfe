/**
 * The split of a ping favicon with the pattern `data:image/(.*);base64,(.*)`
 * under Python's `re.match`: anchored at the start only, both groups greedy,
 * and `.` matching every character except a line break.  The pattern is a
 * narrow case of the `data:` URL scheme of RFC 2397, section 3.
 */
module Favicon {
  import opened Wrappers

  const DATA_IMAGE_PREFIX: string := "data:image/"
  const BASE64_MARKER: string := ";base64,"

  /** The longest prefix of `s` without a line break. */
  function FirstLine(s: string): (line: string)
    ensures |line| <= |s| && line == s[..|line|]
    ensures '\n' !in line
    ensures |line| < |s| ==> s[|line|] == '\n'
    decreases |s|
  {
    if s == [] || s[0] == '\n' then [] else [s[0]] + FirstLine(s[1..])
  }

  predicate MarkerAt(s: string, j: int) {
    0 <= j && j + |BASE64_MARKER| <= |s| && s[j..j + |BASE64_MARKER|] == BASE64_MARKER
  }

  /** The last position at or before `j` where the marker starts. */
  function LastMarkerFrom(s: string, j: int): (r: Option<nat>)
    ensures r.Some? ==> r.value <= j && MarkerAt(s, r.value)
    ensures r.Some? ==> forall k | r.value < k <= j :: !MarkerAt(s, k)
    ensures r.None? ==> forall k | 0 <= k <= j :: !MarkerAt(s, k)
    decreases j + 1
  {
    if j < 0 then None
    else if MarkerAt(s, j) then Some(j)
    else LastMarkerFrom(s, j - 1)
  }

  /**
   * `re.match('data:image\/(.*);base64,(.*)', s)`: `None` when there is no
   * match, otherwise the two groups, the image extension and the payload.
   */
  function ParseFavicon(s: string): Option<(string, string)> {
    if |s| >= |DATA_IMAGE_PREFIX| && s[..|DATA_IMAGE_PREFIX|] == DATA_IMAGE_PREFIX then
      var line := FirstLine(s[|DATA_IMAGE_PREFIX|..]);
      match LastMarkerFrom(line, |line| - |BASE64_MARKER|)
      case None => None
      case Some(j) => Some((line[..j], line[j + |BASE64_MARKER|..]))
    else
      None
  }

  /**
   * The pattern matches a prefix of `s` with `ext` and `body` as its groups:
   * the prefix, the extension, the marker and the payload in sequence, with
   * no line break inside either group.
   */
  predicate MatchesPattern(s: string, ext: string, body: string) {
    var e := |DATA_IMAGE_PREFIX| + |ext|;
    var n := e + |BASE64_MARKER| + |body|;
    && n <= |s|
    && s[..|DATA_IMAGE_PREFIX|] == DATA_IMAGE_PREFIX
    && s[|DATA_IMAGE_PREFIX|..e] == ext
    && MarkerAt(s, e)
    && s[e + |BASE64_MARKER|..n] == body
    && '\n' !in ext
    && '\n' !in body
  }

  /** Whatever the pattern matches lies within the first line after the prefix. */
  lemma MatchInFirstLine(s: string, ext: string, body: string)
    requires MatchesPattern(s, ext, body)
    ensures |s| >= |DATA_IMAGE_PREFIX| && s[..|DATA_IMAGE_PREFIX|] == DATA_IMAGE_PREFIX
    ensures var line := FirstLine(s[|DATA_IMAGE_PREFIX|..]);
      && |ext| + |BASE64_MARKER| + |body| <= |line|
      && line[..|ext|] == ext
      && MarkerAt(line, |ext|)
      && line[|ext| + |BASE64_MARKER|..|ext| + |BASE64_MARKER| + |body|] == body
  {
    var p := |DATA_IMAGE_PREFIX|;
    var e := |ext|;
    var b := e + |BASE64_MARKER|;
    var m := b + |body|;
    var rest := s[p..];
    var line := FirstLine(rest);
    assert rest[..e] == ext;
    assert rest[e..b] == BASE64_MARKER;
    assert rest[b..m] == body;
    forall i | 0 <= i < m
      ensures rest[i] != '\n'
    {
      if i < e {
        assert rest[i] == ext[i];
      } else if i < b {
        assert rest[i] == BASE64_MARKER[i - e];
      } else {
        assert rest[i] == body[i - b];
      }
    }
    assert line[..m] == rest[..m];
  }

  /** A slice of a stretch of `s` is the same slice of `s`, shifted. */
  lemma SliceOfStretch(s: string, p: nat, line: string, lo: nat, hi: nat)
    requires p + |line| <= |s| && line == s[p..p + |line|]
    requires lo <= hi <= |line|
    ensures s[p + lo..p + hi] == line[lo..hi]
    ensures forall i | lo <= i < hi :: line[i] == s[p + i]
  {
    forall i | lo <= i < hi ensures line[i] == s[p + i] {
      assert line[i] == s[p..p + |line|][i];
    }
    assert s[p + lo..p + hi] == line[lo..hi] by {
      forall i | 0 <= i < hi - lo ensures s[p + lo..p + hi][i] == line[lo..hi][i] {
        assert line[lo..hi][i] == line[lo + i];
      }
    }
  }

  /** A split of a one-line stretch after the prefix at a marker is a match of the pattern. */
  lemma SplitMatches(s: string, line: string, j: nat)
    requires |DATA_IMAGE_PREFIX| <= |s| && s[..|DATA_IMAGE_PREFIX|] == DATA_IMAGE_PREFIX
    requires |DATA_IMAGE_PREFIX| + |line| <= |s| && line == s[|DATA_IMAGE_PREFIX|..|DATA_IMAGE_PREFIX| + |line|]
    requires '\n' !in line
    requires MarkerAt(line, j)
    ensures MatchesPattern(s, line[..j], line[j + |BASE64_MARKER|..])
  {
    var p := |DATA_IMAGE_PREFIX|;
    var m := j + |BASE64_MARKER|;
    SliceOfStretch(s, p, line, 0, j);
    SliceOfStretch(s, p, line, j, m);
    SliceOfStretch(s, p, line, m, |line|);
    assert '\n' !in line[..j] && '\n' !in line[m..] by {
      forall i | 0 <= i < j ensures line[..j][i] != '\n' { assert line[..j][i] == line[i]; }
      forall i | 0 <= i < |line| - m ensures line[m..][i] != '\n' { assert line[m..][i] == line[m + i]; }
    }
  }

  /** A successful split is a match of the pattern. */
  lemma ParseFaviconMatches(s: string)
    requires ParseFavicon(s).Some?
    ensures MatchesPattern(s, ParseFavicon(s).value.0, ParseFavicon(s).value.1)
  {
    var p := |DATA_IMAGE_PREFIX|;
    var line := FirstLine(s[p..]);
    var j := LastMarkerFrom(line, |line| - |BASE64_MARKER|).value;
    assert line == s[p..p + |line|];
    SplitMatches(s, line, j);
  }




  /** No match has a longer extension, and none with the same extension has a longer payload. */
  lemma ParseFaviconIsGreedy(s: string, ext': string, body': string)
    requires ParseFavicon(s).Some?
    requires MatchesPattern(s, ext', body')
    ensures var (ext, body) := ParseFavicon(s).value;
      |ext'| < |ext| || (ext' == ext && |body'| <= |body|)
  {
    MatchInFirstLine(s, ext', body');
  }

  /**
   * A successful split is the match a greedy engine picks; a failed one
   * means the pattern matches nowhere, which is when `res` is `None`.
   */
  lemma ParseFaviconIsGreedyMatch(s: string)
    ensures ParseFavicon(s).Some? ==>
      var (ext, body) := ParseFavicon(s).value;
      && MatchesPattern(s, ext, body)
      && forall ext', body' | MatchesPattern(s, ext', body') ::
           |ext'| < |ext| || (ext' == ext && |body'| <= |body|)
    ensures ParseFavicon(s).None? ==> forall ext', body' :: !MatchesPattern(s, ext', body')
  {
    if ParseFavicon(s).Some? {
      ParseFaviconMatches(s);
      forall ext', body' | MatchesPattern(s, ext', body')
        ensures |ext'| < |ParseFavicon(s).value.0|
             || (ext' == ParseFavicon(s).value.0 && |body'| <= |ParseFavicon(s).value.1|)
      {
        ParseFaviconIsGreedy(s, ext', body');
      }
    } else {
      forall ext', body' ensures !MatchesPattern(s, ext', body') {
        if MatchesPattern(s, ext', body') {
          MatchInFirstLine(s, ext', body');
        }
      }
    }
  }

  predicate IsBase64Char(c: char) {
    ('A' <= c <= 'Z') || ('a' <= c <= 'z') || ('0' <= c <= '9') || c == '+' || c == '/' || c == '='
  }

  /** `data:image/<ext>;base64,<body>` for a one-line extension and a base64 payload. */
  function DataUri(ext: string, body: string): string {
    DATA_IMAGE_PREFIX + ext + BASE64_MARKER + body
  }

  /**
   * Splitting a data URI built from a one-line extension and a base64
   * payload gives both back, even when the extension itself contains the
   * marker.
   */
  lemma ParseDataUri(ext: string, body: string)
    requires '\n' !in ext
    requires forall i | 0 <= i < |body| :: IsBase64Char(body[i])
    ensures ParseFavicon(DataUri(ext, body)) == Some((ext, body))
  {
    var s := DataUri(ext, body);
    DataUriMatches(ext, body);
    ParseFaviconIsGreedyMatch(s);
    var (ext', body') := ParseFavicon(s).value;
    if |ext'| > |ext| {
      NoMarkerAfterExtension(ext, body, |DATA_IMAGE_PREFIX| + |ext'|);
    }
    assert ext' == s[|DATA_IMAGE_PREFIX|..|DATA_IMAGE_PREFIX| + |ext|] == ext;
    assert body' == s[|DATA_IMAGE_PREFIX| + |ext| + |BASE64_MARKER|..] == body;
  }

  lemma DataUriMatches(ext: string, body: string)
    requires '\n' !in ext
    requires forall i | 0 <= i < |body| :: IsBase64Char(body[i])
    ensures MatchesPattern(DataUri(ext, body), ext, body)
    ensures var s := DataUri(ext, body);
      s[|DATA_IMAGE_PREFIX| + |ext| + |BASE64_MARKER|..] == body
  {
    var s := DataUri(ext, body);
    var p := |DATA_IMAGE_PREFIX|;
    var e := p + |ext|;
    var b := e + |BASE64_MARKER|;
    assert s[..p] == DATA_IMAGE_PREFIX;
    assert s[p..e] == ext;
    assert s[e..b] == BASE64_MARKER;
    assert s[b..] == body;
    assert s[b..|s|] == body;
    forall i | 0 <= i < |body| ensures body[i] != '\n' {
      assert IsBase64Char(body[i]);
    }
  }

  /** Past the marker that ends the extension, a base64 payload has no `;` and so no further marker. */
  lemma NoMarkerAfterExtension(ext: string, body: string, k: int)
    requires forall i | 0 <= i < |body| :: IsBase64Char(body[i])
    requires |DATA_IMAGE_PREFIX| + |ext| < k
    ensures !MarkerAt(DataUri(ext, body), k)
  {
    var s := DataUri(ext, body);
    var e := |DATA_IMAGE_PREFIX| + |ext|;
    var b := e + |BASE64_MARKER|;
    if k < |s| {
      if k < b {
        assert s[k] == BASE64_MARKER[k - e];
      } else {
        assert s[k] == body[k - b];
        assert IsBase64Char(body[k - b]);
      }
      assert s[k] != BASE64_MARKER[0];
      if k + |BASE64_MARKER| <= |s| {
        assert s[k..k + |BASE64_MARKER|][0] != BASE64_MARKER[0];
      }
    }
  }
}
