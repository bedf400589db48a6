/** Image URL normalisation of the client gateway: storage-provider links are
    rewritten to the provider's thumbnail endpoint, found by the first of two
    URL patterns that matches; anything else passes through, and a missing URL
    becomes a placeholder image. */
module DriveUrl {
  import opened Types

  const Placeholder: string := "https://via.placeholder.com/150?text=No+Image"
  const ThumbnailPrefix: string := "https://drive.google.com/thumbnail?id="
  const ThumbnailSuffix: string := "&sz=w1000"

  /** The two patterns, `/d/<id>` and `id=<id>`, without their capture group. */
  const PathMarker: string := "/d/"
  const QueryMarker: string := "id="

  function Thumbnail(id: string): string {
    ThumbnailPrefix + id + ThumbnailSuffix
  }

  /** The character class `[a-zA-Z0-9_-]`. */
  predicate IsIdChar(c: char) {
    ('a' <= c <= 'z') || ('A' <= c <= 'Z') || ('0' <= c <= '9') || c == '_' || c == '-'
  }

  predicate AllIdChars(s: string) {
    forall i :: 0 <= i < |s| ==> IsIdChar(s[i])
  }

  /** What the greedy group `([a-zA-Z0-9_-]+)` captures at the start of `s`:
      the longest prefix made of id characters. */
  function IdRun(s: string): (r: string)
    ensures |r| <= |s| && r == s[..|r|]
    ensures AllIdChars(r)
    ensures |r| == |s| || !IsIdChar(s[|r|])
  {
    if s == [] || !IsIdChar(s[0]) then [] else [s[0]] + IdRun(s[1..])
  }

  /** The regex `<marker>[a-zA-Z0-9_-]+` matches at position `i`. */
  predicate MatchAt(s: string, marker: string, i: nat) {
    OccursAt(s, marker, i) && i + |marker| < |s| && IsIdChar(s[i + |marker|])
  }

  /** The leftmost position at or after `from` where the pattern matches. */
  function FirstMatch(s: string, marker: string, from: nat): (r: Option<nat>)
    ensures r.Some? ==> from <= r.value && MatchAt(s, marker, r.value)
    ensures r.Some? ==> forall j :: from <= j < r.value ==> !MatchAt(s, marker, j)
    ensures r.None? ==> forall j :: from <= j ==> !MatchAt(s, marker, j)
    decreases |s| - from
  {
    if from >= |s| then None
    else if MatchAt(s, marker, from) then Some(from)
    else FirstMatch(s, marker, from + 1)
  }

  /** `url.match(/<marker>([a-zA-Z0-9_-]+)/)?.[1]`. */
  function CaptureId(url: string, marker: string): (r: Option<string>)
    ensures r.Some? ==> r.value != [] && AllIdChars(r.value)
  {
    match FirstMatch(url, marker, 0)
    case None => None
    case Some(j) => Some(IdRun(url[j + |marker|..]))
  }

  /** `fixDriveUrl(url)`. */
  function FixDriveUrl(url: Option<string>): (r: string)
    ensures url.None? || url.value == "" ==> r == Placeholder
    ensures url.Some? && url.value != "" && !Contains(url.value, "google.com") ==> r == url.value
    ensures r == Placeholder || (url.Some? && r == url.value) ||
            exists id :: id != [] && AllIdChars(id) && r == Thumbnail(id)
  {
    if url.None? || url.value == "" then Placeholder
    else if !Contains(url.value, "google.com") then url.value
    else match CaptureId(url.value, PathMarker)
      case Some(id) => Thumbnail(id)
      case None =>
        match CaptureId(url.value, QueryMarker)
        case Some(id) => Thumbnail(id)
        case None => url.value
  }

  /** The precedence rule of `FixDriveUrl` spelled out for provider URLs, one
      case per clause: a `/d/<id>` match is used even when an `id=` match also
      exists; otherwise an `id=` match is used; with neither, the URL is
      returned unchanged. It follows from the definition by unfolding. */
  lemma FixDriveUrlProviderCases(url: string)
    requires url != "" && Contains(url, "google.com")
    ensures CaptureId(url, PathMarker).Some? ==>
      FixDriveUrl(Some(url)) == Thumbnail(CaptureId(url, PathMarker).value)
    ensures CaptureId(url, PathMarker).None? && CaptureId(url, QueryMarker).Some? ==>
      FixDriveUrl(Some(url)) == Thumbnail(CaptureId(url, QueryMarker).value)
    ensures CaptureId(url, PathMarker).None? && CaptureId(url, QueryMarker).None? ==>
      FixDriveUrl(Some(url)) == url
  {
  }

  // ---------------------------------------------------------------------------
  // Idempotence
  // ---------------------------------------------------------------------------

  lemma {:induction false} IdRunStopsAtNonId(a: string, b: string)
    requires AllIdChars(a)
    requires b == [] || !IsIdChar(b[0])
    ensures IdRun(a + b) == a
    decreases |a|
  {
    if a != [] {
      assert (a + b)[1..] == a[1..] + b;
      IdRunStopsAtNonId(a[1..], b);
    } else {
      assert a + b == b;
    }
  }

  lemma PrefixFacts()
    ensures |ThumbnailPrefix| == 38
    ensures forall j | 0 <= j < 38 && ThumbnailPrefix[j] == '/' :: j == 6 || j == 7 || j == 24
    ensures forall j | 0 <= j < 38 && ThumbnailPrefix[j] == 'i' :: j == 10 || j == 32 || j == 35
    ensures forall j | 0 <= j < 10 :: ThumbnailPrefix[14 + j] == "google.com"[j]
    ensures ThumbnailPrefix[35] == 'i' && ThumbnailPrefix[36] == 'd' && ThumbnailPrefix[37] == '='
    ensures ThumbnailSuffix[0] == '&'
    ensures forall j | 0 <= j < |ThumbnailSuffix| :: ThumbnailSuffix[j] != '/'
  {
  }

  lemma {:induction false} ThumbnailSplit(id: string)
    ensures |Thumbnail(id)| == 38 + |id| + |ThumbnailSuffix|
    ensures forall j | 0 <= j < 38 :: Thumbnail(id)[j] == ThumbnailPrefix[j]
    ensures forall j | 0 <= j < |id| :: Thumbnail(id)[38 + j] == id[j]
    ensures forall j | 0 <= j < |ThumbnailSuffix| :: Thumbnail(id)[38 + |id| + j] == ThumbnailSuffix[j]
    ensures Thumbnail(id)[38..] == id + ThumbnailSuffix
  {
    PrefixFacts();
  }

  lemma {:induction false} ThumbnailHasProvider(id: string)
    ensures Contains(Thumbnail(id), "google.com")
  {
    var t := Thumbnail(id);
    PrefixFacts();
    ThumbnailSplit(id);
    assert t[14..24] == "google.com";
    assert OccursAt(t, "google.com", 14);
  }

  lemma {:induction false} ThumbnailNoPathMatch(id: string)
    requires AllIdChars(id)
    ensures CaptureId(Thumbnail(id), PathMarker) == None
  {
    var t := Thumbnail(id);
    PrefixFacts();
    ThumbnailSplit(id);
    forall j: nat ensures !MatchAt(t, PathMarker, j) {
      if j + 3 <= |t| {
        assert t[j..j + 3][0] == t[j] && t[j..j + 3][2] == t[j + 2];
        if j + 2 < 38 {
          assert !(t[j] == '/' && t[j + 2] == '/');
        } else if j + 2 < 38 + |id| {
          assert t[j + 2] == id[j + 2 - 38];
        } else {
          assert t[j + 2] == ThumbnailSuffix[j + 2 - 38 - |id|];
        }
      }
    }
    assert FirstMatch(t, PathMarker, 0) == None;
  }

  lemma {:induction false} ThumbnailQueryMatch(id: string)
    requires id != [] && AllIdChars(id)
    ensures CaptureId(Thumbnail(id), QueryMarker) == Some(id)
  {
    var t := Thumbnail(id);
    PrefixFacts();
    ThumbnailSplit(id);
    assert MatchAt(t, QueryMarker, 35) by {
      assert t[35..38] == QueryMarker;
      assert t[38] == id[0];
    }
    forall j: nat | j < 35 ensures !MatchAt(t, QueryMarker, j) {
      assert t[j..j + 3][0] == t[j] && t[j..j + 3][1] == t[j + 1];
      assert !(t[j] == 'i' && t[j + 1] == 'd');
    }
    assert FirstMatch(t, QueryMarker, 0) == Some(35);
    IdRunStopsAtNonId(id, ThumbnailSuffix);
  }

  /** The thumbnail URL is a provider URL, has no `/d/` match and its first
      `id=` match captures exactly the id. */
  lemma ThumbnailRecognised(id: string)
    requires id != [] && AllIdChars(id)
    ensures Contains(Thumbnail(id), "google.com")
    ensures CaptureId(Thumbnail(id), PathMarker) == None
    ensures CaptureId(Thumbnail(id), QueryMarker) == Some(id)
  {
    ThumbnailHasProvider(id);
    ThumbnailNoPathMatch(id);
    ThumbnailQueryMatch(id);
  }

  lemma PlaceholderFacts()
    ensures forall j | 0 <= j < |Placeholder| - 1 && Placeholder[j] == 'g' :: Placeholder[j + 1] != 'o'
  {
  }

  /** The placeholder is not a provider URL. */
  lemma PlaceholderNotProvider()
    ensures !Contains(Placeholder, "google.com")
  {
    PlaceholderFacts();
    forall i: nat | i <= |Placeholder| ensures !OccursAt(Placeholder, "google.com", i) {
      if i + 10 <= |Placeholder| {
        assert Placeholder[i..i + 10][0] == Placeholder[i];
        assert Placeholder[i..i + 10][1] == Placeholder[i + 1];
      }
    }
  }

  /** Rewriting an already rewritten URL changes nothing. This matters
      because the bundle readers rewrite the candidate objects held in the
      response cache in place, so a cache hit rewrites them again. */
  lemma {:induction false} FixDriveUrlIdempotent(url: Option<string>)
    ensures FixDriveUrl(Some(FixDriveUrl(url))) == FixDriveUrl(url)
  {
    var r := FixDriveUrl(url);
    if r == Placeholder {
      PlaceholderNotProvider();
    } else if url.Some? && r == url.value {
    } else {
      var id :| id != [] && AllIdChars(id) && r == Thumbnail(id);
      ThumbnailRecognised(id);
    }
  }

  /** `processCandidate`: only the image URL changes. */
  function ProcessCandidate(c: Candidate): (r: Candidate)
    ensures r.imageUrl == Some(FixDriveUrl(c.imageUrl))
    ensures r.(imageUrl := c.imageUrl) == c
  {
    c.(imageUrl := Some(FixDriveUrl(c.imageUrl)))
  }

  lemma ProcessCandidateIdempotent(c: Candidate)
    ensures ProcessCandidate(ProcessCandidate(c)) == ProcessCandidate(c)
  {
    FixDriveUrlIdempotent(c.imageUrl);
  }
}
