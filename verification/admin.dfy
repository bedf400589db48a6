/** The election control page of an admin: bulk whitelist entry (splitting a
    pasted list into distinct addresses), the candidate form's file pickers
    and attachment list, and the results tab (analytics gate, ranked bars,
    report rows, non-voters). */
module AdminControl {
  import opened Types
  import opened Upload
  import Results

  // ---------------------------------------------------------------------------
  // Splitting a pasted list
  // ---------------------------------------------------------------------------

  /** The characters of the regular-expression class `\s`, which are also
      the characters `trim` removes. */
  predicate IsSpace(c: char) {
    c == ' ' || c == '\t' || c == '\n' || c == '\r' || c == '\U{000B}' || c == '\U{000C}' ||
    c == '\U{00A0}' || c == '\U{1680}' || ('\U{2000}' <= c <= '\U{200A}') ||
    c == '\U{2028}' || c == '\U{2029}' || c == '\U{202F}' || c == '\U{205F}' ||
    c == '\U{3000}' || c == '\U{FEFF}'
  }

  /** The class `[\s,]`. */
  predicate IsSeparator(c: char) {
    IsSpace(c) || c == ','
  }

  predicate NoSeparators(s: string) {
    forall i :: 0 <= i < |s| ==> !IsSeparator(s[i])
  }

  /** The longest prefix of `s` without separators. */
  function TokenRun(s: string): (r: string)
    ensures |r| <= |s| && r == s[..|r|]
    ensures NoSeparators(r)
    ensures |r| == |s| || IsSeparator(s[|r|])
  {
    if s == [] || IsSeparator(s[0]) then [] else [s[0]] + TokenRun(s[1..])
  }

  /** `s` without its leading run of separators. */
  function SkipSeparators(s: string): (r: string)
    ensures |r| <= |s| && r == s[|s| - |r|..]
    ensures forall i :: 0 <= i < |s| - |r| ==> IsSeparator(s[i])
    ensures r == [] || !IsSeparator(r[0])
  {
    if s == [] || !IsSeparator(s[0]) then s else SkipSeparators(s[1..])
  }

  /** `s.split(/[\s,]+/)`: the pieces between maximal runs of separators; a
      leading or trailing run gives an empty first or last piece. */
  function Split(s: string): (r: seq<string>)
    ensures |r| >= 1
    ensures forall t :: t in r ==> NoSeparators(t)
    ensures forall i :: 0 < i < |r| - 1 ==> r[i] != ""
    ensures s != [] && !IsSeparator(s[0]) ==> r[0] != ""
    decreases |s|
  {
    var token := TokenRun(s);
    if |token| == |s| then [token]
    else [token] + Split(SkipSeparators(s[|token|..]))
  }

  function Concat(ss: seq<string>): string {
    if ss == [] then [] else ss[0] + Concat(ss[1..])
  }

  predicate NotSeparator(c: char) {
    !IsSeparator(c)
  }

  lemma {:induction false} FilterNoSeparators(s: string)
    requires NoSeparators(s)
    ensures Filter(s, NotSeparator) == s
  {
    if s != [] {
      assert s == [s[0]] + s[1..];
      FilterAppend([s[0]], s[1..], NotSeparator);
      FilterSingleton(s[0], NotSeparator);
      FilterNoSeparators(s[1..]);
    }
  }

  lemma {:induction false} FilterAllSeparators(s: string)
    requires forall i :: 0 <= i < |s| ==> IsSeparator(s[i])
    ensures Filter(s, NotSeparator) == []
  {
    if s != [] {
      FilterAllSeparators(s[1..]);
    }
  }

  lemma ConcatCons(a: string, rest: seq<string>)
    ensures Concat([a] + rest) == a + Concat(rest)
  {
    assert ([a] + rest)[1..] == rest;
  }

  lemma TokenKeepsText(s: string)
    ensures Filter(TokenRun(s), NotSeparator) == TokenRun(s)
  {
    FilterNoSeparators(TokenRun(s));
  }

  lemma SkipKeepsText(s: string)
    ensures Filter(s, NotSeparator) == Filter(SkipSeparators(s), NotSeparator)
  {
    var rest := SkipSeparators(s);
    var run := s[..|s| - |rest|];
    assert s == run + rest;
    FilterAppend(run, rest, NotSeparator);
    FilterAllSeparators(run);
  }

  /** Splitting loses only separators: the pieces put back together are the
      input with every separator removed. */
  lemma {:induction false} SplitKeepsText(s: string)
    ensures Concat(Split(s)) == Filter(s, NotSeparator)
    decreases |s|
  {
    var token := TokenRun(s);
    if |token| == |s| {
      assert token == s;
      FilterNoSeparators(s);
      ConcatCons(token, []);
      assert [token] + [] == [token];
    } else {
      var after := s[|token|..];
      var rest := SkipSeparators(after);
      assert s == token + after;
      assert |rest| < |s|;
      assert Filter(s, NotSeparator) == Filter(token, NotSeparator) + Filter(after, NotSeparator) by {
        FilterAppend(token, after, NotSeparator);
      }
      TokenKeepsText(s);
      SkipKeepsText(after);
      SplitKeepsText(rest);
      assert Split(s) == [token] + Split(rest);
      ConcatCons(token, Split(rest));
    }
  }

  // ---------------------------------------------------------------------------
  // Trimming, validity and de-duplication
  // ---------------------------------------------------------------------------

  function TrimStart(s: string): (r: string)
    ensures |r| <= |s| && r == s[|s| - |r|..]
    ensures r == [] || !IsSpace(r[0])
    ensures s == [] || !IsSpace(s[0]) ==> r == s
  {
    if s == [] || !IsSpace(s[0]) then s else TrimStart(s[1..])
  }

  function TrimEnd(s: string): (r: string)
    ensures |r| <= |s| && r == s[..|r|]
    ensures r == [] || !IsSpace(r[|r| - 1])
    ensures s == [] || !IsSpace(s[|s| - 1]) ==> r == s
  {
    if s == [] || !IsSpace(s[|s| - 1]) then s else TrimEnd(s[..|s| - 1])
  }

  /** `s.trim()`: the result is a piece of `s` with no space at either end,
      and a string with none there is returned as it is. */
  function Trim(s: string): (r: string)
    ensures r == [] || (!IsSpace(r[0]) && !IsSpace(r[|r| - 1]))
    ensures exists i, j :: 0 <= i <= j <= |s| && r == s[i..j]
    ensures s == [] || (!IsSpace(s[0]) && !IsSpace(s[|s| - 1])) ==> r == s
  {
    var t := TrimStart(s);
    var r := TrimEnd(t);
    SliceOfSuffix(s, t, r);
    assert r != [] ==> r[0] == t[0];
    r
  }

  lemma SliceOfSuffix(s: string, t: string, r: string)
    requires |t| <= |s| && t == s[|s| - |t|..]
    requires |r| <= |t| && r == t[..|r|]
    ensures 0 <= |s| - |t| <= |s| - |t| + |r| <= |s| && r == s[|s| - |t|..|s| - |t| + |r|]
  {
  }

  /** `e.length > 0 && e.includes('@')`. */
  predicate LooksLikeEmail(e: string) {
    |e| > 0 && '@' in e
  }

  function TrimAll(ts: seq<string>): (r: seq<string>)
    ensures |r| == |ts| && forall i :: 0 <= i < |ts| ==> r[i] == Trim(ts[i])
  {
    seq(|ts|, i requires 0 <= i < |ts| => Trim(ts[i]))
  }

  /** The first position of `x` in `s`. */
  function FirstIndex(s: seq<string>, x: string): (i: nat)
    requires x in s
    ensures i < |s| && s[i] == x && x !in s[..i]
  {
    if s[0] == x then 0 else 1 + FirstIndex(s[1..], x)
  }

  /** `[...new Set(s)]`: each value once, at its first occurrence. */
  function Dedup(s: seq<string>): (r: seq<string>)
    ensures forall x :: x in r <==> x in s
    ensures forall i, j :: 0 <= i < j < |r| ==> r[i] != r[j]
  {
    if s == [] then []
    else
      var init := s[..|s| - 1];
      var last := s[|s| - 1];
      assert s == init + [last];
      if last in init then Dedup(init) else Dedup(init) + [last]
  }

  lemma FirstIndexUnique(s: seq<string>, x: string, k: nat)
    requires k < |s| && s[k] == x && x !in s[..k]
    ensures FirstIndex(s, x) == k
  {
    var i := FirstIndex(s, x);
    assert forall j | 0 <= j < k :: s[..k][j] == s[j];
    assert forall j | 0 <= j < i :: s[..i][j] == s[j];
  }

  /** The de-duplicated list keeps the order in which values first appear. */
  lemma {:induction false} DedupKeepsFirstOccurrenceOrder(s: seq<string>)
    ensures forall i, j :: 0 <= i < j < |Dedup(s)| ==> FirstIndex(s, Dedup(s)[i]) < FirstIndex(s, Dedup(s)[j])
  {
    if s != [] {
      var init := s[..|s| - 1];
      var last := s[|s| - 1];
      assert s == init + [last];
      DedupKeepsFirstOccurrenceOrder(init);
      var d := Dedup(init);
      forall y | y in init ensures FirstIndex(s, y) == FirstIndex(init, y) {
        var k := FirstIndex(init, y);
        assert s[..k] == init[..k];
        FirstIndexUnique(s, y, k);
      }
      if last !in init {
        assert s[..|s| - 1] == init;
        FirstIndexUnique(s, last, |s| - 1);
        var r := Dedup(s);
        assert r == d + [last];
        forall i, j | 0 <= i < j < |r| ensures FirstIndex(s, r[i]) < FirstIndex(s, r[j]) {
          assert r[i] == d[i] && r[i] in init;
          if j < |d| {
            assert r[j] == d[j] && r[j] in init;
          } else {
            assert r[j] == last;
          }
        }
      }
    }
  }

  /** The address list `handleAdd` computes from the text box. */
  function ParseEmails(input: string): (r: seq<string>)
    ensures forall e :: e in r <==> e in Split(input) && LooksLikeEmail(e)
    ensures forall e :: e in r ==> NoSeparators(e)
    ensures forall i, j :: 0 <= i < j < |r| ==> r[i] != r[j]
  {
    var tokens := Split(input);
    TrimsNothing(tokens);
    Dedup(Filter(TrimAll(tokens), LooksLikeEmail))
  }

  /** Each address is already trimmed. */
  lemma ParsedAreTrimmed(input: string, e: string)
    requires e in ParseEmails(input)
    ensures Trim(e) == e && LooksLikeEmail(e)
  {
  }

  /** The pieces of a split have no spaces, so trimming them changes nothing. */
  lemma TrimsNothing(tokens: seq<string>)
    requires forall t :: t in tokens ==> NoSeparators(t)
    ensures TrimAll(tokens) == tokens
  {
    forall i | 0 <= i < |tokens| ensures Trim(tokens[i]) == tokens[i] {
      assert tokens[i] in tokens;
    }
  }

  /** The address-like pieces of the text, repeats included. */
  function Candidates(input: string): (r: seq<string>)
    ensures forall e :: e in r <==> e in Split(input) && LooksLikeEmail(e)
  {
    Filter(Split(input), LooksLikeEmail)
  }

  /** Addresses are listed in the order in which they first appear among
      the address-like pieces of the text. */
  lemma ParseEmailsOrder(input: string)
    ensures var c := Candidates(input); var r := ParseEmails(input);
      && (forall e :: e in r ==> e in c)
      && forall i, j :: 0 <= i < j < |r| ==> FirstIndex(c, r[i]) < FirstIndex(c, r[j])
  {
    var c := Candidates(input);
    var r := ParseEmails(input);
    ParseEmailsUntrimmed(input);
    DedupKeepsFirstOccurrenceOrder(c);
    forall i, j | 0 <= i < j < |r| ensures FirstIndex(c, r[i]) < FirstIndex(c, r[j]) {
      assert r[i] == Dedup(c)[i] && r[j] == Dedup(c)[j];
    }
  }

  lemma ParseEmailsUntrimmed(input: string)
    ensures ParseEmails(input) == Dedup(Candidates(input))
  {
    TrimsNothing(Split(input));
  }

  // ---------------------------------------------------------------------------
  // handleAdd
  // ---------------------------------------------------------------------------

  /** What `handleAdd` does with the text box. */
  datatype AddAction =
    | NothingEntered
    | NoValidEmails
    | AddSingle(email: string)
    | AddBatch(emails: seq<string>)

  function HandleAdd(input: string): (r: AddAction)
    ensures r == NothingEntered <==> input == ""
    ensures r == NoValidEmails <==> input != "" && ParseEmails(input) == []
    ensures r.AddSingle? <==> input != "" && |ParseEmails(input)| == 1
    ensures r.AddSingle? ==> r.email == ParseEmails(input)[0]
    ensures r.AddBatch? ==> |r.emails| >= 2 && r.emails == ParseEmails(input)
  {
    if input == "" then NothingEntered
    else
      var emails := ParseEmails(input);
      if |emails| == 0 then NoValidEmails
      else if |emails| == 1 then AddSingle(emails[0])
      else AddBatch(emails)
  }

  // ---------------------------------------------------------------------------
  // File pickers
  // ---------------------------------------------------------------------------

  const ImageLimit: nat := 2 * 1024 * 1024
  const CampaignFileLimit: nat := 5 * 1024 * 1024

  /** A campaign file is kept unless it is over 5 MiB. */
  predicate CampaignFileFits(f: LocalFile) {
    f.size <= CampaignFileLimit
  }

  predicate CampaignFileTooLarge(f: LocalFile) {
    f.size > CampaignFileLimit
  }

  function CampaignAccepted(files: seq<LocalFile>): seq<LocalFile> {
    Filter(files, CampaignFileFits)
  }

  function CampaignSkipped(files: seq<LocalFile>): seq<LocalFile> {
    Filter(files, CampaignFileTooLarge)
  }

  /** The size checks of the pickers agree with the upload limits, so a
      file the form keeps is never refused by the upload for its size. */
  lemma PickerLimitsMatchUpload(f: LocalFile)
    ensures CampaignFileFits(f) <==> WithinLimit(f, Campaign)
    ensures f.size <= ImageLimit <==> WithinLimit(f, Profile)
  {
  }

  /** One more file either joins the kept files or the skipped ones. */
  lemma CampaignStep(files: seq<LocalFile>, i: nat)
    requires i < |files|
    ensures CampaignAccepted(files[..i + 1]) ==
      CampaignAccepted(files[..i]) + (if CampaignFileFits(files[i]) then [files[i]] else [])
    ensures CampaignSkipped(files[..i + 1]) ==
      CampaignSkipped(files[..i]) + (if CampaignFileTooLarge(files[i]) then [files[i]] else [])
  {
    assert files[..i + 1] == files[..i] + [files[i]];
    FilterAppend(files[..i], [files[i]], CampaignFileFits);
    FilterAppend(files[..i], [files[i]], CampaignFileTooLarge);
    FilterSingleton(files[i], CampaignFileFits);
    FilterSingleton(files[i], CampaignFileTooLarge);
  }

  /** The `forEach` of `handleFileSelect`: files over 5 MiB are skipped, the
      others kept in their order. */
  method FilterCampaignFiles(files: seq<LocalFile>) returns (valid: seq<LocalFile>, skipped: seq<LocalFile>)
    ensures valid == CampaignAccepted(files)
    ensures skipped == CampaignSkipped(files)
    ensures forall f :: f in valid ==> WithinLimit(f, Campaign)
    ensures |valid| + |skipped| == |files|
  {
    valid := [];
    skipped := [];
    for i := 0 to |files|
      invariant valid == CampaignAccepted(files[..i])
      invariant skipped == CampaignSkipped(files[..i])
    {
      CampaignStep(files, i);
      if files[i].size > CampaignFileLimit {
        skipped := skipped + [files[i]];
      } else {
        valid := valid + [files[i]];
      }
    }
    assert files[..|files|] == files;
    CampaignPartition(files);
  }

  /** Every selected file ends up in exactly one of the two lists, and the
      kept ones are all within the campaign upload limit. */
  lemma {:induction false} CampaignPartition(files: seq<LocalFile>)
    ensures |CampaignAccepted(files)| + |CampaignSkipped(files)| == |files|
    ensures forall f :: f in CampaignAccepted(files) ==> WithinLimit(f, Campaign)
  {
    if files != [] {
      CampaignPartition(files[1..]);
    }
    forall f | f in CampaignAccepted(files) ensures WithinLimit(f, Campaign) {
      PickerLimitsMatchUpload(f);
    }
  }

  /** A reference to an attachment: a position in the new candidate's list,
      or the id of a file of the candidate being edited. */
  datatype FileRef = AtIndex(index: int) | WithId(id: string)

  /** `files.filter(f => f.id !== id)`. */
  function OtherIds(files: seq<CandidateFile>, id: string): (r: seq<CandidateFile>)
    ensures forall f :: f in r <==> f in files && f.id != id
  {
    Filter(files, (f: CandidateFile) => f.id != id)
  }

  /** What the picker does with a chosen profile image. */
  datatype ImageChoice = ImageTooLarge(message: string) | UploadForEdit(file: LocalFile) | Staged

  /** The state of the candidate form. */
  class CandidateForm {
    var candFiles: seq<LocalFile>
    var profileImage: Option<LocalFile>
    var editing: Option<Candidate>

    constructor ()
      ensures candFiles == [] && profileImage == None && editing == None
    {
      candFiles := [];
      profileImage := None;
      editing := None;
    }

    /** `handleImageSelect`. */
    method SelectImage(file: LocalFile, isEdit: bool) returns (choice: ImageChoice)
      modifies this`profileImage
      ensures file.size > ImageLimit ==>
        choice == ImageTooLarge("Image size must be less than 2MB") && profileImage == old(profileImage)
      ensures file.size <= ImageLimit && isEdit && editing.Some? ==>
        choice == UploadForEdit(file) && profileImage == old(profileImage)
      ensures file.size <= ImageLimit && !(isEdit && editing.Some?) ==>
        choice == Staged && profileImage == Some(file)
    {
      if file.size > ImageLimit {
        return ImageTooLarge("Image size must be less than 2MB");
      }
      if isEdit && editing.Some? {
        return UploadForEdit(file);
      }
      profileImage := Some(file);
      choice := Staged;
    }

    /** The upload of an edited candidate's new image has finished. */
    method ImageUploaded(url: string)
      modifies this`editing
      ensures editing == ImageAttached(old(editing), url)
    {
      if editing.Some? {
        editing := Some(editing.value.(imageUrl := Some(url)));
      }
    }

    /** `handleFileSelect`: returns the files to upload now for the edited
        candidate (none when adding a new one) and the skipped files. */
    method SelectFiles(files: seq<LocalFile>, isEdit: bool) returns (upload: seq<LocalFile>, skipped: seq<LocalFile>)
      modifies this`candFiles
      ensures skipped == CampaignSkipped(files)
      ensures isEdit && editing.Some? ==> upload == CampaignAccepted(files) && candFiles == old(candFiles)
      ensures !(isEdit && editing.Some?) ==> upload == [] && candFiles == old(candFiles) + CampaignAccepted(files)
    {
      var valid;
      valid, skipped := FilterCampaignFiles(files);
      if isEdit && editing.Some? {
        upload := valid;
      } else {
        candFiles := candFiles + valid;
        upload := [];
      }
    }

    /** The uploaded campaign files are appended to the edited candidate. */
    method FilesUploaded(uploaded: seq<CandidateFile>)
      modifies this`editing
      ensures old(editing).None? ==> editing == None
      ensures old(editing).Some? ==>
        editing == Some(old(editing).value.(files := old(editing).value.files + uploaded))
    {
      if editing.Some? {
        editing := Some(editing.value.(files := editing.value.files + uploaded));
      }
    }

    /** `removeFile`. Outside edit mode only the element at the index goes;
        in edit mode the files with the id go. A reference of the other kind
        matches nothing, as a number never equals a string. */
    method RemoveFile(ref: FileRef, isEdit: bool)
      modifies this`candFiles, this`editing
      ensures isEdit && old(editing).Some? ==> candFiles == old(candFiles)
      ensures isEdit && old(editing).Some? && ref.WithId? ==>
        editing == Some(old(editing).value.(files := OtherIds(old(editing).value.files, ref.id)))
      ensures isEdit && old(editing).Some? && ref.AtIndex? ==> editing == old(editing)
      ensures !(isEdit && old(editing).Some?) ==> editing == old(editing)
      ensures !(isEdit && old(editing).Some?) && ref.AtIndex? && 0 <= ref.index < |old(candFiles)| ==>
        candFiles == old(candFiles)[..ref.index] + old(candFiles)[ref.index + 1..]
      ensures !(isEdit && old(editing).Some?) && !(ref.AtIndex? && 0 <= ref.index < |old(candFiles)|) ==>
        candFiles == old(candFiles)
    {
      if isEdit && editing.Some? {
        if ref.WithId? {
          var kept := WithoutId(editing.value.files, ref.id);
          editing := Some(editing.value.(files := kept));
        }
      } else if ref.AtIndex? {
        candFiles := WithoutIndex(candFiles, ref.index);
      }
    }
  }

  /** `files.filter(f => f.id !== id)` as the loop it runs. */
  method WithoutId(files: seq<CandidateFile>, id: string) returns (kept: seq<CandidateFile>)
    ensures kept == OtherIds(files, id)
  {
    var keep := (f: CandidateFile) => f.id != id;
    kept := [];
    for k := 0 to |files|
      invariant kept == Filter(files[..k], keep)
    {
      assert files[..k + 1] == files[..k] + [files[k]];
      FilterAppend(files[..k], [files[k]], keep);
      FilterSingleton(files[k], keep);
      if files[k].id != id {
        kept := kept + [files[k]];
      }
    }
    assert files[..|files|] == files;
  }

  /** `files.filter((_, i) => i !== index)` as the loop it runs: the element
      at the index is dropped, and an index outside the list drops nothing. */
  method WithoutIndex(files: seq<LocalFile>, index: int) returns (kept: seq<LocalFile>)
    ensures 0 <= index < |files| ==> kept == files[..index] + files[index + 1..]
    ensures !(0 <= index < |files|) ==> kept == files
  {
    kept := [];
    for k := 0 to |files|
      invariant 0 <= index < k ==> kept == files[..index] + files[index + 1..k]
      invariant !(0 <= index < k) ==> kept == files[..k]
    {
      if index != k {
        kept := kept + [files[k]];
      }
    }
    assert files[..|files|] == files;
  }

  /** Removing by index keeps every other file, in order. */
  lemma RemoveAtKeepsOthers(s: seq<LocalFile>, i: int)
    requires 0 <= i < |s|
    ensures var r := s[..i] + s[i + 1..];
      && |r| == |s| - 1
      && (forall k :: 0 <= k < i ==> r[k] == s[k])
      && (forall k :: i <= k < |r| ==> r[k] == s[k + 1])
      && multiset(r) + multiset{s[i]} == multiset(s)
  {
    assert s == s[..i] + [s[i]] + s[i + 1..];
  }

  // ---------------------------------------------------------------------------
  // The edited candidate's new image
  // ---------------------------------------------------------------------------

  /** As written: when the upload finishes, the form is set to the candidate
      as it was when the image was picked, with the new URL. */
  function ImageAttachedAsWritten(captured: Candidate, current: Option<Candidate>, url: string)
    : (r: Option<Candidate>)
    ensures r == Some(captured.(imageUrl := Some(url)))
  {
    Some(captured.(imageUrl := Some(url)))
  }

  /** Edits typed while the image uploads are lost, and a form closed in the
      meantime opens again. */
  lemma ImageAttachedAsWrittenLosesEdits()
    ensures var picked := Candidate("c1", "e1", "p1", "Ann", "", None, "", [], None);
      var typed := picked.(fullName := "Anne");
      && ImageAttachedAsWritten(picked, Some(typed), "u").value.fullName != typed.fullName
      && ImageAttachedAsWritten(picked, None, "u").Some?
  {
  }

  /** The intended update: the URL is set on the candidate being edited now,
      if any, and nothing else changes. */
  function ImageAttached(current: Option<Candidate>, url: string): (r: Option<Candidate>)
    ensures r.None? <==> current.None?
    ensures r.Some? ==> r.value.imageUrl == Some(url) && r.value.(imageUrl := current.value.imageUrl) == current.value
  {
    match current
    case None => None
    case Some(c) => Some(c.(imageUrl := Some(url)))
  }

  // ---------------------------------------------------------------------------
  // Results tab
  // ---------------------------------------------------------------------------

  /** The analytics are hidden until voting starts. */
  predicate AnalyticsShown(status: ElectionStatus) {
    !(status == NOT_STARTED || status == CAMPAIGN)
  }

  /** The analytics tab: the notice before voting starts, otherwise one card
      of bars per position, in the positions' order. Winners can only be
      marked on a tab that is shown. */
  function AnalyticsView(status: ElectionStatus, positions: seq<Position>, results: seq<Candidate>)
    : (r: Option<seq<seq<Results.Bar>>>)
    ensures r.None? <==> !AnalyticsShown(status)
    ensures r.Some? ==> |r.value| == |positions|
    ensures r.Some? ==>
      forall i :: 0 <= i < |positions| ==> r.value[i] == AdminBars(status, results, positions[i].id)
    ensures Results.AdminHighlights(status) ==> r.Some?
  {
    if !AnalyticsShown(status) then None
    else Some(seq(|positions|, i requires 0 <= i < |positions| => AdminBars(status, results, positions[i].id)))
  }

  predicate NotVoted(w: WhitelistEntry) {
    !w.hasVoted
  }

  /** `w.filter(x => !x.hasVoted)`. */
  function NonVoters(wl: seq<WhitelistEntry>): (r: seq<WhitelistEntry>)
    ensures forall w :: w in r <==> w in wl && !w.hasVoted
    ensures forall w :: multiset(r)[w] == if w.hasVoted then 0 else multiset(wl)[w]
  {
    FilterCount(wl, NotVoted);
    Filter(wl, NotVoted)
  }

  /** The bars of one position on the analytics tab. */
  function AdminBars(status: ElectionStatus, results: seq<Candidate>, posId: string): (r: seq<Results.Bar>)
    ensures |r| == |Results.PositionResults(results, posId)|
    ensures forall i :: 0 <= i < |r| ==> r[i].percent <= 100
    ensures forall i :: 0 <= i < |r| && r[i].winner ==> Results.AdminHighlights(status)
    ensures Results.AdminHighlights(status) && r != [] ==> r[0].winner
  {
    Results.Bars(results, posId, Results.AdminHighlights(status))
  }

  /** One row of the report table. */
  datatype ReportRow = ReportRow(name: string, votes: Option<nat>, percent: nat, winner: bool)

  /** The report rows of a ranked position: percentages are 0 when nobody
      voted, and WINNER marks the first row only, and only if it has votes. */
  function ReportRowsOf(ranked: seq<Candidate>): (r: seq<ReportRow>)
    ensures |r| == |ranked|
    ensures forall i :: 0 <= i < |r| ==> r[i].name == ranked[i].fullName && r[i].percent <= 100
    ensures forall i :: 0 <= i < |r| && r[i].winner ==> i == 0
    ensures r != [] ==> (r[0].winner <==> Results.Votes(ranked[0]) > 0)
  {
    var total := Results.Sum(ranked);
    Results.BarsInRange(ranked);
    seq(|ranked|, i requires 0 <= i < |ranked| => ReportRowOf(ranked[i], i, total))
  }

  function ReportRowOf(c: Candidate, i: nat, total: nat): (r: ReportRow)
    requires Results.Votes(c) <= Results.Denominator(total)
    ensures r.name == c.fullName && r.percent <= 100
    ensures r.winner <==> i == 0 && Results.Votes(c) > 0
  {
    ReportRow(c.fullName, c.voteCount,
              if total > 0 then Results.Percent(Results.Votes(c), total) else 0,
              i == 0 && c.voteCount.Some? && c.voteCount.value > 0)
  }

  function ReportRows(results: seq<Candidate>, posId: string): seq<ReportRow> {
    ReportRowsOf(Results.PositionResults(results, posId))
  }

  /** The report and the screen name the same winner once voting is over,
      except that the screen also marks a leader with no votes. */
  lemma ReportAgreesWithScreen(status: ElectionStatus, results: seq<Candidate>, posId: string)
    requires Results.AdminHighlights(status)
    ensures var bars := AdminBars(status, results, posId);
      var rows := ReportRows(results, posId);
      && (rows != [] && rows[0].winner ==> bars[0].winner && bars[0].candidate.fullName == rows[0].name)
      && (rows != [] && Results.Sum(Results.PositionResults(results, posId)) == 0 ==>
            bars[0].winner && !rows[0].winner)
  {
    var ranked := Results.PositionResults(results, posId);
    if ranked != [] && Results.Sum(ranked) == 0 {
      assert Results.Votes(ranked[0]) == 0 by {
        Results.VotesAtMostSum(ranked, ranked[0]);
      }
    }
  }
}
