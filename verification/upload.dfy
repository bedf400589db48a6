/** Direct upload of a file to the storage script: a size limit that depends
    on the upload category, checked before anything else, then the file's
    data URL with its "data:<type>;base64," header removed (section 3 of
    RFC 2397), then the remote call whose reply is the file's URL. */
module Upload {
  import opened Types

  /** A file picked in the browser: its name, size in bytes and MIME type. */
  datatype LocalFile = LocalFile(name: string, size: nat, mimeType: string)

  const MiB: nat := 1024 * 1024

  /** `maxSizeMB`: 2 for profile images, 5 for campaign files. */
  function MaxSizeMB(category: Category): nat {
    if category == Profile then 2 else 5
  }

  function LimitBytes(category: Category): nat {
    MaxSizeMB(category) * MiB
  }

  /** `File too large. Max allowed: ${maxSizeMB} MB`. */
  function TooLargeMessage(category: Category): string {
    if category == Profile then "File too large. Max allowed: 2 MB"
    else "File too large. Max allowed: 5 MB"
  }

  /** The size check: a file is refused only when strictly larger than the
      category's limit. */
  predicate WithinLimit(file: LocalFile, category: Category) {
    file.size <= LimitBytes(category)
  }

  lemma LimitsByCategory(file: LocalFile)
    ensures WithinLimit(file, Profile) <==> file.size <= 2 * 1024 * 1024
    ensures WithinLimit(file, Campaign) <==> file.size <= 5 * 1024 * 1024
    ensures WithinLimit(file, Profile) ==> WithinLimit(file, Campaign)
  {
  }

  // ---------------------------------------------------------------------------
  // Data URLs
  // ---------------------------------------------------------------------------

  /** A data URL as `readAsDataURL` produces it for base64 content. */
  function DataUrl(mimeType: string, payload: string): string {
    "data:" + mimeType + ";base64," + payload
  }

  /** The text of `s` up to its first comma. */
  function UpToComma(s: string): (r: string)
    ensures |r| <= |s| && r == s[..|r|]
    ensures ',' !in r
    ensures |r| == |s| || s[|r|] == ','
  {
    if s == [] || s[0] == ',' then [] else [s[0]] + UpToComma(s[1..])
  }

  /** `result.split(",")[1]`: the piece between the first comma and the next
      one (or the end); `undefined` when there is no comma. */
  function StripDataUrlPrefix(s: string): (r: Option<string>)
    ensures r.None? <==> ',' !in s
    ensures r.Some? ==> ',' !in r.value
  {
    match IndexOf(s, ",", 0)
    case None =>
      assert forall i :: 0 <= i < |s| ==> s[i..i + 1] == [s[i]] && !OccursAt(s, ",", i);
      None
    case Some(i) =>
      assert s[i] == s[i..i + 1][0] == ',';
      Some(UpToComma(s[i + 1..]))
  }

  lemma UpToCommaOfPlain(s: string)
    requires ',' !in s
    ensures UpToComma(s) == s
  {
  }

  /** Stripping the header of a data URL gives back the payload, provided
      the MIME type and the payload contain no comma (base64 text never does). */
  lemma {:induction false} DataUrlRoundTrip(mimeType: string, payload: string)
    requires ',' !in mimeType && ',' !in payload
    ensures StripDataUrlPrefix(DataUrl(mimeType, payload)) == Some(payload)
  {
    var s := DataUrl(mimeType, payload);
    var n := 5 + |mimeType| + 7;
    assert s[n] == ',';
    assert s[n..n + 1] == ",";
    forall j | 0 <= j < n ensures !OccursAt(s, ",", j) {
      if j + 1 <= |s| {
        assert s[j..j + 1][0] == s[j];
        if j < 5 {
          assert s[j] == "data:"[j];
        } else if j < 5 + |mimeType| {
          assert s[j] == mimeType[j - 5];
        } else {
          assert s[j] == ";base64"[j - 5 - |mimeType|];
        }
      }
    }
    assert OccursAt(s, ",", n);
    var found := IndexOf(s, ",", 0);
    assert found.Some? && found.value <= n;
    assert found == Some(n);
    assert s[n + 1..] == payload;
    UpToCommaOfPlain(payload);
  }

  // ---------------------------------------------------------------------------
  // uploadFileToDrive
  // ---------------------------------------------------------------------------

  /** The body of the remote `uploadFile` call. */
  datatype UploadRequest = UploadRequest(base64: Option<string>, mimeType: string, fileName: string,
                                         category: Category)

  /** `uploadFileToDrive(file, category)`. `encode` stands for the browser's
      `readAsDataURL` and `remote` for the storage script's reply (a URL, or
      the failure message). */
  function UploadFileToDrive(file: LocalFile, category: Category, encode: LocalFile -> string,
                             remote: UploadRequest -> Result<string, string>): (r: Result<string, string>)
    ensures !WithinLimit(file, category) ==> r == Err(TooLargeMessage(category))
    ensures WithinLimit(file, category) ==>
      r == remote(UploadRequest(StripDataUrlPrefix(encode(file)), file.mimeType, file.name, category))
  {
    if !WithinLimit(file, category) then Err(TooLargeMessage(category))
    else remote(UploadRequest(StripDataUrlPrefix(encode(file)), file.mimeType, file.name, category))
  }

  /** A file of exactly the limit is accepted and sent; one byte more is
      refused with the category's message. */
  lemma {:induction false} LimitIsInclusive(name: string, mimeType: string, category: Category,
                                            encode: LocalFile -> string,
                                            remote: UploadRequest -> Result<string, string>)
    ensures var atLimit := LocalFile(name, LimitBytes(category), mimeType);
      UploadFileToDrive(atLimit, category, encode, remote) ==
      remote(UploadRequest(StripDataUrlPrefix(encode(atLimit)), mimeType, name, category))
    ensures UploadFileToDrive(LocalFile(name, LimitBytes(category) + 1, mimeType), category, encode, remote) ==
      Err(TooLargeMessage(category))
  {
  }

  /** When the browser hands over a well-formed data URL, the payload sent is
      exactly the file's base64 text. */
  lemma {:induction false} UploadSendsPayload(file: LocalFile, category: Category, payload: string,
                                              remote: UploadRequest -> Result<string, string>)
    requires WithinLimit(file, category)
    requires ',' !in file.mimeType && ',' !in payload
    ensures UploadFileToDrive(file, category, (f: LocalFile) => DataUrl(f.mimeType, payload), remote) ==
      remote(UploadRequest(Some(payload), file.mimeType, file.name, category))
  {
    DataUrlRoundTrip(file.mimeType, payload);
  }
}
