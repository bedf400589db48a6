# UniVote election platform: a verified model of its core rules

UniVote is a web application for university elections. A master account
creates admins. An admin creates elections, positions and candidates and
whitelists voter e-mail addresses. Whitelisted voters register, vote once
per election and see the results once the admin announces them.

This project models the platform's sequential core in Dafny and proves
properties of that model:

- **Client response cache** (`ResponseCache`, `cache.dfy`).
  - A key→entry map with lazy TTL expiry, overwrite-on-set and prefix invalidation.
  - An in-flight table that lets one request per key be pending.
- **API gateway** (`Gateway`, `gateway.dfy`) and **URL rewriting** (`DriveUrl`, `driveurl.dfy`).
  - `callApi`'s cache key, cache hit/miss and write-on-success rules.
  - The prefixes each mutation invalidates.
  - The list readers.
  - Rewriting storage-provider image links to thumbnail links.
- **REST server guards** (`Server`, `server.dfy`).
  - The token middleware, the admin login decision and voter registration.
  - The whitelist ownership check, the results access check and the vote handler.
  - The handlers work over a `Backend` class holding the accounts, elections, whitelist and vote tables.
- **Results** (`Results`, `results.dfy`).
  - The per-position ranking that both the admin and the voter pages compute.
  - The stable sort by votes, the vote total, rounded percentages and the winner.
- **Admin election page** (`AdminControl`, `admin.dfy`).
  - Bulk e-mail parsing and its dispatch.
  - The image and file size filters, and attachment removal.
  - The analytics tab and the report table.
- **Voter ballot** (`VoterBallot`, `ballot.dfy`).
  - The selections map and the has-voted flag.
  - The submit condition and the screen priority.
- **Upload validation** (`Upload`, `upload.dfy`).
  - Category size limits and data-URL prefix stripping (section 3 of RFC 2397).
- **Access decisions** (`Access`, `access.dfy`).
  - The portal login admission, the route guard and the session.

Shared entities (roles, statuses, candidates, whitelist rows) and small
string and sequence helpers live in `Types` (`types.dfy`).

Anything the program gets from outside is passed in as a parameter:

- the clock (`now`);
- network replies;
- `jwt.verify` and `bcrypt.compare`/`bcrypt.hash`;
- `JSON.stringify` of a payload (the serialised string is passed in);
- `FileReader.readAsDataURL`.

The voter's `selections` object is passed to the server as the sequence of
its entries, which is what `Object.entries` yields.

Behaviours of the code the proofs make explicit:

- **Registration lookup.** Registration looks up the whitelist row by e-mail alone, not per election. `Server.Register` follows the code.
- **Results route.** The server's results route answers only with a placeholder message once the access checks pass. `Server.ResultsAccess` models the checks.
- **Winner marking.** A position whose candidates all have 0 votes shows a winner on the analytics tab, but the report table marks no winner. `AdminControl.ReportAgreesWithScreen` states both.
- **Master portal.** The master login portal admits an account of any role. Its landing page then redirects an admin or voter home. `Access.AdmittedReachesDashboard` states this.

## Model

| member | source | states |
|---|---|---|
| ResponseCache.Expired | services/appsScriptApi.ts:26 | an entry is stale exactly when its age is strictly greater than its ttl |
| ResponseCache.Read | services/appsScriptApi.ts:23-31 | `get` yields a value iff the key is present and not expired, and then it is the stored data |
| ResponseCache.AfterRead | services/appsScriptApi.ts:24-29 | `get` deletes an expired entry for its key and keeps every other entry unchanged |
| ResponseCache.Store | services/appsScriptApi.ts:33-39 | `set` adds or replaces the key with timestamp `now` and ttl `ttlSeconds*1000`; all other keys unchanged |
| ResponseCache.Invalidated | services/appsScriptApi.ts:41-45 | `invalidate` removes exactly the keys starting with the prefix and leaves the other entries untouched |
| ResponseCache.InvalidatedAllSpec | services/appsScriptApi.ts:224-229 | clearing several prefixes in turn removes exactly the keys starting with any of them |
| ResponseCache.ReadAfterStore | services/appsScriptApi.ts:23-39 | a stored value is read back while its age is within the ttl, and reads as absent afterwards |
| ResponseCache.ReadOtherAfterStore | services/appsScriptApi.ts:33-39 | storing one key does not change what any other key reads |
| ResponseCache.InvalidateIdempotent | services/appsScriptApi.ts:41-45 | invalidating a prefix twice equals invalidating it once |
| ResponseCache.ReadAfterInvalidate | services/appsScriptApi.ts:41-45 | after invalidation a key under the prefix reads as absent and any other key reads as before |
| ResponseCache.PurgeIsUnobservable | services/appsScriptApi.ts:26-28 | the lazy deletion of an expired entry never changes what a read of any key returns |
| ResponseCache.Enter | services/appsScriptApi.ts:47-51 | a key already in flight returns its pending ticket and changes nothing; otherwise a new ticket is started and registered under the key |
| ResponseCache.Leave | services/appsScriptApi.ts:50 | settling removes exactly that key from the in-flight table |
| ResponseCache.ConcurrentCallersShareOneFetch | services/appsScriptApi.ts:47-53 | n+1 callers of one key before it settles start exactly one fetch, and every later caller receives that fetch's ticket |
| ResponseCache.EnterNAfterFirst | services/appsScriptApi.ts:48 | after the first caller, further callers leave the in-flight table unchanged |
| ResponseCache.RetryAfterSettle | services/appsScriptApi.ts:47-53 | after a pending key settles, the next caller starts a new fetch |
| ResponseCache.RequestCache.constructor | services/appsScriptApi.ts:19-21 | both maps start empty |
| ResponseCache.RequestCache.Get | services/appsScriptApi.ts:23-31 | absent key: null and no change; expired: null and that entry deleted; otherwise the data and no change |
| ResponseCache.RequestCache.Set | services/appsScriptApi.ts:33-39 | the cache becomes `Store` of the old cache |
| ResponseCache.RequestCache.Invalidate | services/appsScriptApi.ts:41-45 | the key-scanning loop leaves the cache equal to `Invalidated` of the old cache |
| ResponseCache.RequestCache.BeginFetch | services/appsScriptApi.ts:47-52 | the in-flight table changes as `Enter` says, so an existing pending request is reused |
| ResponseCache.RequestCache.Settle | services/appsScriptApi.ts:50 | the key leaves the in-flight table as `Leave` says |
| Gateway.CacheKeyInjective | services/appsScriptApi.ts:123 | for colon-free action names, equal keys mean equal action and equal serialised payload |
| Gateway.Start | services/appsScriptApi.ts:122-135 | with ttl > 0, a hit iff a fresh, truthy cached value exists, returned without fetching; with ttl = 0 the cache is neither read nor changed; otherwise the in-flight table changes exactly as `fetchDeduped` entry does: a pending request for the key is joined with its ticket, or a fetch is started whose ticket is the old counter, all other pending entries kept |
| Gateway.Finish | services/appsScriptApi.ts:135-156 | an HTTP failure or `success:false` becomes an error and writes nothing; success returns the data and caches it only when ttl > 0; the key always leaves the in-flight table |
| Gateway.NoTtlNoCache | services/appsScriptApi.ts:126-149 | a call with ttl 0 leaves the response cache unchanged from start to finish |
| Gateway.SecondCallHits | services/appsScriptApi.ts:126-149 | a successful cached call repeated within its ttl is a hit on the same data |
| Gateway.FalsyCachedIsMiss | services/appsScriptApi.ts:127-128 | a falsy cached value never short-circuits the call |
| Gateway.CallStart | services/appsScriptApi.ts:122-135 | the call over the shared cache object takes exactly the step and state change `Start` describes |
| Gateway.CallFinish | services/appsScriptApi.ts:136-156 | the completion over the shared cache object takes exactly the result and state change `Finish` describes |
| Gateway.MutateCache | services/appsScriptApi.ts:164-343 | each mutation other than a vote removes exactly the keys under its prefixes, whatever the outcome; a vote removes them only after a successful call |
| Gateway.Mutate | services/appsScriptApi.ts:164-343 | a mutation attaches to a pending identical call iff one is in flight, taking its ticket and leaving the table alone; otherwise it runs its own call, which leaves the pending table as it was and advances the counter once, and succeeds iff the reply is a successful envelope |
| Gateway.ActionOf | services/appsScriptApi.ts:164-343 | the backend action each mutation method calls; no action name is empty or contains a colon |
| Gateway.Clears | services/appsScriptApi.ts:164-343 | the prefixes each mutation method invalidates, in order; every mutation clears at least one, and no prefix is empty, so no mutation empties the whole cache |
| Gateway.ClearsAfterSuccess | services/appsScriptApi.ts:336-341 | the vote is the only mutation that invalidates after its call, and so only when the call succeeded |
| Gateway.ClearedKeysMiss | services/appsScriptApi.ts:164-343 | after a mutation no key under one of its cleared prefixes can be read |
| Gateway.CreateElectionRefreshesLists | services/appsScriptApi.ts:206-209 | after creating an election every cached `getElections` reply is gone |
| Gateway.BundlePrefixExact | services/appsScriptApi.ts:216 | the bundle-key prefix of one election matches the bundle key of another election iff the ids are equal |
| Gateway.StatusChangeClearsOwnBundleOnly | services/appsScriptApi.ts:214-218 | a status change drops the election lists and that election's bundle, and keeps every other election's bundle |
| Gateway.VoteClearsOnlyOnSuccess | services/appsScriptApi.ts:337-343 | a failed vote keeps cached results; a successful one removes them |
| Gateway.ApplyInvalidations | services/appsScriptApi.ts:224-228 | a run of `invalidate` calls leaves `InvalidatedAll` of the old cache and leaves the in-flight table alone |
| Gateway.RunMutation | services/appsScriptApi.ts:164-343 | a mutation method over the shared cache behaves exactly as `Mutate` describes |
| Gateway.CandidateList | services/appsScriptApi.ts:246-249 | a non-array reply gives `[]`; an array gives each candidate with its image URL rewritten |
| Gateway.ListOrEmpty | services/appsScriptApi.ts:188-191 | a non-array reply gives `[]`; an array is returned as is |
| Gateway.CandidateListStable | services/appsScriptApi.ts:193-198 | rewriting an already rewritten candidate list changes nothing |
| Gateway.UploadedUrl | services/appsScriptApi.ts:267-281 | a profile image URL is rewritten; a campaign file URL is returned unchanged |
| DriveUrl.IdRun | services/appsScriptApi.ts:90-91 | the greedy group captures the longest prefix of id characters |
| DriveUrl.FirstMatch | services/appsScriptApi.ts:90-91 | the regex matches at the leftmost position where it can |
| DriveUrl.CaptureId | services/appsScriptApi.ts:90-94 | a captured id is non-empty and made of `[a-zA-Z0-9_-]` |
| DriveUrl.FixDriveUrl | services/appsScriptApi.ts:82-102 | a missing or empty URL gives the placeholder; a URL without "google.com" is returned as is; otherwise the result is the URL or a thumbnail link |
| DriveUrl.FixDriveUrlProviderCases | services/appsScriptApi.ts:89-101 | a `/d/<id>` match wins over `id=<id>`; a found id gives the thumbnail link; no match returns the URL unchanged |
| DriveUrl.ThumbnailRecognised | services/appsScriptApi.ts:98 | the thumbnail link contains "google.com", has no `/d/` match, and its first `id=` match is the id |
| DriveUrl.FixDriveUrlIdempotent | services/appsScriptApi.ts:82-102 | rewriting a rewritten URL changes nothing |
| DriveUrl.ProcessCandidate | services/appsScriptApi.ts:104-107 | only `imageUrl` changes, and it becomes the rewritten URL |
| DriveUrl.ProcessCandidateIdempotent | services/appsScriptApi.ts:104-107 | processing a candidate twice equals processing it once |
| Server.NewWhitelistRecord | server/models.js:46-54 | a new whitelist row is neither registered nor voted |
| Server.Authenticate | server/routes.js:8-19 | a missing token gives 401; a token that fails verification gives 400; a role outside the list gives 403; otherwise it continues with the verified claims |
| Server.TokenOf | server/routes.js:9 | no header gives no token; a "Bearer <token>" header gives the text after the scheme word; a header without it is taken as the token itself |
| Server.FindAccount | server/routes.js:28 | the account found is the first one with the e-mail; none is found only when no account has it |
| Server.AdminLogin | server/routes.js:22-35 | `admin`/`admin` yields a master session without a lookup; otherwise a session is opened iff the looked-up account exists, is active and its hash matches the password, and it is a session for that account; "Invalid" in every other case |
| Server.FindByEmail | server/routes.js:39 | the first whitelist row with the e-mail, in any election |
| Server.FindEntry | server/routes.js:114 | the first row matching both e-mail and election, or none when no row matches |
| Server.FindEntryStable | server/routes.js:114 | changing fields other than e-mail and election, or appending rows, does not change which row is found |
| Server.FindElection | server/routes.js:99 | the election found has the id; none only when no election has it |
| Server.Register | server/routes.js:37-51 | no row gives "Not authorized"; a registered row gives "Already registered" with nothing changed; otherwise only that row changes: registered, with the password fields and time set |
| Server.RegisterAtMostOnce | server/routes.js:37-51 | after a successful registration a second one for the same e-mail is refused and changes nothing |
| Server.AddWhitelist | server/routes.js:87-96 | a caller who does not own the election gets 403 and no row; an owner gets exactly one new unregistered, unvoted row appended |
| Server.Owns | server/routes.js:90-91 | the caller owns the election iff a stored election has that id and was created by the caller |
| Server.ResultsAccess | server/routes.js:98-104 | a voter is forbidden unless the election is announced; an admin is forbidden unless they created it |
| Server.BallotRecords | server/routes.js:117-119 | one vote record per selection entry, carrying the election, position, candidate and voter e-mail |
| Server.CastVote | server/routes.js:110-126 | no row or an already-voted row gives "Invalid" and writes nothing; otherwise the ballot's records are appended and only that row is marked voted |
| Server.VotesByAppend | server/routes.js:121 | the votes attributed to a voter add up over appended records |
| Server.VotesByBallot | server/routes.js:117-121 | a ballot attributes exactly one vote per selection to its voter |
| Server.SecondVoteRejected | server/routes.js:114-125 | a second vote by the same voter is refused, and the first ballot increases the votes attributed to them by exactly its size |
| Server.FirstBallotCounted | server/routes.js:114-125 | under the vote invariant, after an accepted first ballot the votes attributed to the voter equal its size, and a second ballot is refused and changes nothing |
| Server.NotVotedMeansNoVotes | server/routes.js:114-125 | under the vote invariant, a voter whose row is not marked has no recorded votes |
| Server.CastVoteKeepsInvariant | server/routes.js:110-126 | the vote handler preserves the invariant that every vote belongs to a whitelisted voter marked as voted |
| Server.RegisterKeepsInvariant | server/routes.js:37-51 | registration preserves the vote invariant |
| Server.AddWhitelistKeepsInvariant | server/routes.js:87-96 | adding a whitelist row preserves the vote invariant |
| Server.Backend.constructor | server/models.js:45-54 | the tables start empty |
| Server.Backend.CreateElection | server/routes.js:70-74 | the election is appended, owned by the caller, with status NOT_STARTED unless one is given |
| Server.Backend.RegisterVoter | server/routes.js:37-51 | the handler over the stored table does what `Register` says and keeps the vote invariant |
| Server.Backend.AddToWhitelist | server/routes.js:87-96 | the handler over the stored table does what `AddWhitelist` says and keeps the vote invariant |
| Server.Backend.Vote | server/routes.js:110-126 | the handler over the stored tables does what `CastVote` says and keeps the vote invariant |
| Server.Backend.Login | server/routes.js:22-35 | the login route over the stored accounts is `AdminLogin`, and a session is only ever opened for a stored, active account |
| Server.Backend.Results | server/routes.js:98-104 | the results route over the stored elections is `ResultsAccess`, and an admin it lets in owns the election |
| Results.ForPosition | pages/admin/ElectionControl.tsx:512 | exactly the candidates of the position |
| Results.Insert | pages/admin/ElectionControl.tsx:512 | inserting keeps every element and adds one |
| Results.InsertSorted | pages/admin/ElectionControl.tsx:512 | inserting into a non-increasing list keeps it non-increasing |
| Results.Ranked | pages/admin/ElectionControl.tsx:512 | the sort is a permutation of its input, non-increasing by votes |
| Results.RankedKeepsTiers | pages/admin/ElectionControl.tsx:512 | the sort is stable: candidates with equal votes keep their input order |
| Results.TierHead | pages/admin/ElectionControl.tsx:512 | the first candidate with k votes in a list comes before every other candidate with k votes |
| Results.PositionResults | pages/admin/ElectionControl.tsx:453-512 | each position's list has exactly that position's candidates, with multiplicity, sorted non-increasing by votes |
| Results.RankedHeadIsMax | pages/admin/ElectionControl.tsx:512 | no candidate of the position has more votes than the first of the ranking |
| Results.WinnerIsFirstTopScorer | pages/admin/ElectionControl.tsx:514 | the winner has the most votes and is the first such candidate in the input |
| Results.SumRanked | pages/admin/ElectionControl.tsx:513 | ranking does not change the vote total |
| Results.VotesAtMostSum | pages/admin/ElectionControl.tsx:513 | no candidate has more votes than the total |
| Results.Denominator | pages/admin/ElectionControl.tsx:513 | the denominator is the total, or 1 when the total is 0 |
| Results.Percent | pages/admin/ElectionControl.tsx:521 | the integer nearest to 100v/t, halves up, and at most 100 when v ≤ t |
| Results.Bars | pages/admin/ElectionControl.tsx:511-522 | one bar per ranked candidate, in rank order; each percentage ≤ 100; when winners are marked, the first bar is marked and only bars with its id are |
| Results.BarsUsePositionTotal | pages/admin/ElectionControl.tsx:513-521 | every percentage uses the position's whole vote total |
| Upload.LimitsByCategory | services/upload.ts:26-27 | the limit is 2 MiB for profile images and 5 MiB for campaign files |
| Upload.MaxSizeMB | services/upload.ts:26 | 2 for profile images, 5 for campaign files |
| Upload.WithinLimit | services/upload.ts:27 | a file passes unless its size is strictly over the category's limit in bytes |
| Upload.TooLargeMessage | services/upload.ts:28 | the error text names the category's limit in MB |
| Upload.UpToComma | services/upload.ts:12 | the text before the first comma, with no comma in it |
| Upload.StripDataUrlPrefix | services/upload.ts:12 | there is no result iff the text has no comma; a result has no comma |
| Upload.DataUrlRoundTrip | services/upload.ts:11-12 | stripping the header of `data:<type>;base64,<payload>` gives back the payload |
| Upload.UploadFileToDrive | services/upload.ts:21-41 | a file strictly over its limit fails with "File too large. Max allowed: N MB" before any remote call; otherwise the remote reply is returned unchanged |
| Upload.LimitIsInclusive | services/upload.ts:27 | a file of exactly the limit is sent; one byte more is refused |
| Upload.UploadSendsPayload | services/upload.ts:4-38 | for a well-formed data URL the payload sent is exactly the file's base64 text |
| AdminControl.TokenRun | pages/admin/ElectionControl.tsx:304 | the longest separator-free prefix |
| AdminControl.Split | pages/admin/ElectionControl.tsx:304 | at least one piece; no piece contains a separator; inner pieces are non-empty |
| AdminControl.SplitKeepsText | pages/admin/ElectionControl.tsx:304 | the pieces joined back are the input with its separators removed |
| AdminControl.Trim | pages/admin/ElectionControl.tsx:306 | a slice of the input with no whitespace at either end, and the input itself when it has none |
| AdminControl.Dedup | pages/admin/ElectionControl.tsx:309 | the same values, each once |
| AdminControl.DedupKeepsFirstOccurrenceOrder | pages/admin/ElectionControl.tsx:309 | values keep the order of their first occurrence |
| AdminControl.ParseEmails | pages/admin/ElectionControl.tsx:304-309 | exactly the split pieces that are non-empty and contain '@', without separators and without duplicates |
| AdminControl.ParsedAreTrimmed | pages/admin/ElectionControl.tsx:306-307 | every parsed address is trimmed and looks like an e-mail |
| AdminControl.ParseEmailsOrder | pages/admin/ElectionControl.tsx:304-309 | addresses appear in the order of their first occurrence in the text |
| AdminControl.ParseEmailsUntrimmed | pages/admin/ElectionControl.tsx:304-309 | the trim step never changes a piece, so the result is the de-duplicated address-like pieces |
| AdminControl.HandleAdd | pages/admin/ElectionControl.tsx:299-332 | empty input does nothing; no valid address gives the error; one address uses the single add; two or more use the batch add with the parsed list |
| AdminControl.PickerLimitsMatchUpload | pages/admin/ElectionControl.tsx:60-80 | the pickers' size checks agree with the upload limits |
| AdminControl.FilterCampaignFiles | pages/admin/ElectionControl.tsx:78-82 | the loop keeps exactly the files of at most 5 MiB in order, skips the others, and loses none |
| AdminControl.CampaignPartition | pages/admin/ElectionControl.tsx:78-82 | every selected file lands in exactly one of the kept and skipped lists, and every kept file is within the campaign upload limit |
| AdminControl.OtherIds | pages/admin/ElectionControl.tsx:98 | exactly the files whose id differs |
| AdminControl.CandidateForm.constructor | pages/admin/ElectionControl.tsx:57-73 | the form starts without files, image or edited candidate |
| AdminControl.CandidateForm.SelectImage | pages/admin/ElectionControl.tsx:57-73 | an image over 2 MiB is refused with "Image size must be less than 2MB"; in edit mode it is uploaded; otherwise it is staged |
| AdminControl.CandidateForm.ImageUploaded | pages/admin/ElectionControl.tsx:63-64 | the URL is set on the candidate being edited now (the corrected update) |
| AdminControl.CandidateForm.SelectFiles | pages/admin/ElectionControl.tsx:75-94 | oversized files are skipped; in edit mode the rest are uploaded; otherwise they are appended to the staged files |
| AdminControl.CandidateForm.FilesUploaded | pages/admin/ElectionControl.tsx:85-86 | uploaded files are appended to the edited candidate, if any |
| AdminControl.CandidateForm.RemoveFile | pages/admin/ElectionControl.tsx:96-101 | in edit mode the attachments with that id go; otherwise only the staged file at that index goes; everything else is kept |
| AdminControl.WithoutId | pages/admin/ElectionControl.tsx:98 | the filtering loop computes `OtherIds` |
| AdminControl.WithoutIndex | pages/admin/ElectionControl.tsx:100 | the filtering loop removes the element at a valid index and changes nothing otherwise |
| AdminControl.RemoveAtKeepsOthers | pages/admin/ElectionControl.tsx:100 | removal by index keeps every other file, in order |
| AdminControl.ImageAttachedAsWritten | pages/admin/ElectionControl.tsx:64 | as written: the form becomes the candidate captured when the image was chosen, plus the URL |
| AdminControl.ImageAttachedAsWrittenLosesEdits | pages/admin/ElectionControl.tsx:61-65 | a name edited during the upload is lost, and a form closed during the upload reopens |
| AdminControl.ImageAttached | pages/admin/ElectionControl.tsx:64-86 | corrected: only the current candidate's image URL changes, and a closed form stays closed |
| AdminControl.NonVoters | pages/admin/ElectionControl.tsx:415 | exactly the whitelist rows that have not voted, with multiplicity |
| AdminControl.AnalyticsShown | pages/admin/ElectionControl.tsx:472-479 | the analytics tab is hidden exactly while the election is NOT_STARTED or in CAMPAIGN |
| AdminControl.AnalyticsView | pages/admin/ElectionControl.tsx:472-531 | the notice iff the tab is hidden; otherwise one card per position, each equal to `AdminBars` for that position; whenever winners are marked the tab is shown |
| AdminControl.AdminBars | pages/admin/ElectionControl.tsx:511-522 | the winner is marked only when the status is COMPLETED or ANNOUNCED, and then it is the first bar |
| AdminControl.ReportRowsOf | pages/admin/ElectionControl.tsx:453-455 | one row per ranked candidate; only row 0 can say WINNER, and it does iff its vote count is above 0 |
| AdminControl.ReportRowOf | pages/admin/ElectionControl.tsx:455 | a row's percentage is at most 100, and it is a winner iff it is row 0 with votes |
| AdminControl.ReportAgreesWithScreen | pages/admin/ElectionControl.tsx:455-522 | a report winner is the screen's winner; with no votes at all the screen marks a winner and the report does not |
| VoterBallot.Toggle | pages/voter/ElectionView.tsx:44-48 | selections are unchanged unless the election is LIVE and not yet voted; then the position gets the candidate and other positions are unchanged |
| VoterBallot.CanChoose | pages/voter/ElectionView.tsx:46 | a click may change the ballot only while the election is LIVE and the voter has not voted |
| VoterBallot.ToggleReplaces | pages/voter/ElectionView.tsx:47 | a later choice for a position replaces the earlier one |
| VoterBallot.ScreenFor | pages/voter/ElectionView.tsx:60-158 | loading until the election arrives; then ANNOUNCED shows results, else voted shows the confirmation, else neither LIVE nor CAMPAIGN shows "closed", else the ballot |
| VoterBallot.AllSelected | pages/voter/ElectionView.tsx:65 | there is at least one position and every position has a non-empty choice |
| VoterBallot.SubmitEnabled | pages/voter/ElectionView.tsx:240-249 | the submit button is usable only on an open ballot with every position chosen |
| VoterBallot.SubmitBallotShown | pages/voter/ElectionView.tsx:240-249 | whenever submit is enabled the ballot screen is shown |
| VoterBallot.Step | pages/voter/ElectionView.tsx:44-58 | a click never changes the status or the voted flag; a reply sets the flag iff it was accepted |
| VoterBallot.VotedBallotIsFrozen | pages/voter/ElectionView.tsx:46-55 | after an accepted vote, no sequence of clicks or replies changes anything |
| VoterBallot.RejectedBallotStaysOpen | pages/voter/ElectionView.tsx:52-57 | without an accepted reply the ballot stays open |
| VoterBallot.ClickSelects | pages/voter/ElectionView.tsx:47-65 | on an open ballot, a clicked position ends up selected |
| VoterBallot.ClickingEveryPositionEnablesSubmit | pages/voter/ElectionView.tsx:240-249 | on an open ballot, clicking a candidate for every position enables submit |
| VoterBallot.ShownCandidates | pages/voter/ElectionView.tsx:34-40 | candidates come from the results when announced, from the bundle otherwise |
| VoterBallot.VoterBars | pages/voter/ElectionView.tsx:94-109 | the voter's card is sorted non-increasing, percentages ≤ 100, and the first entry is the winner |
| VoterBallot.VoterSeesAdminResults | pages/voter/ElectionView.tsx:94-109 | once announced, a voter sees exactly the bars the admin sees |
| VoterBallot.Ballot.constructor | pages/voter/ElectionView.tsx:16-22 | nothing loaded, no selections, not voted |
| VoterBallot.Ballot.Load | pages/voter/ElectionView.tsx:24-41 | the bundle's election, positions and voted flag are taken, and candidates come from `ShownCandidates` |
| VoterBallot.Ballot.ToggleSelection | pages/voter/ElectionView.tsx:44-48 | selections change as `Toggle` says |
| VoterBallot.Ballot.Submit | pages/voter/ElectionView.tsx:50-58 | without a signed-in user or an election id nothing is sent and nothing changes; otherwise the current selections are sent, an accepted vote sets the voted flag and a failed one leaves it |
| VoterBallot.Ballot.Screen | pages/voter/ElectionView.tsx:240-249 | the ballot is on screen whenever it can be submitted |
| Access.Admit | pages/auth/LoginComponent.tsx:27-44 | a request failure is a network error; no user gives "Invalid credentials"; a non-master portal with another role gives "Invalid role access"; otherwise the user is admitted with the redirect path |
| Access.MasterPortalAdmitsAnyRole | pages/auth/LoginComponent.tsx:30 | the master portal admits an account of any role |
| Access.Guard | App.tsx:55-71 | a spinner while loading; a redirect to "/" without a user or with a role outside the list; the page otherwise |
| Access.Dashboard | App.tsx:87-102 | the landing page of each portal |
| Access.AdmittedReachesDashboard | App.tsx:87-104 | an admitted user passes their portal dashboard's guard iff their role is the portal's, and always on the admin and voter portals |
| Access.Session.constructor | App.tsx:28-29 | no user, loading |
| Access.Session.Restore | App.tsx:31-35 | a stored session becomes the user, and loading ends |
| Access.Session.Login | App.tsx:37-40 | the user becomes the given user |
| Access.Session.Logout | App.tsx:42-45 | the user becomes null |
| Access.Session.SubmitLogin | pages/auth/LoginComponent.tsx:28-40 | an admitted user is signed in; any other outcome leaves the session as it was |

## Left out

- The network. `fetch` and the Apps Script wrapper in `services/gasApi.ts` are represented by the reply values passed to the model.
- Persistence.
  - The database (`findOne`, `save`, `insertMany`) is modelled as in-memory sequences.
  - The browser's `localStorage` is modelled as the optional stored session given to `Session.Restore`.
- `jwt.sign`/`jwt.verify`, `bcrypt.genSalt`/`bcrypt.hash`/`bcrypt.compare` and `FileReader.readAsDataURL` are foreign code and are passed in as functions or values.
- Concurrency.
  - Gateway.Mutate: a mutation that attaches to an identical pending one is modelled up to the moment it attaches. An attached vote also runs the invalidations once the shared call succeeds; that later step is not part of its outcome, so `Gateway.MutateCache`'s "a vote that is not a successful call of its own leaves the cache" describes the moment of attaching only.
  - The promise interleavings of `callApi` are modelled by splitting a call into `CallStart` and `CallFinish` at the network, not by scheduling.
  - A response still in flight can write the cache after an invalidation; that interleaving is not modelled.
  - `pLimit`, `uploadBatch`, `addBatchToWhitelist` and `Promise.all` fan-out are not modelled.
  - Two simultaneous votes that both pass the check in the non-atomic read-then-write are not modelled; the model is sequential.
- The wall clock and randomness: `Date.now` is the `now` parameter, and the random attachment ids built by `uploadBatch` are not modelled.
- Floating point. `Math.round` of a float ratio is modelled as exact integer rounding, halves up.
- Serialisation. `JSON.stringify` is the serialised payload string given by the caller. `Gateway.CacheKeyInjective` assumes action names contain no colon. Bundle keys are built by the model only for election ids that `JSON.stringify` leaves unescaped (`Gateway.Plain`: no quote, backslash or control character); the escaping itself is not modelled.
- Server.Claims: every verified token is given a voter e-mail, which `Server.CastVote` uses to find the voter's row. The tokens the login route signs carry only `id` and `role` (server/routes.js:25, 33), and no route in the server issues voter tokens. So `verify` stands for an issuer whose voter tokens carry the e-mail; with this server's own tokens `req.user.email` is undefined.
- Server.ResultsAccess: models only the access checks. After them the route answers with a fixed placeholder message, and no aggregation exists to model.
- The `selections` object. Its `Object.entries` order is not modelled; the server is given the entries as a sequence.
- The path of a ballot from the voter page to the database. `VoterBallot.Ballot.Submit` returns the selections it sends and takes the request's outcome as a boolean. No member connects that map to `Gateway.Mutate` for the vote or to `Server.CastVote`, which is given the entries as a sequence.
- `JSON.parse` of the stored session is not modelled. `Access.Session.Restore` takes the parsed user.
- The report PDF. Only the rows of the jsPDF report are modelled; layout, paging and the statistics table are not.
- Rendering, toasts, modals, navigation, and the purely presentational pages (`components/ui/*`, `pages/Home.tsx`, `pages/master/MasterDashboard.tsx`, `pages/admin/AdminDashboard.tsx`, `pages/voter/VoterDashboard.tsx`, the login wrappers).
- The election status and date update handlers of the admin page are simple API calls. Only their cache invalidation is modelled, in `Gateway`.
- The admin page's create-candidate flow (`addCand`) is not modelled. Its upload calls are covered by `Upload` and `Gateway.UploadedUrl`.

## Findings

| source | as written | input that shows it | evidently intended | confidence | as-written member | corrected member |
|---|---|---|---|---|---|---|
| pages/admin/ElectionControl.tsx:64 | when a profile image upload for an edited candidate finishes, the form is set to the candidate captured when the file was chosen, plus the new URL | choose an image for "Ann", change the name to "Anne" before the upload finishes: the form reverts to "Ann"; or close the form before the upload finishes: it reopens | attach the URL to the candidate being edited at that moment, as the file-attachment handler at line 86 does with `prev` | medium, not executed | AdminControl.ImageAttachedAsWritten (with AdminControl.ImageAttachedAsWrittenLosesEdits) | AdminControl.ImageAttached |
