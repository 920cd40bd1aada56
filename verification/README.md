# Screencap: what its protocols and controllers guarantee

A Dafny model of the parts of Screencap that are hardest to get right, with
proofs of what they guarantee over every input, every interleaving or every run:

- `Bytes`, `Text`, `ChunkedCoding`, `EventStream`, `HttpServer`, `ResponseHead`:
  HTTP/1.1 over a Unix socket, byte by byte. A request accumulated over partial
  reads, a response pushed out over partial writes, and the client's reading of
  its head, chunked coding (section 7.1 of RFC 9112) and lines.
- `DaemonInstall`: registering, polling, restarting and replacing the daemon,
  driven by a virtual clock and an arbitrary outside world.
- `OneShotGate`: two one-shot gates, on a lock and on an actor, and the abstract
  gate both refine.
- `DayGaps`, `DayClaims`, `CaptionClusters`: what the day strip says about empty
  time, and how its captions avoid overprinting.
- `CloudAuth`, `SignInFlow`, `Checkout`: browser sign-in and hosted checkout with
  callbacks that arrive late.
- `ProviderSelection`, `ProviderFlows`: the two persisted provider slots, what a
  tap or a connect flow writes to them, and what every intermediate state keeps.
- `AuditLog`, `Decommission`, `Entitlement`: the irreversible delete script with
  its audit log, byte by byte, and the resumable entitlement migration.
- `ModelDownload`, `DayPlayback`, `DayPlaybackEngine`, `ClipExport`: polling with
  backoff, seeking across chunks, and an export whose first outcome wins.

Where the source changes state in place the model is a class, or a method with a
loop, proved against a specification function; the properties are lemmas about
that function and about runs of it. Callbacks, replies, clocks, failures and the
order of events are parameters: a lemma holds for all of them. Controllers whose
methods have no loop (sign-in, checkout, export, download, playback) are proved
equal to their step functions method by method; the table lists what is proved
about runs of those steps.

Some expected properties do not hold of the code. In each case the code is kept
as it is, a lemma gives the exact condition under which the property holds, and
where it helps another gives a run that breaks it:

| expected | holds exactly when | lemma |
|---|---|---|
| a cut stream is never a clean end | more than its last two bytes are missing | `ChunkedCoding.DecodeOfCutWire` |
| a peer only ever receives a prefix | failed writes are final | `HttpServer.PrefixExactlyWhenFailuresAreFinal` |
| a chunked answer is accepted as chunked | its last field is another one | `ResponseHead.AnnouncedIsAcceptedExactly` |
| polling-failed means nobody answered | the poll after the kickstart met no wrong version | `DaemonInstall.PollingFailedWasAnsweredOnlyAfterKickstart` |
| the listing order does not matter to a claim | recordings ending last together agree | `DayClaims.OrderMattersExactlyWhenTiesDisagree` |
| a settled checkout is over | its own mint has been answered | `Checkout.SettledIsOverExactly` |
| sign-out leaves nothing to repopulate | no status read, reconcile, portal request or login is under way | `Checkout.SignOutStaysClearedExactly` |
| a tap clears the re-pick prompt | it is not the selected cloud row again | `ProviderSelection.TapLeavesAPromptExactly` |
| what is active is always configured | each operation finds on disk what it relies on | `ProviderFlows.RunIsSafeExactly` |
| live audit lines are never lost | no dry run's preview has the log's name | `Decommission.PreviewOverwritesExactly` |
| every line of the audit log can be read | no run went on after an unfinished line | `Decommission.LogStaysReadableExactly` |
| only the verified generation is deleted | the listing names a generation | `Decommission.PinnedExactly` |
| a backfill never undoes a decision | no legacy page of the account is still to be written, or it granted Cloud | `Entitlement.DecisionSurvivesExactly` |
| a progress bar always moves | no cancel went through while the status still read downloading | `ModelDownload.FrozenBarExactly` |
| a cancelled poll loop stays stopped | no status read, nor a download's call that one follows, was under way | `ModelDownload.CancelSticksExactly` |
| a load shows the new day | there is a moment to seek to, or the old target and clock fit the new day | `DayPlaybackEngine.LoadRefreshesExactly` |
| an export's outcome is its own | no earlier process has still to report, and no earlier watchdog is past its guard | `ClipExport.ForeignProofExactly` |
| auto-advance plays the next chunk | no other chunk is asked for its first frame before it | `DayPlaybackEngine.AutoAdvanceLandsExactly` |

A checkout begun by one account can be settled by another one's report, exactly
by a takeover without a sign-out (`Checkout.SettledByItsStarter`), or by a report
that names nobody; runs show both.

The source's comments promise more than its code in three of these places: the
sign-out comment says late callbacks cannot repopulate what it cleared, which
holds of checkout requests but not of portal requests, a login still under way,
or any read of the account's status; the same comment says a different account
must not settle the old attempt, which the code ensures only when the switch goes
through sign-out; and the cancel comment of the model download says a stopped
loop is not resurrected, which a read already under way does.

## Model

| member | source | states |
|---|---|---|
| `Bytes.ValueOfPrint` | macos/ScreencapTests/DaemonClientTests.swift:626-628 | a printed hexadecimal (or decimal) number reads back as itself |
| `Bytes.ParseOfPrint` | macos/Screencap/Controllers/DaemonClient.swift:1502-1509 | the Swift integer parser accepts every printed 64-bit size and returns it |
| `Bytes.ParseIntExactly` | macos/Screencap/Controllers/DaemonClient.swift:1502-1509 | and for any text: the integer read is the value of its digits behind at most one sign, within 64 bits, and nothing else is a number |
| `Text.TrimExactly` | macos/Screencap/Controllers/DaemonClient.swift:1523-1523 | trimming takes white space off both ends and nothing else |
| `Text.Utf8Exactly` | macos/Screencap/Controllers/DaemonClient.swift:1502-1509 | text is well-formed UTF-8 if and only if it is the encoding of Unicode scalar values |
| `ChunkedCoding.SizeLine` | macos/Screencap/Controllers/DaemonClient.swift:1502-1509 | the size line the server prints is the size the client parses, through UTF-8 decoding, the `;` split and trimming |
| `ChunkedCoding.DecodeFrame` | macos/Screencap/Controllers/DaemonClient.swift:1500-1527 | a non-empty frame decodes to exactly its chunk, and decoding goes on with the bytes after it |
| `ChunkedCoding.DecodeByLine` | macos/Screencap/Controllers/DaemonClient.swift:1500-1527 | decoding read off the size line: what each size, bad or good, and each short body leads to |
| `ChunkedCoding.ChunkSizeExactly` | macos/Screencap/Controllers/DaemonClient.swift:1502-1509 | the size is the hexadecimal number before the first `;`, white space aside, and a line without one fails |
| `ChunkedCoding.DecodeCutFrame` | macos/Screencap/Controllers/DaemonClient.swift:1517-1518 | a frame cut at any byte yields nothing and reads as a dropped connection |
| `ChunkedCoding.DecodeOfWire` | macos/ScreencapTests/DaemonClientTests.swift:626-635 | round trip: decoding what `writeResponse` sends gives back the chunks and a clean end; an empty chunk is itself the terminator (section 7.1 of RFC 9112), so the stream ends there, and without either the end is never clean |
| `ChunkedCoding.DecodeOfCutWire` | macos/Screencap/Controllers/DaemonClient.swift:1500-1527 | a response cut after any number of bytes yields exactly the chunks that arrived whole, and reads as cleanly ended if and only if at most its last two bytes are missing |
| `ChunkedCoding.TerminatorLineAloneEndsCleanly` | macos/Screencap/Controllers/DaemonClient.swift:1510-1515 | the final blank line is optional to this client: a connection dropped right after `0\r\n` passes for a clean end |
| `EventStream.ByteReader.ReadUntil` | macos/Screencap/Controllers/DaemonClient.swift:2317-2330 | returns the bytes up to and including the first separator of everything still to come, leaves exactly the rest, and fails exactly when there is none, in whatever pieces the bytes arrive |
| `EventStream.ByteReader.ReadExactly` | macos/Screencap/Controllers/DaemonClient.swift:2332-2342 | returns exactly that many bytes and leaves the rest; fails exactly when fewer are to come |
| `EventStream.ByteReader.ReadToEof` | macos/Screencap/Controllers/DaemonClient.swift:2344-2351 | returns everything still to come, in whatever pieces, or fails if the connection does |
| `EventStream.LineBuffer.Feed` | macos/Screencap/Controllers/DaemonClient.swift:2369-2383 | yields every line the new bytes complete and keeps the unfinished tail; refuses exactly when that tail passes 1 MiB |
| `EventStream.ReadChunk` | macos/Screencap/Controllers/DaemonClient.swift:1500-1521 | one turn of the read loop consumes one chunk of the decoding of the unread bytes, or ends as that decoding ends |
| `EventStream.Subscribe` | macos/Screencap/Controllers/DaemonClient.swift:1499-1533 | what a subscriber is given is a function of the body's bytes alone, never of the pieces they arrive in: the trims of the UTF-8 lines that are not blank, of all chunks or of those before the first that leaves a line over the limit, and then that end |
| `EventStream.CutLinesOfConcat` | macos/Screencap/Controllers/DaemonClient.swift:2369-2378 | cutting a concatenation into lines is cutting the first part and then its tail with the second part |
| `EventStream.CutLinesExactly` | macos/Screencap/Controllers/DaemonClient.swift:2369-2378 | the lines cut hold no line feed and, with one after each and the tail at the end, are the text again |
| `EventStream.EventsOfLines` | macos/Screencap/Controllers/DaemonClient.swift:1522-1526 | the events are exactly the trims of the lines that are UTF-8 and not blank, in their order |
| `EventStream.EventsAreNotBlank` | macos/Screencap/Controllers/DaemonClient.swift:1523-1524 | no event is blank, and each is the trim of one of the lines |
| `EventStream.CleanLinesAreTheEvents` | macos/Screencap/Controllers/DaemonClient.swift:1522-1526 | lines of UTF-8 that are neither empty nor padded are themselves the events |
| `EventStream.DeliverIgnoresFraming` | macos/Screencap/Controllers/DaemonClient.swift:1522-1526 | nor does it depend on where the server puts chunk boundaries: unless a line outgrows the limit, the events are those of the whole text |
| `EventStream.TooLongExactlyWhenOutgrown` | macos/Screencap/Controllers/DaemonClient.swift:2379-2381 | the stream fails as too long exactly when some chunk leaves a longer unfinished line |
| `EventStream.TooLongBeyondOneMebibyte` | macos/Screencap/Controllers/DaemonClient.swift:2365-2381 | the limit is 1048576 bytes: the longest line that passes, and the shortest that does not |
| `EventStream.ServedPayloadIsDelivered` | macos/ScreencapTests/DaemonClientTests.swift:334-385 | end to end: for any lines and any tail, in any non-empty chunking, received in any pieces, the events are the trims of the UTF-8 lines that are not blank, in order, and then a clean end |
| `HttpServer.ReceiveHead` | macos/ScreencapTests/DaemonClientTests.swift:573-582 | accumulates until the first blank line of the stream is in, or reports that there is none |
| `HttpServer.ReceiveAtLeast` | macos/ScreencapTests/DaemonClientTests.swift:603-607 | accumulates the announced length, and reports short exactly when the stream is short |
| `HttpServer.ReadRequest` | macos/ScreencapTests/DaemonClientTests.swift:573-610 | the request read (or refused) is a function of the bytes sent, however `recv` splits them; a negative Content-Length is the range trap it is |
| `HttpServer.ReadingExactly` | macos/ScreencapTests/DaemonClientTests.swift:573-610 | a request is read exactly when the stream has a blank line, a head before it, and after it the announced number of bytes, which are the body; a negative length is the trap |
| `HttpServer.HeadExactly` | macos/ScreencapTests/DaemonClientTests.swift:587-600 | a head is UTF-8 whose first line has two words; they are the verb and the path |
| `HttpServer.HeadersExactly` | macos/ScreencapTests/DaemonClientTests.swift:593-600 | a header has a value if and only if a line says so, up to its first colon and past white space and case, and no later line speaks of it |
| `HttpServer.LengthExactly` | macos/ScreencapTests/DaemonClientTests.swift:602-602 | no Content-Length, or one that is no number, is a length of none |
| `HttpServer.ServerReadsWhatClientSent` | macos/Screencap/Controllers/DaemonClient.swift:2139-2154 | round trip: verb, path, headers and body the client sends are what the server reads, and nothing of what follows on the connection |
| `HttpServer.CutRequestIsRefused` | macos/ScreencapTests/DaemonClientTests.swift:573-610 | a request cut before the last byte of its body is refused, never misread; one cut after it is read as before |
| `HttpServer.WriteAll` | macos/ScreencapTests/DaemonClientTests.swift:641-651 | over partial writes a prefix of the data goes out, cut at the first failed write |
| `HttpServer.WriteResponse` | macos/ScreencapTests/DaemonClientTests.swift:624-638 | over any partial and failed writes the peer receives what the pieces, each as far as it gets, add up to, for any head |
| `ResponseHead.Respond` | macos/ScreencapTests/DaemonClientTests.swift:612-639 | and the head is the status line and the fields of the dictionary, with Content-Length for a whole body and Connection always, in whatever order it is iterated |
| `HttpServer.PiecesMakeTheResponse` | macos/ScreencapTests/DaemonClientTests.swift:612-639 | the pieces written are, together, the head and the payload in chunked coding |
| `HttpServer.AcceptedFully` | macos/ScreencapTests/DaemonClientTests.swift:641-651 | one `writeAll` sends everything exactly when none of its writes fails, and only its last write can fail |
| `HttpServer.AllArrivesExactly` | macos/ScreencapTests/DaemonClientTests.swift:612-651 | the whole response arrives if and only if no write fails |
| `HttpServer.PrefixArrives` | macos/ScreencapTests/DaemonClientTests.swift:612-651 | if failed writes are final the peer receives a prefix of the response |
| `HttpServer.PrefixExactlyWhenFailuresAreFinal` | macos/ScreencapTests/DaemonClientTests.swift:612-651 | `writeResponse` carries on after a failed `writeAll`, so only prefixes are received if and only if failed writes are final |
| `ResponseHead.DropFourTakesTwoMore` | macos/Screencap/Controllers/DaemonClient.swift:2209-2209 | dropping four Characters from a head takes the blank line, which counts for two, and the last two of its last line |
| `ResponseHead.ClientReadsAllButTheLastField` | macos/Screencap/Controllers/DaemonClient.swift:2205-2226 | for every answer and every order of the server's dictionary: the client reads the status, and each field as written except the last, whose value has lost two Characters (a one-letter value is read as empty, an empty one not at all) |
| `ResponseHead.SentFieldsExactly` | macos/ScreencapTests/DaemonClientTests.swift:612-616 | the fields sent are the dictionary's, with Content-Length for a whole body and Connection: close in place of what it said |
| `ResponseHead.OtherStatusIsAnError` | macos/Screencap/Controllers/DaemonClient.swift:1489-1494 | an answer outside 200 to 299 is an error with that status, and no event of it is delivered |
| `ResponseHead.AnswerExactly` | macos/Screencap/Controllers/DaemonClient.swift:1489-1533 | the head decides: refused, an error with the rest as its body, not a stream, or the stream of the rest |
| `ResponseHead.HeadRefusedExactly` | macos/Screencap/Controllers/DaemonClient.swift:2205-2226 | which heads the client refuses |
| `ResponseHead.OpenStream` | macos/Screencap/Controllers/DaemonClient.swift:1489-1533 | from the response's first byte: what a subscriber gets, or why it is turned away, is a function of the bytes alone |
| `ResponseHead.AnnouncedIsAcceptedExactly` | macos/Screencap/Controllers/DaemonClient.swift:1495-1497 | an answer announced as chunked is turned away as not chunked if and only if the announcement is its last field |
| `ResponseHead.ServedAnswerIsDelivered` | macos/ScreencapTests/DaemonClientTests.swift:612-639 | end to end, server to subscriber: over any partial writes of which none fails, the trims of the payload's UTF-8 lines that are not blank arrive, in order, and then a clean end, unless the announcement came last |
| `DaemonInstall.PollProbesBounded` | macos/Screencap/Controllers/DaemonInstallController.swift:705-763 | a poll sends at most one probe more than the intervals that fit its budget, rounded up |
| `DaemonInstall.PollOutcomeIsEarned` | macos/Screencap/Controllers/DaemonInstallController.swift:705-763 | running: the last probe was answered with an accepted version and no earlier one was; mismatch: a wrong version was seen; timed out: nothing ever answered |
| `DaemonInstall.PollStopsExactly` | macos/Screencap/Controllers/DaemonInstallController.swift:705-763 | a poll stops at the first probe that is accepted, or answered wrongly with no waiting for a replacement, or back at or after the deadline; its outcome is that answer, or without one the last wrong version |
| `DaemonInstall.AwaitExactly` | macos/Screencap/Controllers/DaemonInstallController.swift:686-697 | from the statuses alone: approved exactly if the first status that says enabled or gone says enabled and no earlier read was at or after the deadline; gone likewise; pending exactly if there is no such read in time |
| `DaemonInstall.InstallationExactly` | macos/Screencap/Controllers/DaemonInstallController.swift:477-674 | the whole course from the registrations and the polls: which refusal each ends in, when the daemon is booted out, kickstarted and reinstalled, and how the second registration ends |
| `DaemonInstall.ApprovedInTimeRuns` | macos/Screencap/Controllers/DaemonInstallController.swift:578-596 | approval needed, granted in time, and the first probe accepted: running, after exactly those reads and one probe |
| `DaemonInstall.ZeroIntervalNeverEnds` | macos/Screencap/Controllers/DaemonInstallController.swift:753-761 | with a zero interval and a silent daemon no number of turns ends the poll, which is why the intervals must be positive |
| `DaemonInstall.RunningIsEarned` | macos/Screencap/Controllers/DaemonInstallController.swift:260-306 | whatever the outside world does: running is declared if and only if the very last probe reached an accepted version; registration is refreshed at most once, and the daemon booted out exactly when the first poll met a wrong version |
| `DaemonInstall.InstallProbesBounded` | macos/Screencap/Controllers/DaemonInstallController.swift:260-306 | a whole installation sends a number of probes fixed by its budgets |
| `DaemonInstall.FirstMismatchIsNeverForgotten` | macos/Screencap/Controllers/DaemonInstallController.swift:538-577 | after a wrong version in the first poll the outcome is never polling-failed: it is running or version-mismatch if the reinstall becomes enabled, else that registration's own failure or pending approval |
| `DaemonInstall.PollingFailedWasAnsweredOnlyAfterKickstart` | macos/Screencap/Controllers/DaemonInstallController.swift:661-674 | an installation that ends in polling-failed was answered by some daemon if and only if the poll after the kickstart met a wrong version, which that path drops |
| `DaemonInstall.StaleDaemonReportedAsSilent` | macos/Screencap/Controllers/DaemonInstallController.swift:661-674 | such an installation: a stale daemon answered and the outcome says it did not respond |
| `DaemonInstall.DaemonInstallController.InstallDaemon` | macos/Screencap/Controllers/DaemonInstallController.swift:260-306 | single flight: a late-comer touches nothing; the winner runs to the specified outcome and frees the latch; approved in time and answered at once, it is running |
| `DaemonInstall.DaemonInstallController.HandleRegisteredStatus` | macos/Screencap/Controllers/DaemonInstallController.swift:477-616 | state and effects are those of the specification, branch by branch |
| `DaemonInstall.DaemonInstallController.PollDaemon` | macos/Screencap/Controllers/DaemonInstallController.swift:705-763 | the poll loop computes the specified outcome, at the specified clock, and leaves the matching state |
| `DaemonInstall.DaemonInstallController.WaitForApproval` | macos/Screencap/Controllers/DaemonInstallController.swift:686-697 | the loop's answer and clock are those of `AwaitExactly` |
| `DaemonInstall.DaemonInstallController.KickstartAndRepoll` | macos/Screencap/Controllers/DaemonInstallController.swift:661-674 | kickstart, then one fail-fast poll |
| `DaemonInstall.DaemonInstallController.RefreshRegistration` | macos/Screencap/Controllers/DaemonInstallController.swift:618-650 | one refresh, then the second pass with the mismatch that caused it |
| `OneShotGate.StepKeepsInv` | macos/ScreencapTests/IntelligenceSettingsTests.swift:622-648 | any lock, unlock, append, copy, clear or resume by any thread keeps: one thread in the critical section, every continuation in exactly one place, none waiting once opened, nothing past a closed gate |
| `OneShotGate.RunKeepsInv` | macos/ScreencapTests/IntelligenceSettingsTests.swift:622-648 | so does every interleaving of any number of waiters and openers |
| `OneShotGate.InitialInv` | macos/ScreencapTests/IntelligenceSettingsTests.swift:622-648 | and the closed, empty gate has it |
| `OneShotGate.ResumedAtMostOnce` | macos/ScreencapTests/IntelligenceSettingsTests.swift:622-648 | no continuation is resumed twice, and a resumed one is nowhere else |
| `OneShotGate.NobodyLeftSuspended` | macos/ScreencapTests/IntelligenceSettingsTests.swift:622-648 | once every opener has returned, whoever suspended has been resumed exactly once |
| `OneShotGate.StuckMeansFinished` | macos/ScreencapTests/IntelligenceSettingsTests.swift:622-648 | no deadlock: when nothing can move, every call has returned or waits for an opener that never came |
| `OneShotGate.SchedulesAreShort` | macos/ScreencapTests/IntelligenceSettingsTests.swift:622-648 | every schedule runs out of steps |
| `OneShotGate.LockGateRefines` | macos/ScreencapTests/IntelligenceSettingsTests.swift:622-648 | every interleaving of the lock-based gate is a behaviour of the abstract one-shot gate |
| `OneShotGate.TestGate.Wait` | macos/ScreencapTests/AmbientControlsTests.swift:323-338 | the actor's `wait` is one arrival, and a release at once if the gate is open |
| `OneShotGate.TestGate.OpenUp` | macos/ScreencapTests/AmbientControlsTests.swift:323-338 | the actor's `open` opens the abstract gate and releases everyone waiting, in order |
| `OneShotGate.ReleasesAll` | macos/ScreencapTests/AmbientControlsTests.swift:332-337 | releasing a list of waiters one by one is a path of the abstract gate that frees exactly them |
| `DayGaps.Gaps` | macos/Screencap/Views/Timeline/DayStripView.swift:327-354 | for any spans, unsorted, overlapping or out of bounds: separate non-empty intervals inside the axis that contain a moment exactly when it is on the axis and no span covers it |
| `DayGaps.Merge` | macos/Screencap/Views/Timeline/DayStripView.swift:334-341 | merging keeps exactly the covered moments and leaves intervals that neither touch nor overlap |
| `DayGaps.Complement` | macos/Screencap/Views/Timeline/DayStripView.swift:342-353 | the cursor sweep computes the complement of merged spans |
| `DayGaps.ClampedCovers` | macos/Screencap/Views/Timeline/DayStripView.swift:330-332 | cutting spans to the axis and dropping the empty ones loses no covered moment of the axis and adds none |
| `DayGaps.SortFacts` | macos/Screencap/Views/Timeline/DayStripView.swift:333-333 | the sort orders the spans by start and keeps each as often as it occurs |
| `DayGaps.CanonicalIsUnique` | macos/Screencap/Views/Timeline/DayStripView.swift:327-354 | a set of moments is written as separate intervals in only one way |
| `DayGaps.GapsIgnoreOrder` | macos/Screencap/Views/Timeline/DayStripView.swift:327-354 | so the gaps do not depend on the order of the spans |
| `DayGaps.GapsAndCoverFillTheAxis` | macos/Screencap/Views/Timeline/DayStripView.swift:327-354 | covered time and gap time add up to the axis |
| `DayClaims.DayRegions` | macos/Screencap/Views/Timeline/DayStripView.swift:937-964 | the two loops yield one region for each piece of a gap that may be spoken of, none for a future piece of a ready day, and each region's cause is what the deciding recording says |
| `DayClaims.PiecesTile` | macos/Screencap/Views/Timeline/DayStripView.swift:425-428 | the pieces tile the gaps exactly, in order, and none straddles the present |
| `DayClaims.EveryEmptyInstantHasOneCause` | macos/Screencap/Views/Timeline/DayStripView.swift:937-964 | on a ready day every past uncovered moment lies in exactly one region, which makes a claim, and the future in none; before the data is in every uncovered moment lies in exactly one, which makes none; a covered moment lies in none; and the claim is what the deciding recording says |
| `DayClaims.ClaimsArePast` | macos/Screencap/Views/Timeline/DayStripView.swift:406-407 | no claim is made of the future or before the data is in, and one always otherwise |
| `DayClaims.CausesAreTold` | macos/Screencap/Views/Timeline/DayStripView.swift:397-420 | over the recordings: interrupted at a moment, still recording or nothing on file exactly as the latest-ending recording before the gap, the first listed of several, has that status and end |
| `DayClaims.CantVerifyExactly` | macos/Screencap/Views/Timeline/DayStripView.swift:397-420 | and cannot-verify of a past gap exactly when the store is away, coverage is incomplete where it matters, or that status is none of the three |
| `DayClaims.NothingOnFileNeedsAllTheEvidence` | macos/Screencap/Views/Timeline/DayStripView.swift:397-420 | nothing-on-file is claimed exactly when the data is in, the gap is past, the store mounted, coverage complete, and the latest-ending predecessor ended cleanly or there is none |
| `DayClaims.WeakerEvidenceNeverClaimsMore` | macos/Screencap/Views/Timeline/DayStripView.swift:397-420 | taking any of that evidence away never creates the claim |
| `DayClaims.InnerGapFollowsARecording` | macos/Screencap/Views/Timeline/DayStripView.swift:410-416 | a gap inside the axis starts where its predecessor ended, so `interrupted` speaks of that very moment |
| `DayClaims.OrderMattersExactlyWhenTiesDisagree` | macos/Screencap/Views/Timeline/DayStripView.swift:410-412 | the claim is independent of the listing order if and only if recordings that end at the same latest moment lead to the same cause |
| `CaptionClusters.Cluster` | macos/Screencap/Views/Timeline/DayStripView.swift:284-311 | the bucket loop yields one caption per maximal chain of the sorted bands, or the bands themselves for a threshold that is not positive |
| `CaptionClusters.CaptionsNeverOverlap` | macos/Screencap/Views/Timeline/DayStripView.swift:284-311 | any two captions, of whatever classes, are more than the threshold apart, in increasing order |
| `CaptionClusters.ClassesAreKept` | macos/Screencap/Views/Timeline/DayStripView.swift:284-311 | no caption class is lost and none invented |
| `CaptionClusters.SharedExactlyWhenLinked` | macos/Screencap/Views/Timeline/DayStripView.swift:299-308 | two bands share a caption if and only if no step between neighbours from one to the other exceeds the threshold: single linkage, neither finer nor coarser |
| `CaptionClusters.EveryBandHasACaption` | macos/Screencap/Views/Timeline/DayStripView.swift:299-311 | the caption a band shares is one of those output |
| `CaptionClusters.CaptionsAreTheClusters` | macos/Screencap/Views/Timeline/DayStripView.swift:294-311 | each caption output stands at the mean, and carries the classes, of exactly the bands that share it, which are consecutive |
| `CaptionClusters.ClusteringAgainChangesNothing` | macos/Screencap/Views/Timeline/DayStripView.swift:218-220 | clustering is idempotent and its output ascending, for every threshold |
| `CaptionClusters.CaptionsIgnoreOrder` | macos/Screencap/Views/Timeline/DayStripView.swift:288-311 | the captions do not depend on the order of the bands, nor on how the sort leaves equal positions |
| `CaptionClusters.SinglesKeepTieOrder` | macos/Screencap/Views/Timeline/DayStripView.swift:288-290 | with clustering off only the positions are independent of it, the classes exactly when the sorts agree |
| `CaptionClusters.MeanBetween` | macos/Screencap/Views/Timeline/DayStripView.swift:294-297 | a cluster's mean lies between its first and last position |
| `CaptionClusters.MeansCombine` | macos/Screencap/Views/Timeline/DayStripView.swift:294-297 | one position is its own mean, and in the mean of more each weighs the same |
| `CloudAuth.CloudAuthController.LatestLoginEnvelope` | macos/Screencap/Controllers/CloudAuthController.swift:930-932 | scanning back from the end finds the newest line that parses |
| `CloudAuth.TrialIsHonest` | macos/Screencap/Models/AuthStatus.swift:200-235 | the urgency shown is the time left, in whole hours on the last day and in days rounded up before; lapsed is said only without a tier and without a running trial, and never offline |
| `CloudAuth.EnvelopeExactly` | macos/Screencap/Controllers/CloudAuthController.swift:472-483 | who an envelope says is signed in, and at which tier: an unknown tier is none, an absent one is Cloud for a signed-in subscriber |
| `CloudAuth.LatestExactly` | macos/Screencap/Controllers/CloudAuthController.swift:930-932 | the newest envelope is the parsed line after which no line parses |
| `CloudAuth.AccountExactly` | macos/Screencap/Controllers/CloudAuthController.swift:449-576 | where the account comes from, event by event: a refresh replaces it, a forced read only with a signed-in answer, a sign-in with its own process's envelope, sign-out clears it, nothing else touches it |
| `CloudAuth.ErrorExactly` | macos/Screencap/Controllers/CloudAuthController.swift:99-118 | the error shown after each event, by its code or by whether the call timed out |
| `CloudAuth.FlowExactly` | macos/Screencap/Controllers/CloudAuthController.swift:782-932 | the sign-in flow and its generation after each event |
| `CloudAuth.PagesExactly` | macos/Screencap/Controllers/CloudAuthController.swift:643-732 | a page opens for the current checkout or a portal exactly if the answer is an https address and no refusal |
| `CloudAuth.BillingExactly` | macos/Screencap/Controllers/CloudAuthController.swift:605-705 | a portal's return is awaited from its page's opening to the visit or sign-out; a checkout's number grows with each checkout and with sign-out |
| `SignInFlow.AtMostOneLiveSignIn` | macos/Screencap/Controllers/CloudAuthController.swift:782-932 | over every interleaving: in progress exactly while the current generation's process is held and its watchdog armed, and every process ever launched has exited, been signalled, or is that one |
| `SignInFlow.StaleCallbacksLeaveNoTrace` | macos/Screencap/Controllers/CloudAuthController.swift:840-925 | dropping every callback of an earlier generation from a run changes nothing about where it ends |
| `SignInFlow.EveryCallerIsAnsweredOnce` | macos/Screencap/Controllers/CloudAuthController.swift:782-818 | conservation of completions: each request has been answered exactly once, except that of the attempt still in progress |
| `SignInFlow.ToldOnlyTheTruth` | macos/Screencap/Controllers/CloudAuthController.swift:914-919 | a caller is told success exactly if it was signed in already or its attempt's own process reported it, and then the status says so |
| `SignInFlow.OnlyOwnLinesAreKept` | macos/Screencap/Controllers/CloudAuthController.swift:921-924 | while an attempt is live the lines kept are its own process's, all of them and no others |
| `SignInFlow.SignedInOnlyByItsOwnWord` | macos/Screencap/Controllers/CloudAuthController.swift:882-912 | an exit signs the user in if and only if it is the live attempt's process, the code is 0, and the newest envelope that process wrote says so |
| `Checkout.PendingExactlyWithATarget` | macos/Screencap/Controllers/CloudAuthController.swift:627-672 | in every reachable state, pending holds exactly when a target is stored, and the target is the paid tier of the current generation's attempt |
| `Checkout.TargetIsTheNewestAttempts` | macos/Screencap/Controllers/CloudAuthController.swift:627-642 | a stored target is the tier of the newest checkout begun |
| `Checkout.AnyReportedTierIsLive` | macos/Screencap/Models/AuthStatus.swift:200-235 | an envelope that reports a paid tier and is not stale always reads as a live entitlement: clock and trial end never matter to settling |
| `Checkout.PendingClearsExactly` | macos/Screencap/Controllers/CloudAuthController.swift:508-517 | a pending checkout ends if and only if its own mint fails, its own tier is reported, or the user signs out |
| `Checkout.PendingExactlyUntilCleared` | macos/Screencap/Controllers/CloudAuthController.swift:508-672 | whatever happens in a run, pending at its end means some checkout began and nothing has cleared it since, and conversely |
| `Checkout.SettledByItsStarter` | macos/Screencap/Controllers/CloudAuthController.swift:508-517 | over every run: a checkout was begun by a signed-in account and no account has taken over from another without a sign-out since; then the envelope that settles it is the same account's or names nobody, if and only if no takeover happens with it |
| `Checkout.AnotherAccountSettlesIt` | macos/Screencap/Controllers/CloudAuthController.swift:449-463 | a takeover: a run without sign-out in which one account's checkout is settled by another account's subscription |
| `Checkout.NobodySettlesIt` | macos/Screencap/Controllers/CloudAuthController.swift:471-517 | an envelope that names nobody: a run in which a checkout is settled by a signed-out report that still carries the tier |
| `Checkout.SettledIsOverExactly` | macos/Screencap/Controllers/CloudAuthController.swift:643-661 | once nothing is pending, no mint answer still to come can change anything if and only if the newest attempt's own mint has been answered |
| `Checkout.PageOpensAfterSettling` | macos/Screencap/Controllers/CloudAuthController.swift:643-655 | a run in which the checkout page opens after the purchase is known to have gone through |
| `Checkout.SignOutStaysClearedExactly` | macos/Screencap/Controllers/CloudAuthController.swift:449-980 | after sign-out the status, the tier, the trial and the billing state all stay cleared, whatever was begun before comes back, if and only if no status read of any kind, no reconcile, no portal request and no login was under way |
| `Checkout.SignOutStaysWipedExactly` | macos/Screencap/Controllers/CloudAuthController.swift:627-980 | the billing state alone stays wiped if and only if no portal request and no login was under way |
| `Checkout.SignOutStaysClearedAfterAnyRun` | macos/Screencap/Controllers/CloudAuthController.swift:449-980 | and so in every state a legal run can sign out of |
| `ProviderSelection.RowsAre` | macos/Screencap/Views/Settings/IntelligenceSelectionModel.swift:347-408 | exactly which rows the list has, and which can be picked |
| `ProviderSelection.RowsSpelledOut` | macos/Screencap/Views/Settings/IntelligenceSelectionModel.swift:347-408 | the same by the ids the daemon stores |
| `ProviderSelection.RenderExactly` | macos/Screencap/Views/Settings/IntelligenceSelectionModel.swift:415-433 | the rendered selection: the cloud row named, else the local server's if that is active and its endpoint local, else the on-device row; the prompt exactly for a provider no row can show |
| `ProviderSelection.RowIdsAreNormal` | macos/Screencap/Views/Settings/IntelligenceSelectionModel.swift:514-523 | the id of a vendor row survives the normalization of the cloud slot, so writing it reads back as that row |
| `ProviderSelection.TapConverges` | macos/Screencap/Views/Settings/IntelligenceSelectionModel.swift:484-508 | if a tap on a selectable row writes anything, the row is then rendered selected without a prompt and a second tap writes nothing |
| `ProviderSelection.TapStores` | macos/Screencap/Views/Settings/IntelligenceSelectionModel.swift:484-508 | the two slots after a tap: a cloud row takes the cloud slot and leaves a provider that can be shown, a local one takes the provider slot and empties the other |
| `ProviderSelection.TapLeavesAPromptExactly` | macos/Screencap/Views/Settings/IntelligenceSelectionModel.swift:415-508 | after a tap its row is selected; the prompt remains if and only if the row was the selected cloud row already, over a provider slot no row can show |
| `ProviderSelection.SameCloudTapNeverHeals` | macos/Screencap/Views/Settings/IntelligenceSelectionModel.swift:493-496 | that re-tap writes nothing, and a tap on any other selectable row heals the slot |
| `ProviderSelection.SelectionIsListedExactly` | macos/Screencap/Views/Settings/IntelligenceSelectionModel.swift:379-433 | the rendered selection names a listed row, except for an id no row has or an unconnected vendor's id stored with stray white space |
| `ProviderFlows.EveryDiskStateIsSafe` | macos/Screencap/Views/Settings/ConnectProviderStepPolicy.swift:140-187 | over any sequence of taps, connects, disconnects and endpoint writes, with any writes failing or lost and any other read-backs failing: as long as one works after each endpoint stored, each key removed and each choice stored by a write reported as failed, the disk never has the local server active without a local endpoint nor a vendor selected without its key |
| `ProviderFlows.SelectLocalIsSafe` | macos/Screencap/Controllers/IntelligenceController.swift:270-310 | a local pick keeps that, and when it succeeds leaves the new provider and no cloud provider |
| `ProviderFlows.WriteEndpointIsSafe` | macos/Screencap/Views/Settings/ConnectProviderStepPolicy.swift:169-187 | resetting the provider before writing the endpoint keeps it whatever the new endpoint is |
| `ProviderFlows.PerformIsSafe` | macos/Screencap/Views/Settings/ConnectProviderSheet.swift:561-697 | each flow keeps it, whichever of its writes fail |
| `ProviderFlows.FirstFailureEndsIt` | macos/Screencap/Views/Settings/ConnectProviderSheet.swift:561-697 | whichever writes and reads fail: the first failed write is an operation's last, and what is reported is that failure, or that of its last read-back |
| `ProviderFlows.OperationStores` | macos/Screencap/Views/Settings/ConnectProviderSheet.swift:561-697 | with every write and read working, what each operation leaves on disk |
| `ProviderFlows.StandsExactly` | macos/Screencap/Views/Settings/IntelligenceSelectionModel.swift:347-408 | what a row promises is on disk exactly when the row, read back now, would be listed and selectable |
| `ProviderFlows.SaveIsSafeExactly` | macos/Screencap/Views/Settings/ConnectProviderSheet.swift:645-670 | all writes working, from any pane however out of date: saving an endpoint takes the disk through safe states only, if and only if there is nothing to save, or the new endpoint is local, or the provider is reset in time and either the read-back after the write works or the classification shown before it is not local |
| `ProviderFlows.OpIsSafeExactly` | macos/Screencap/Views/Settings/ConnectProviderSheet.swift:561-697 | and so for every operation: a tap is safe exactly when what its row promises is on disk, a disconnect when it deselects what is selected, a clear when it resets what is active |
| `ProviderFlows.RunIsSafeExactly` | macos/Screencap/Views/Settings/ConnectProviderSheet.swift:561-697 | a whole run is safe throughout if and only if each operation is safe where it is done |
| `ProviderFlows.StaleLocalRowIsUnsafe` | macos/Screencap/Views/Settings/ConnectProviderSheet.swift:668-697 | one failed read-back is enough: after the endpoint is cleared its row can still be tapped, which activates a local server without an endpoint |
| `ProviderFlows.StaleKeyRowIsUnsafe` | macos/Screencap/Controllers/IntelligenceController.swift:419-434 | and so with the row of a key that was removed |
| `ProviderFlows.PaneShowsTheDisk` | macos/Screencap/Controllers/IntelligenceController.swift:203-434 | when every read-back works the pane shows what is on disk after any run, whichever writes fail |
| `ProviderFlows.LocalPickNeverMixes` | macos/Screencap/Controllers/IntelligenceController.swift:270-310 | whatever fails, no disk state of a local pick has the new provider beside a cloud provider |
| `ProviderFlows.TapStoresThePlan` | macos/Screencap/Views/Settings/IntelligenceSettingsView.swift:460-492 | the dispatch through the controller stores exactly what the pure plan says |
| `ProviderFlows.TapEndsSelected` | macos/Screencap/Views/Settings/IntelligenceSettingsView.swift:460-492 | a tap whose writes go through shows its row selected and the disk as it is, read back or not, and tapping again changes nothing |
| `ProviderFlows.IntelligenceController.SelectLocalProvider` | macos/Screencap/Controllers/IntelligenceController.swift:270-310 | clear first, abort on failure, reconcile before reporting the error; a second call in flight bounces without effect |
| `ProviderFlows.IntelligenceController.SaveLocalEndpoint` | macos/Screencap/Views/Settings/ConnectProviderSheet.swift:645-697 | the endpoint plan run to its end, with its automatic selection; while another choice is in flight its reset bounces and ends it, and its automatic selection bounces |
| `Decommission.StagingNamesDiffer` | scripts/cloud_migration/core.py:211-220 | different recordings have different staging names, so one copy cannot vouch for two |
| `Decommission.DeletesAreGated` | scripts/cloud_migration/core.py:948-1015 | only a live run deletes; a recording only right after a staging copy was fetched in that run whose checksum is given and the same, and whose size, type and md5 agree as far as they are given, and never another generation than the one listed; a session only when opted in |
| `Decommission.MismatchExactly` | scripts/cloud_migration/core.py:238-271 | a copy vouches for its source if and only if both checksums are given and equal, the sizes equal if both are given, the types equal with empty read as absent, and the md5s equal if both are given |
| `Decommission.EveryObjectIsAccountedFor` | scripts/cloud_migration/core.py:922-1020 | a run that gets to its end has one line for each object listed, in order: deleted exactly if its copy vouched and the delete went through, kept with an error exactly if the service failed, and so on |
| `Decommission.RunsToItsEndExactly` | scripts/cloud_migration/core.py:948-1020 | the loops get to their end if and only if both listings do, no call dies of an error that is not the storage service's, and every line is written |
| `Decommission.LogIsTheAccount` | scripts/decommission_flat_namespace.py:115-140 | and if every write went through, its log is what was there, then those lines |
| `Decommission.AtMostOneDeletionUnlogged` | scripts/decommission_flat_namespace.py:115-157 | a run killed at any point, in the middle of a line too, leaves at most one deletion that no whole log line admits, and completed loops none |
| `Decommission.PinnedExactly` | scripts/cloud_migration/core.py:951-981 | the delete is limited to the generation that was verified if and only if the listing gave one |
| `Decommission.ExitZeroExactly` | scripts/decommission_flat_namespace.py:102-197 | exit 0 if and only if the loops completed, the log could be closed, no error interrupted a delete, and (live) the re-scan found nothing under the prefixes the run covers |
| `Decommission.ExitsExactly` | scripts/decommission_flat_namespace.py:102-197 | every exit code by the flags, the gates and the run: 2 exactly when turned away, 0 as above, a traceback exactly for an error that is no `OSError` or from closing the log, else 1 |
| `Decommission.TurnedAwayDoesNothing` | scripts/decommission_flat_namespace.py:105-143 | turned away at a gate a run does nothing but open its log, and without a flag not even that |
| `Decommission.LogsOnlyGrow` | scripts/decommission_flat_namespace.py:86-99 | through any runs, kills and writes cut short a log only grows, byte for byte, provided no dry run's preview is named like it |
| `Decommission.PreviewOverwritesExactly` | scripts/decommission_flat_namespace.py:118-118 | that proviso is exactly what is needed: a dry run does truncate a live log of that name |
| `Decommission.LogStaysReadableExactly` | scripts/decommission_flat_namespace.py:86-157 | through any runs, kills and full disks every complete line of a log is a record if and only if it was so at first and no run went on writing after an unfinished line |
| `Decommission.UnkilledRunEndsItsLines` | scripts/decommission_flat_namespace.py:125-157 | errors of the storage service leave no line unfinished: only a failed write or a kill does |
| `AuditLog.GluedIsUnreadable` | scripts/decommission_flat_namespace.py:89-99 | a record appended to an unfinished line, whatever that holds, is not a record any more |
| `AuditLog.AppendedIsReadableExactly` | scripts/decommission_flat_namespace.py:89-127 | lines appended to a log, cut anywhere, keep it readable if and only if it ended on a line boundary or none of them was completed |
| `AuditLog.RecordReadsBack` | scripts/decommission_flat_namespace.py:125-126 | round trip: any reader of JSON (section 7 of RFC 8259) gets the outcome back from its record, whatever characters its name and reason hold |
| `AuditLog.RecordsAreDistinct` | scripts/decommission_flat_namespace.py:125-126 | so a record is that of one outcome only |
| `Decommission.Disk.OpenAuditLog` | scripts/decommission_flat_namespace.py:86-99 | a live run opens the log as it is, a dry run starts its preview over |
| `Decommission.Disk.Record` | scripts/decommission_flat_namespace.py:125-127 | the line's bytes are appended, all of them or as many as got out, and a failing sink is reported |
| `Decommission.DeleteListed` | scripts/cloud_migration/core.py:948-1015 | the delete loop over one listing: outcomes, effects and the log's new content |
| `Decommission.RunScript` | scripts/decommission_flat_namespace.py:102-197 | the whole script: exit code and the audit files byte for byte, for every combination of flags and failures; an `OSError` from anywhere is taken for a failed log, and an error on closing the log replaces any exit code |
| `Entitlement.SetEntitlement` | scripts/set_entitlement.py:46-67 | afterwards the account's tier is none, local or cloud exactly as it was revoked or granted, subscribed is true exactly for cloud, and its other claims and every other account are as before |
| `Entitlement.BackfillGrandfathered` | scripts/set_entitlement.py:70-95 | returns the listed legacy accounts; writes each page's claims back with the tier added, or nothing in a dry run |
| `Entitlement.MigrateExactly` | scripts/set_entitlement.py:88-93 | what the migration owes an account: the cloud tier and nothing else, exactly if subscribed is truthy and there is no truthy tier |
| `Entitlement.CurrentPagesMigrate` | scripts/set_entitlement.py:86-95 | from current pages the loop does to each listed account exactly what the migration owes it |
| `Entitlement.RunsMigrate` | scripts/set_entitlement.py:86-95 | and so from pages as stale as any runs can make them, with accounts listed any number of times, as long as nobody decides in between |
| `Entitlement.MatchedAreThoseChanged` | scripts/set_entitlement.py:81-84 | the list, which a dry run returns too, names exactly the accounts a real run changes |
| `Entitlement.InterruptedRunsConverge` | scripts/set_entitlement.py:73-95 | confluence of the loop: any runs, each broken off anywhere, over pages of any age in any order, end where one full run would if and only if every legacy account has had a turn |
| `Entitlement.SecondRunMigratesNobody` | scripts/set_entitlement.py:73-75 | after a full run a second one reports nobody and changes nothing |
| `Entitlement.EveryOpKeeps` | scripts/set_entitlement.py:46-95 | over any grants, revokes and runs of the loop, no decision falling between a page and its turn: subscribed exactly when the tier is cloud, for every account with a tier, and every other claim untouched |
| `Entitlement.BackfillsRespectDecisions` | scripts/set_entitlement.py:86-95 | what was granted or revoked by hand survives any runs that list accounts later |
| `Entitlement.LoopIsItsTurns` | scripts/set_entitlement.py:86-95 | the loop is its turns one after another, so that decisions can be put between them |
| `Entitlement.DecisionSurvivesExactly` | scripts/set_entitlement.py:88-93 | over any turns and decisions interleaved, with pages of any age: the last decision on an account survives if and only if it granted Cloud or no turn after it has a legacy page of the account |
| `ModelDownload.DownloadExactly` | macos/Screencap/Controllers/ModelDownloadController.swift:52-66 | what each status reads as; an unknown one as nothing to say |
| `ModelDownload.StateIsTheHistory` | macos/Screencap/Controllers/ModelDownloadController.swift:222-345 | over every interleaving: what is shown is what the last good read said, unreachable exactly while the last read failed, and the misses are those since a call worked |
| `ModelDownload.LoopExactly` | macos/Screencap/Controllers/ModelDownloadController.swift:222-345 | when a poll loop starts and when it ends |
| `ModelDownload.UnpolledExactlyAfterCancel` | macos/Screencap/Controllers/ModelDownloadController.swift:222-345 | over every interleaving: a shown download has no poll loop if and only if a cancel began or ended and no read that worked or new start came since |
| `ModelDownload.FrozenBarExactly` | macos/Screencap/Controllers/ModelDownloadController.swift:172-181 | a bar nothing moves is shown exactly after a cancel whose every call worked while the status still read downloading; after a failed call a bar is shown only at its first miss with the loop running, and reads stalled otherwise |
| `ModelDownload.CancelSticksExactly` | macos/Screencap/Controllers/ModelDownloadController.swift:222-289 | after a cancel polling stays stopped, whatever calls begun before come back, if and only if no status read of any kind was under way, nor a download's own call, which a read follows; other cancels do no harm |
| `ModelDownload.PollingResumesAfterCancel` | macos/Screencap/Controllers/ModelDownloadController.swift:323-340 | a run in which a read begun before the cancel restarts the loop after it |
| `ModelDownload.DelayIsTheCurve` | macos/Screencap/Controllers/ModelDownloadController.swift:310-316 | the delay after f failures, f at least 1, is the smaller of 30 seconds and 2 to the f-1 |
| `ModelDownload.SpawnsExactly` | macos/Screencap/Controllers/ModelDownloadController.swift:310-316 | a closed form for the number of reads an outage of so many seconds can hold |
| `ModelDownload.PollThroughOutage` | macos/Screencap/Controllers/ModelDownloadController.swift:323-340 | the loop makes no more reads than that, and exactly that many if reads take no time |
| `DayPlayback.BuiltChunksAreWellFormed` | macos/Screencap/Controllers/DayPlaybackEngine.swift:84-120 | every chunk the loader builds, if it can play, has its first frame inside it, so it is not empty |
| `DayPlayback.MediaExactly` | macos/Screencap/Controllers/DayPlaybackEngine.swift:127-137 | over disjoint chunks: media exactly when a playable chunk contains the moment, it is that chunk, and first frame plus offset is the moment or the first frame, whichever is later |
| `DayPlayback.PlaceholderIsHonest` | macos/Screencap/Controllers/DayPlaybackEngine.swift:134-135 | unavailable is said exactly of evicted media, nothing-captured of a chunk without frames |
| `DayPlayback.OverlapAsksTheEarliestOnly` | macos/Screencap/Controllers/DayPlaybackEngine.swift:128-135 | where chunks overlap, media is found if and only if the earliest-starting one containing the moment can play |
| `DayPlayback.TargetExactly` | macos/Screencap/Controllers/DayPlaybackEngine.swift:127-137 | over any chunks: the first of the earliest that contain the moment plays from its first frame on, or its media is said to be gone, or nothing is captured |
| `DayPlayback.NextExactly` | macos/Screencap/Controllers/DayPlaybackEngine.swift:141-145 | the next chunk is the first, by start and then by listing, that starts there or later and can play |
| `DayPlayback.EarliestIsForemost` | macos/Screencap/Controllers/DayPlaybackEngine.swift:128-144 | the minimum by start is a chunk that satisfies the condition, before which none starts, and the first listed of those that start with it |
| `DayPlayback.PlaysEveryChunkOnce` | macos/Screencap/Controllers/DayPlaybackEngine.swift:141-145 | playing on from any moment visits every later playable chunk exactly once, in order, and stops |
| `DayPlaybackEngine.AspectIsEarned` | macos/Screencap/Controllers/DayPlaybackEngine.swift:357-449 | over every run: an aspect is published only while media is shown, and is the shape of a usable size reported for that very recording |
| `DayPlaybackEngine.AspectIsNewest` | macos/Screencap/Controllers/DayPlaybackEngine.swift:415-428 | and conversely: it is the newest usable size reported for that recording while it was shown |
| `DayPlaybackEngine.ResolveExactly` | macos/Screencap/Views/Shell/ShellWindowLayout.swift:284-295 | a size is usable if and only if it is positive and its ratio between 0.5 and 4 |
| `DayPlaybackEngine.SortIsStable` | macos/Screencap/Controllers/DayPlaybackEngine.swift:344-344 | loading puts the chunks in the order of their starts and leaves those that start together as they were |
| `DayPlaybackEngine.AlwaysCoherent` | macos/Screencap/Controllers/DayPlaybackEngine.swift:357-449 | the aspect is always the one on file for the recording under the playhead, and the target shows that chunk |
| `DayPlaybackEngine.AutoAdvancePlaysTheNext` | macos/Screencap/Controllers/DayPlaybackEngine.swift:470-478 | over disjoint chunks: at a chunk's end the player is at the first frame of the next playable one, or parked on a placeholder at the end |
| `DayPlaybackEngine.AutoAdvanceEnds` | macos/Screencap/Controllers/DayPlaybackEngine.swift:464-478 | over any chunks, overlapping or not: played through, a day ends parked after at most one advance more than it has chunks, each chunk on the way ending later than the one before |
| `DayPlaybackEngine.AutoAdvanceLandsExactly` | macos/Screencap/Controllers/DayPlaybackEngine.swift:127-145 | an advance lands on the next playable chunk's first frame if and only if no chunk that contains that moment starts earlier, or starts with it and is listed before it |
| `DayPlaybackEngine.LandsOnMediaExactly` | macos/Screencap/Controllers/DayPlaybackEngine.swift:343-353 | over disjoint chunks in any order: the initial landing shows media if and only if there is some at that moment, or nothing there and a first frame within two minutes |
| `DayPlaybackEngine.LoadRefreshesExactly` | macos/Screencap/Controllers/DayPlaybackEngine.swift:343-347 | after a load the target is what the new chunks hold at the clock if and only if a moment was given, or the new day's first chunk has a frame, or the old target and clock fit the new chunks |
| `DayPlaybackEngine.EmptyDayRefreshesExactly` | macos/Screencap/Controllers/DayPlaybackEngine.swift:343-347 | so an empty day is shown as one exactly when nothing captured was shown before |
| `ClipExport.AlwaysSound` | macos/Screencap/Controllers/ClipExportController.swift:280-436 | over every run: the latch is set exactly in a terminal state, and an export in progress holds the newest process, with its watchdog armed, or one of its watchdogs past its guard, or that process dead and its exit to come |
| `ClipExport.NeverWedged` | macos/Screencap/Controllers/ClipExportController.swift:390-436 | so a watchdog or the coming exit ends any export in progress |
| `ClipExport.FirstTerminalWins` | macos/Screencap/Controllers/ClipExportController.swift:329-436 | between starts the first terminal outcome never changes, whatever arrives |
| `ClipExport.RetryIsToldOrBusy` | macos/Screencap/Controllers/ClipExportController.swift:370-382 | a failure offers a retry if and only if the process said so, or said nothing about it and was busy |
| `ClipExport.OutcomeIsEarned` | macos/Screencap/Controllers/ClipExportController.swift:362-388 | over every run: success names the file a process reported done, or one that was chosen if it named none; cancelled follows a cancel |
| `ClipExport.EndsExactly` | macos/Screencap/Controllers/ClipExportController.swift:329-436 | what ends an export in progress, and how: each outcome with the event that brings it about |
| `ClipExport.ReasonExactly` | macos/Screencap/Controllers/ClipExportController.swift:67-86 | what each reason the command line gives is read as |
| `ClipExport.ForeignProofExactly` | macos/Screencap/Controllers/ClipExportController.swift:280-436 | neither callbacks nor watchdogs carry an attempt number: until it is started again an export is safe from those of earlier attempts, whatever else happens, if and only if no earlier process has still to report and no earlier watchdog is past its guard |
| `ClipExport.LateExitFailsTheNextExport` | macos/Screencap/Controllers/ClipExportController.swift:390-406 | a run: cancel, start again, and the first process's exit fails the second export while its process runs on, beyond cancel's reach |
| `ClipExport.LateWatchdogKillsTheNextExport` | macos/Screencap/Controllers/ClipExportController.swift:409-436 | a run: the first export is over and its process gone, and its watchdog, past its guard, fails the second and signals its process |
| `ClipExport.Snapshot` | macos/Screencap/Controllers/ClipExportController.swift:438-446 | the published fraction is done by total within 0 and 1: 0 exactly with nothing done or no total, 1 exactly when all is done |

## Left out

- Real sockets, launchd, SMAppService, AVFoundation, Keychain, Stripe, Firebase and cloud storage: each is a parameter that may answer, fail or race in any way described in its module.
- JSON decoding, and header text beyond splitting, trimming and last-wins duplicates: bodies are text, decoded envelopes are datatypes.
- Unicode: white space, trimming and lower-casing are those of ASCII; sign-in reasons and copy strings stand for themselves.
- ResponseHead: Unicode's tables, which say what counts as one Character outside ASCII, are a parameter; the order of the fields, which Swift leaves open, is any.
- Integer width outside the chunk-size and Content-Length parsers: byte counts, counters and generations are unbounded, so neither Swift's overflow traps nor the wrap of a generation after 2^64 attempts is modelled.
- Task cancellation of a subscription, time-outs around a request, and empty non-final receives.
- DaemonInstall: positive polling intervals are assumed, because with a zero interval the loop need not end; see `DaemonInstall.ZeroIntervalNeverEnds`. Preparing the encrypted store and the permission set-up after installation are effects on other components.
- OneShotGate: the lock-based gate is modelled on values, one step per statement, because interleavings of threads are what is proved about it; the actor's gate is a class.
- DayClaims: the regions of blocked, purged, deleted and unverifiable bands, which are appended to those of the gaps with their own sentences (DayStripView.swift:965-991), and the wording of the claims.
- CaptionClusters: positions are exact reals, so floating-point rounding of a mean is not modelled.
- CloudAuth: what the reconcile call and the logout call answer, which is ignored, the coalescing of lazy refreshes, the account's email, and sub-second trial ends.
- ProviderFlows: seams run one after another; the in-flight guard of a single controller is modelled, two windows racing each other's command-line calls are not. Settings are taken as loaded.
- DayPlaybackEngine: the player itself, its seek tolerance and the decoding of manifests and databases.
- Decommission: the values quoted in a mismatch's reason, which is named only; building the storage client, which may raise, an audit log that cannot be opened (exit 2, nothing done), errors of printing, and file modes; characters of object names beyond Unicode's scalar values.
- Entitlement: an account deleted between its page and its turn, which interrupts the run, and looking an account up by email.
- ModelDownload: the last-error text and the list of installed models beyond the default one.
- ClipExport: unparsable lines, which are dropped, and the text of failures.
- The staging and promotion halves of the cloud migration, task-label placement, hour ticks, clip-bound dragging, and the menu, account-sheet and onboarding policies, which are decided case by case from a few values.
