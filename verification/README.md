# Stream recorder: verified model

A Dafny model of the parts of the stream recorder where audio could get lost, be counted wrongly or be blamed on the wrong cause, with
proofs about every input, every interleaving and every run. Check it with `dafny verify dfyconfig.toml`.

**The upload and merge protocol.** Many sessions of one recording end up in one bucket object. `UploadProtocol` is a state machine of
any number of recorders on one bucket that enforces preconditions: capture, claim, classify, HEAD, measure, download and build, PUT
(create-only or If-Match, the reply possibly lost, the request possibly applied after its attempt is over), verification, the raw fallback,
renames, sidecar by sidecar completion, removal of captures, retries, retention, crashes and recovery, and foreign objects appearing. An
object carries whose audio it holds and, apart from that, its manifest as it reads back, for a long list does not survive its header.
`UploadInvariant`, `UploadSteps`, `UploadSessions` and `UploadRecovery` show that every step keeps one invariant; `UploadSafety` draws the
conclusions over whole runs. `UploadQueue` shows that nothing with audio is given up, `UploadProgress` when an attempt may merge and that an
undisturbed one succeeds, and `UploadConvergence` how far manifests name what objects hold and what that means for a retry.
`UploadGroups` holds the same claim, rename and completion as methods on session objects, and `UploadRefinement` shows that they are the
protocol's; `UploadExamples` has runs that reach what the theorems leave open. `UploadLoop` is the retry loop, `KeyedLocks` the per-key
mutexes, `ObjectKeys` the escape names, `Companion` the .mp4 timeline, `Manifest` the metadata's trip through headers.

**The ADTS byte layer.** `AdtsHeader`, `Splitter` (module Splitting), `Scan` (Scanning), `ScanRuns` (RunScanning), `SplitterRefinesScan`,
`TailRepair` and `Id3` work on arbitrary bytes; `EncodedAudio` has the encoder's side of a header and the playing time. The header is that
of section 6.2 of ISO/IEC 13818-7, tags follow sections 3.1, 3.4 and 6.2 of the ID3v2.4.0 structure document. Files are sequences of bytes;
playback time is an exact rational.

**Capture and attribution.** `Capture` (Capturing) and `CaptureRuns` follow the capture writer through any sequence of ffmpeg runs,
`Session` (SessionRecord) and `RunTable` the capped run history and run table, `Measure` (Measuring) the re-measurement before an upload,
`Attribution` the decision whether video, codec or source is to blame, `Doubling` the waits.

Code that changes fields step by step is a class or a method with loops, proved equal to a function on values; the lemmas are about those
functions. The protocol is modelled on values because its point is the interleaving of steps of several processes; its local moves are the
methods of `UploadGroups`, `Measuring` and `KeyedLocks`.

Results about the code that differ from what its comments suggest:

- A video fault that empties exactly the runs with video is not always found by the fourth run: an error line in the deciding run clears
  the suspicion and starts the count over (`Attribution.FourthRunExactly`), and a fault that alternates is never found
  (`Attribution.EvasiveFaultIsNeverFound`). An outage that begins right after a trial with audio turns video off
  (`Attribution.OutageExactly`).
- The tail repair is exact when its window covers the file. In a longer file a payload that spells frames can make it remove whole frames
  (`TailRepair.RemnantCanMislead`, `TailRepair.RemnantDoesMislead`); it is exact precisely when it is safe
  (`TailRepair.TrimIsExactWhenSafe`), and so is a capture (`CaptureRuns.CaptureStaysExact`) and what reaches the bucket of it
  (`UploadSafety.AudioIsNeverLost`, `UploadSafety.SafeRunsCutNothing`).
- The 20-part cap is tested only when an object exists, so a first object may hold any number (`UploadExamples.FirstObjectHoldsAll`);
  no merge leaves more than 20 (`UploadSafety.NoLostUpdate`), so an object over the cap is as it was first created
  (`UploadSafety.OverTheCapIsAsCreated`).
- A header holds 113 digests (`Manifest.RoundTrip`), so a larger first object does not list everybody it holds. No audio is lost by that
  (`UploadSafety.AudioIsNeverLost`), but captures go that no manifest lists (`UploadExamples.TooManyAreUnlisted`); with 114 the last session
  is unnamed, and with more the manifest contradicts itself, so a retry fails and the key is blocked for good
  (`UploadExamples.TooManyAreBlocked`, `UploadConvergence.BrokenBlocks`). Up to 113 sessions in a first object, which its builder can test,
  "capture or listed" holds (`UploadConvergence.CaptureOrListed`).
- A session is in one object at most once but may be in two objects (`UploadExamples.SessionInTwoObjects`): only a move to another key, the
  raw fallback or a request applied after such a move (`UploadExamples.LateRequestStrays`) does that
  (`UploadSafety.SecondObjectNeedsAMove`).
- A session without audio can be left finalized without an upload loop (`UploadExamples.EmptyIsStranded`), because a loop may hold the lock
  of a name its group has left; one with audio cannot (`UploadQueue.NothingIsGivenUp`).
- Two attempts of one recorder can have the same session (`UploadExamples.TwoAttemptsShare`), but only while one of them completes a raw
  fallback (`UploadSafety.SharingNeedsTheFallback`).
- A recording id comes back from metadata exactly when it is printable ASCII, trimmed and at most 1024 bytes (`Manifest.RoundTrip`). A
  recording with any other id does not find its own object again: the retry after a lost reply is renamed away
  (`UploadConvergence.RetryConvergesExactly`, `UploadConvergence.PlainIdsConverge`).

Assumptions of the protocol: the store enforces If-Match and If-None-Match (sections 13.1.1 and 13.1.2 of RFC 9110), gives every stored
object a new ETag and applies a request at most once, but no matter how late; an object of the same size under the key is the same upload;
building and extracting an object keep its frames and their order; a tail repair only takes bytes off the end; the sidecar writes that end a
recording succeed (finalize, and recovery where it supersedes a capture). All other sidecar writes may fail. Session ids and their digests
are unique across recorders: the code does not give that, for an id is the recording's safe name and a stamp in whole seconds that one
manager makes unique among its own (internal/recorder/manager.go:579-585), and a digest is 32 bits of its hash. Recording ids are not empty.
Where the recording id matters, ids are taken to stay as they are once metadata has rendered them (`Manifest.HeaderIsStable`); the theorems
that need it say so.

## Model

| member | source | states |
|---|---|---|
| UploadSafety.AudioIsNeverLost | internal/recorder/upload.go:262-547 | over every run of any number of recorders, with a crash possible between any two steps and recovery after it, and requests that the store applies late: a session that has captured audio keeps its capture file or has a part of an object; and all of it is there, in that file or whole in that object behind the parts before it, unless a tail repair that was not safe had been at the capture |
| UploadSafety.SafeRunsCutNothing | internal/recorder/ffmpeg.go:1451-1466 | a session whose tail repairs, on resuming, between runs and before an upload, all leave its whole frames is never counted as cut, so the second half of AudioIsNeverLost holds of it; which repairs those are is TailRepair.TrimIsExactWhenSafe |
| UploadSafety.NoLostUpdate | internal/recorder/upload.go:527-537 | successive objects under one key form a chain: each is the one before with sessions and audio appended behind, with at most 20 sessions after a merge; an object that is not the recorder's never changes |
| UploadSafety.ObjectsKeepTheirRecording | internal/recorder/upload.go:299-302 | the object under a key carries the same recording id for ever, when ids that have been through metadata do not change any more |
| UploadSafety.OverTheCapIsAsCreated | internal/recorder/upload.go:326-329 | an object with more than 20 sessions is exactly the object as it was first created |
| UploadSafety.SecondObjectNeedsAMove | internal/recorder/upload.go:1317-1343 | over any further steps a session gets into an object under no key but the one it has, as long as that stays, no raw fallback stores it and no late request puts it elsewhere; so a second object needs a move to another key, the fallback or a request applied after the move |
| UploadSafety.OnceListedStaysListed | internal/recorder/manager.go:28-55 | a session listed under a key stays listed there whatever else happens |
| UploadSafety.ManifestsAreTrue | internal/recorder/objectmeta.go:80-116 | every object the recorders wrote, after every run: its content is a part per session, none twice, in the order of whole-second starts, exactly the session's audio unless it was cut; its manifest names the sessions up to the 113th in that order, `parts` counts them all, `last-session-start` is the last one's and the id that of all of them as metadata renders it (for ids that stay as they are once rendered); beyond 114 sessions it is contradictory; and no other object has a manifest |
| UploadSafety.UploadedMeansHeld | internal/recorder/session.go:233-240 | what memory and sidecar say is true: MediaUploaded implies that the object under Key holds the session, and its metadata lists it if and only if there are at most 114 sessions and it is not the 114th; KeyRenames never exceeds 3 |
| UploadSafety.ListedExactly | internal/storage/s3.go:686-724 | a session whose audio an object holds is listed by its metadata if and only if the list as it reads back still names it |
| UploadSafety.GroupsStayDisjoint | internal/recorder/upload.go:553-591 | attempts that run at once never share a session, from claim to the last removal, while each has its lock on the key it stores under |
| UploadSafety.SharingNeedsTheFallback | internal/recorder/upload.go:1060-1149 | the only exception: two attempts of one recorder share a session only while one of them completes a raw fallback, whose key its lock is not on; attempts of different recorders never do |
| UploadConvergence.CaptureOrListed | internal/recorder/upload.go:330-335 | over every run in which no first object is stored of more than 113 sessions: a session that has captured audio keeps its capture file or is listed |
| UploadConvergence.FittingRunsAreReachable | internal/recorder/upload.go:326-335 | in such a run no object and no late request ever holds more than 113 sessions, so none is beyond the reach of its list |
| UploadConvergence.ListAsParsed | internal/recorder/upload.go:759-786 | the protocol's cut list is the one that parseRemoteObject reads out of the header: as many entries as the count exactly up to 114 sessions, and a session's digest among them exactly when it is one of the first 113 |
| UploadConvergence.ListedGroupConverges | internal/recorder/upload.go:355-367 | an attempt whose members are all listed already, in an object whose id reads as the recording's, uploads nothing and completes them all |
| UploadConvergence.RetryConvergesExactly | internal/recorder/upload.go:280-336 | after any run, the retry of a group whose members are all in the object under its key converges if and only if the recording id comes back from metadata as it is and the list still names every member; otherwise, by what comes first: more than 114 sessions and it fails, another id or an unnamed member with its capture and the group is renamed, an unnamed member without and that one is parked |
| UploadConvergence.BrokenBlocks | internal/recorder/upload.go:289-299 | an object with a contradictory manifest never changes again, and every attempt that looks at it fails |
| UploadConvergence.PlainIdsConverge | internal/storage/s3.go:742-769 | with the metadata the recorder writes, an id comes back as it is exactly when it is printable ASCII, without surrounding spaces and of at most 1024 bytes |
| UploadSafety.HistoryGrows | internal/recorder/ffmpeg.go:177-194 | the history against which loss is measured only grows, over every run |
| UploadSafety.CarriesOverRuns | internal/recorder/upload.go:835-848 | over every run objects only grow, and a session that stopped recording never records again and keeps its audio |
| UploadSafety.Always | internal/recorder/upload.go:262-547 | the whole invariant (true manifests, audio kept, true sidecars, one attempt per recorder and key, every attempt's plan valid) holds after every run |
| UploadSafety.StepKeeps | internal/recorder/upload.go:262-547 | one step of any kind keeps the invariant and only extends objects |
| UploadSafety.HeldIsWhole | internal/recorder/upload.go:835-874 | the audio of a session that an object holds is in it whole, behind the audio of those before it |
| UploadSessions.GroupsAreDisjoint | internal/recorder/upload.go:130-148 | the keyed lock and the key held by every claimed session make the groups of two such attempts disjoint |
| UploadSteps.BuildIsExact | internal/recorder/upload.go:835-848 | a download whose If-Match held gives the object the HEAD classified, so what is built is its audio followed by the new sessions' |
| UploadSteps.MergedObjectIsGood | internal/recorder/objectmeta.go:80-116 | summarize after a merge: no session twice, order by whole-second start kept, everybody named and counted, the object extended |
| UploadSteps.FirstObjectIsGood | internal/recorder/objectmeta.go:80-116 | summarize for a first object, of any number of sessions: the manifest is true as far as the list reaches |
| UploadSteps.LatestIsLast | internal/recorder/objectmeta.go:409-414 | the latest start, folded over sessions in capture order that are not older than the object's last one, is the last one's |
| UploadSteps.LatestIsTheLatest | internal/recorder/objectmeta.go:409-414 | in whatever order, it is the latest of them all |
| UploadSteps.PutKeeps | internal/recorder/upload.go:1158-1186 | PUT, under the key or raw under the fallback's, with or without its reply arriving: accepted only where nothing is or on exactly the snapshot, otherwise nothing changes; the invariant stays |
| UploadSteps.LandKeeps | internal/recorder/upload.go:1158-1186 | a request the store applies after its attempt timed out, was cancelled or crashed keeps the invariant: it finds its place taken, or writes a good object |
| UploadSteps.SentIsGood | internal/recorder/upload.go:1060-1149 | whatever an attempt sends, merged, first or raw, would write a true manifest over exactly its sessions' audio, and is accepted on nothing but the object it was built from |
| UploadSteps.VerifyStep | internal/recorder/upload.go:1171-1180 | after a replacing PUT only an object that still has the new ETag completes the group |
| UploadSteps.MeasureStep | internal/recorder/upload.go:337-352 | members without a frame are dropped from the plan and parked, the rest stays a valid plan |
| UploadSteps.JudgePlans | internal/recorder/upload.go:280-336 | a HEAD that lets the attempt go on leaves a valid plan: what is to be added may follow the stored sessions and fits, and whoever is to be parked is a member |
| UploadProgress.HeadDecides | internal/recorder/upload.go:280-336 | over all states that can be reached: nothing there, all is to be added; a contradictory object, the attempt fails; somebody else's or another recording's, the group is moved; its own, the attempt merges, with exactly the unlisted members that have a capture to add, if and only if none of them starts before the last listed session, to the second, and the listed parts and they are at most 20 or there are none to add; otherwise the group is moved, the lost members parked first |
| UploadProgress.RefusedMoves | internal/recorder/upload.go:311-329 | a refused group parks its lost members one by one, nothing else changing, and is then moved |
| UploadProgress.AttemptSucceeds | internal/recorder/upload.go:262-547 | from any state: an attempt that may claim its group, whose members all have a capture with a frame and may be stored under their key, and that nothing disturbs, makes the object grow by exactly their audio in capture order with the manifest of the merge, marks them all uploaded in memory and in their sidecars, removes their captures, ends its loop, and changes nothing else |
| UploadProgress.CompletionEnds | internal/recorder/upload.go:1285-1316 | a sidecar that cannot be written keeps its capture and the attempt goes on with the next; the loop ends for good exactly when none failed |
| UploadProgress.EqualObjectCompletes | internal/storage/s3.go:195-206 | a create-only PUT that finds its own object there completes like one that stores it |
| UploadProgress.RawFallbackConverges | internal/recorder/upload.go:1096-1110 | a raw fallback that lists all of the group already is not written again, and the group completes |
| UploadProgress.SuccessorInherits | internal/recorder/manager.go:532-550 | a session that follows another of its recording goes on under its key and with its count of renames |
| UploadSessions.RenamedKeeps | internal/recorder/upload.go:1317-1343 | moving a group, or failing to at the limit, keeps every promise, whichever sidecars could be rewritten |
| UploadSessions.HeadRawKeeps | internal/recorder/upload.go:1089-1110 | the fallback key is classified before anything is written to it: free, already ours with all sessions, or renamed away |
| UploadSessions.CompleteKeeps | internal/recorder/upload.go:1249-1283 | marking members uploaded under the target key keeps the invariant, because the object holds them |
| UploadSessions.WriteCardKeeps | internal/recorder/upload.go:1285-1296 | a sidecar says uploaded only of a session the object holds; a failed write keeps the capture |
| UploadSessions.RemoveKeeps | internal/recorder/upload.go:1296-1306 | a capture is removed only when the object holds its audio |
| UploadSessions.RetryKeeps | internal/recorder/upload.go:199-219 | the retry path may overwrite any state it finds and nothing is lost |
| UploadSessions.ClaimKeeps | internal/recorder/upload.go:553-591 | claiming marks exactly the waiting sessions of the object while no sibling records and no attempt of this recorder holds the key |
| UploadRecovery.RecoverKeeps | internal/recorder/manager.go:741-825 | taking in the sidecars after a crash keeps the invariant, whichever captures resume, keys are migrated and sidecars can be rewritten |
| UploadQueue.RecoveryQueues | internal/recorder/manager.go:751-825 | after recovery exactly these wait for their upload: sessions that were finalized or uploading, that were uploaded but still have their capture, and that were recording and are not resumed; the others are as their sidecars say, and so are names, counters and what is known to be stored, but for keys that are migrated |
| UploadQueue.NothingIsGivenUp | internal/recorder/upload.go:117-238 | over every run: a session in memory whose capture has a frame is being recorded, or waits for an upload with a loop that waits, works or will try again, or is stored in the object under its key; it is never parked as failed |
| UploadQueue.AlwaysQueued | internal/recorder/upload.go:117-238 | the invariant behind it holds after every run: nobody with audio is dropped from a plan, parked, or left by a loop that ends |
| UploadExamples.EmptyIsStranded | internal/recorder/upload.go:553-560 | a session without audio can be left finalized without a loop: parked by a sibling's attempt, its own loop, with the lock of a name the group has left, finds it so and ends, and then the group is moved |
| UploadRecovery.CrashKeeps | internal/recorder/manager.go:741-825 | losing a recorder's memory and attempts between any two steps loses nothing durable |
| UploadRecovery.RetainKeeps | internal/recorder/manager.go:1014-1059 | retention forgets only sessions whose audio is stored or that never had any |
| UploadSafety.SidecarComesFirst | internal/recorder/upload.go:1285-1296 | an attempt comes to remove a capture only by writing that session's sidecar, which then says uploaded under the object's key |
| UploadSafety.CapturesGoOnlyBy | internal/recorder/upload.go:1296-1300 | the only steps that take a capture away are that removal and retention of a failed session without data |
| UploadGroups.ClaimGroup | internal/recorder/upload.go:553-591 | on session objects: terminal, key changed, deferred or claimed, in that order; the group is exactly the waiting sessions of the object in capture order, and only their state changes |
| UploadGroups.RenameGroup | internal/recorder/upload.go:1317-1343 | the whole group moves to one longer key with the same extension, forgets what it knew of the old object and counts the rename, at most three times; at the limit nothing changes |
| UploadGroups.CompleteGroup | internal/recorder/upload.go:1242-1283 | every member is uploaded under the given key, its counters and runs intact |
| UploadGroups.InsertKeeps | internal/recorder/upload.go:582-582 | inserting by start keeps capture order and distinctness |
| UploadRefinement.Claim | internal/recorder/upload.go:553-591 | claimGroup on session objects is the protocol's claim: same group in the same order, same marking, deferred and terminal only where the protocol refuses; only the lock is left to the caller |
| UploadRefinement.Rename | internal/recorder/upload.go:1317-1343 | renameGroup on session objects is the protocol's move: same key, same counters, same limit, same MediaUploaded |
| UploadRefinement.Complete | internal/recorder/upload.go:1242-1283 | completeGroup on session objects is the protocol's completion |
| UploadRefinement.LockGivesTheGuard | internal/recorder/locks.go:23-46 | a goroutine that holds the key's mutex, while every attempt holds its own key's, meets the guard of the claim: no other attempt of the recorder runs under the key |
| UploadExamples.FirstObjectHoldsAll | internal/recorder/upload.go:326-335 | for every n there is a run after which the first object under a key holds n sessions: the cap is no limit for it. Its manifest names all of them up to 113, 113 of 114, and is contradictory beyond |
| UploadExamples.GrowsToTheCap | internal/recorder/upload.go:326-329 | for every n up to 20 a run in which n sessions are uploaded one attempt each: one object holds and lists them all, in order, a part each, all are uploaded and their captures removed |
| UploadExamples.TwentyFirstMoves | internal/recorder/upload.go:326-329 | the twenty-first is moved to the next name, and the object stays as it is |
| UploadExamples.LateRequestStrays | internal/recorder/upload.go:1158-1168 | a run in which a request that its attempt had given up is applied after the group was moved and stored elsewhere: a session is in two objects |
| UploadExamples.UnsafeRepairCuts | internal/recorder/ffmpeg.go:1451-1466 | a run in which a repair costs a frame: what AudioIsNeverLost excepts does happen |
| UploadExamples.TooManyAreBlocked | internal/recorder/upload.go:289-299 | for every n above 114 a run, a lost reply and a retry, after which the object holds all n sessions, lists none, and the next attempt has failed: all captures are still there |
| UploadExamples.TooManyAreUnlisted | internal/recorder/upload.go:326-335 | for every n above 114 a run in which everything goes well and every capture is removed although no object lists any of the sessions |
| UploadExamples.SessionInTwoObjects | internal/recorder/upload.go:1317-1343 | a run after which a session is listed under two keys: reply lost, next attempt renamed, everything stored again |
| UploadExamples.TwoAttemptsShare | internal/recorder/upload.go:199-219 | a run after which two attempts of one recorder have the same session: raw fallback, and a member's retry that marks it for another upload before it is removed |
| UploadLoop.Run | internal/recorder/upload.go:108-238 | the loop's attempts and waits are exactly those of the specification, for every sequence of outcomes |
| UploadLoop.AtMostFourAttempts | internal/recorder/upload.go:185-196 | among any five consecutive events there is a wait, whatever the outcomes |
| UploadLoop.WaitsDoubleUpToTheCap | internal/recorder/upload.go:108-115 | the k-th failure wait is min(cap, first * 2^k); deferrals and blocked attempts between do not make it grow |
| UploadLoop.EndsOnlyWhenDone | internal/recorder/upload.go:117-238 | only success, a cancellation or a deferral during shutdown ends the loop: it sees every outcome up to the first of these |
| UploadLoop.WaitsAsTheOutcomeSays | internal/recorder/upload.go:160-238 | what follows each attempt: a failure is followed by a backoff wait, a blocked upload by 15 minutes, a deferral by 30 seconds, and one that found object or key changed by another attempt at once, but for the fourth in a row, which waits |
| ObjectKeys.RenamesNeverReturn | internal/recorder/session.go:546-552 | along any chain of renames keys get strictly longer, so a group never returns to a key it left, and the extension stays |
| ObjectKeys.SuffixKeepsExt | internal/recorder/session.go:546-552 | a suffix without dot or slash leaves the extension as it was, for keys with or without one |
| ObjectKeys.SuffixGoesBeforeExt | internal/recorder/session.go:544-552 | directory and stem stay in front of the suffix and the extension behind it, for names with or without an extension |
| ObjectKeys.EscapeNames | internal/recorder/upload.go:1330-1331 | the names a group escapes to: -2 in front of the extension, then -3, the number being the count of renames plus two |
| ObjectKeys.FallbackNames | internal/recorder/upload.go:1089-1089 | .aac in place of .m4a, or behind a name that does not end so |
| KeyedLocks.MutualExclusion | internal/recorder/locks.go:23-46 | under every interleaving of the four parts of lock and unlock at most one thread holds a key |
| KeyedLocks.ContendersShare | internal/recorder/locks.go:26-36 | every registered thread of a key shares its one record, whose counter is exactly their number |
| KeyedLocks.IdleIsEmpty | internal/recorder/locks.go:38-45 | an idle system has an empty table |
| KeyedLocks.NeverStuck | internal/recorder/locks.go:36-45 | a thread that cannot go on waits for a mutex that another thread of the same key holds |
| KeyedLocks.Always | internal/recorder/locks.go:23-46 | the invariant of the table holds after every interleaving |
| KeyedLocks.Table.Register | internal/recorder/locks.go:24-34 | finds or makes the key's record and registers the thread, the rest unchanged |
| KeyedLocks.Table.Deregister | internal/recorder/locks.go:38-45 | takes the thread off and removes the entry with the last one |
| Companion.HeadVideo | internal/recorder/upload.go:1433-1479 | conflict exactly for another recording's object; reuse exactly when the stored list is the target; extension exactly when a real picture holds the stored sessions and a first part of the new ones, and then behind exactly that part |
| Companion.CompanionSegments | internal/recorder/upload.go:1628-1657 | whichever piece comes first, the stored picture, the stored audio or none, the segments handed to the build exist and show each session of the target manifest once, in its order |
| Companion.TimelineFollowsManifest | internal/recorder/upload.go:1664-1724 | behind any first piece the new sessions follow one another on the timeline exactly as listed |
| Companion.EveryRunOnce | internal/recorder/upload.go:1670-1718 | on the timeline of any sessions: a session without pictures is one piece, all of it; in one with pictures a run that has some is shown by exactly its TS files that are there, in order, and by no audio, a run that has none is heard in one piece, its own byte range for as long as was measured, and one in which nothing decodes not at all |
| Companion.EveryByteOnce | internal/recorder/upload.go:1693-1718 | every byte of a session with pictures is heard in exactly one piece, that of its run, when the run has audio and no pictures, and in none otherwise, for adjacent runs |
| Companion.CutsAscend | internal/recorder/upload.go:1693-1718 | a session's pieces of audio come in the order of its runs and do not overlap |
| Companion.FilesThereInOrder | internal/recorder/upload.go:1680-1686 | the existing files of a run are all of its names that are there, in their order |
| Companion.VideoSegments | internal/recorder/upload.go:1664-1724 | the loops build that timeline, an empty one being an error |
| Companion.FindTs | internal/recorder/upload.go:1677-1688 | finds per run the TS files that are there and not empty |
| Manifest.RoundTrip | internal/storage/s3.go:686-724 | sanitising then parsing, whatever the other entries are and for any number of digests (ASCII id not emptied): up to 113 the list and count come back; with 114 the last digest has lost a digit although the count agrees; with more the count contradicts the list, which blocks the object. The id comes back exactly when it is printable, without surrounding spaces and at most 1024 bytes; the whole is within max(1800, reserved entries) |
| Manifest.PlainIdsExactly | internal/recorder/upload.go:759-786 | a recording id reads back as itself exactly when it is plain |
| Manifest.HeaderIsStable | internal/storage/s3.go:742-769 | an id that has been written and read once does not change when it is written and read again |
| Manifest.SanitizeMetadata | internal/storage/s3.go:686-724 | nothing is made up, no reserved value that survives cleaning is dropped, the total size is within 1800 or that of the reserved entries alone, and any other entry that is missing would not fit into the 1800 |
| Manifest.EntryStays | internal/storage/s3.go:699-718 | an ASCII value goes out as it is exactly if printable, trimmed and within 1024 bytes for the keys merging needs, 256 for the others |
| Manifest.ManifestKeysArrive | internal/storage/s3.go:686-724 | id, list, count and last start arrive whatever else there is, unless cleaning leaves nothing of them |
| Manifest.SanitizedKeyIsPlain | internal/storage/s3.go:726-737 | a cleaned key is plain or empty: the mapped key without the dashes around it |
| Manifest.KeysAreMapped | internal/storage/s3.go:726-737 | keys are mapped character by character: lower case, digits and dashes stay, underscore, space and dot become dashes, the rest goes |
| Manifest.StrippedInOrder | internal/storage/s3.go:742-752 | exactly the control characters are stripped |
| Manifest.Pass | internal/storage/s3.go:699-721 | one pass keeps what was there, counts sizes right, and only the reserved pass may exceed the budget |
| Manifest.SanitizeValue | internal/storage/s3.go:742-769 | strips, trims and cuts at a character boundary, to max bytes; of a non-ASCII value the encoding of a prefix of that, which is at most 2 * max bytes long or encodes at most 8 bytes |
| Manifest.AsciiValueStays | internal/storage/s3.go:742-769 | an ASCII value is unchanged exactly when printable, without surrounding spaces and within the limit |
| Manifest.Truncated | internal/storage/s3.go:771-780 | the longest prefix of whole characters within the byte limit |
| Manifest.PlainKeysDoNotCollide | internal/storage/s3.go:726-737 | the recorder's own keys are left as they are, so none turns into a reserved name |
| Manifest.ParseRemoteObject | internal/recorder/upload.go:759-786 | foreign exactly when id or list is missing; otherwise consistent only when the count is a number that equals the list's length |
| Strings.DigestsOfJoin | internal/recorder/upload.go:1506-1514 | reading a joined digest list gives the list back |
| Strings.NonEmptyInOrder | internal/recorder/upload.go:1506-1514 | a list is read element by element, each trimmed, the empty ones left out |
| Strings.TrimSpaceIs | internal/recorder/upload.go:759-760 | exactly the surrounding spaces go |
| AdtsHeader.HeaderIsLocal | internal/adts/adts.go:213-225 | a header decision depends on its seven bytes only |
| AdtsHeader.PrefixOfHeader | internal/adts/adts.go:229-243 | the prefix test accepts every prefix of a real header |
| EncodedAudio.HeaderRoundTrip | internal/adts/duration.go:16-32 | whatever an encoder writes into the 56 bits of a header, profile, rate in Hz, channels, blocks, length and all the fields the decoder skips, is decoded to just that, whatever follows |
| EncodedAudio.AcceptedIsEncoded | internal/adts/adts.go:213-225 | and every header the decoder accepts is one an encoder can write: the encoding of its own fields |
| EncodedAudio.FrequenciesAreOctaves | internal/adts/duration.go:14-16 | the table of frequencies: octaves of 48, 44.1 and 32 kHz, descending, and 7350 Hz |
| EncodedAudio.ScanOfWholeFrames | internal/adts/duration.go:167-259 | a scan of whole frames and a strict prefix of one counts every frame at its place and nothing else, the prefix as junk |
| EncodedAudio.TagIsSkipped | internal/adts/duration.go:185-210 | a tag is stepped over as a whole and what follows has to be trusted anew |
| EncodedAudio.PlayingTime | internal/adts/duration.go:158-165 | n frames of b blocks at r Hz play for exactly 1024 * b * n / r seconds |
| EncodedAudio.EightSeconds | internal/adts/duration.go:158-165 | 375 frames of one block at 48 kHz play for exactly eight |
| Splitting.AnyChunking | internal/adts/splitter.go:72-80 | for every way of cutting the input into Feed calls: the same frames at the same offsets, the same buffer and sync state as one Feed |
| Splitting.DrainInTwo | internal/adts/splitter.go:107-201 | draining what arrived and then the rest is draining everything at once |
| Splitting.DrainConserves | internal/adts/splitter.go:107-201 | what is handed out plus the buffer is the input, in order |
| Splitting.FramesAreWhole | internal/adts/splitter.go:107-201 | every emitted frame is a whole frame with its own header |
| Splitting.FlushPassesEverything | internal/adts/splitter.go:84-88 | fed and flushed, every input byte was passed through exactly once and nothing is buffered |
| Splitting.Splitter.Feed | internal/adts/splitter.go:72-80 | hands out exactly what draining buffer plus input gives, and keeps the rest |
| Splitting.Splitter.Flush | internal/adts/splitter.go:84-88 | hands the rest out as junk and is empty |
| Splitting.Splitter.Process | internal/adts/splitter.go:107-201 | the loop terminates and equals its specification |
| Splitting.Splitter.SkipJunk | internal/adts/splitter.go:96-105 | takes the junk run up to the next byte that may begin a frame or tag |
| SplitterRefinesScan.FedFramesAreScanned | internal/adts/duration.go:167-259 | whatever the chunking, the emitted frames are an initial segment of those a scan counts, and the scan finds the others in the buffer |
| Scanning.ScanConserves | internal/adts/duration.go:167-259 | junk, tag bytes and frame lengths tile any file |
| Scanning.OnlyTrustedFrames | internal/adts/duration.go:167-259 | only frames that follow a frame, are followed by a valid header or end the file are counted |
| Scanning.ChunksPartition | internal/adts/duration.go:87-125 | chunks tile the file, hold each frame under its own parameters, neighbours differ, and there are several exactly when some frame differs from the first |
| Scanning.Scan | internal/adts/duration.go:167-259 | the loop reports exactly what its specification says |
| Scanning.ReportIsExact | internal/adts/duration.go:158-165 | a report accounts for every byte and ParamsChanged says whether parameters changed |
| Scanning.ChunkList.Frame | internal/adts/duration.go:94-107 | counts the frame in the open chunk or opens a new one |
| RunScanning.RunOfIsTheRun | internal/adts/duration.go:281-300 | each position lies in exactly one run, the one the lookup gives |
| RunScanning.IdxFor | internal/adts/duration.go:298-303 | the forward-only cursor equals the declarative lookup |
| RunScanning.RunsSumToScan | internal/adts/duration.go:281-412 | for any ascending offsets the runs' counters sum to the scan's |
| RunScanning.OneRunIsTheScan | internal/adts/duration.go:281-412 | with one run, recorded or implicit, the run's report is the plain scan's, parameters included |
| RunScanning.DeletingAnOffsetMergesRuns | internal/adts/duration.go:281-412 | deleting one inner offset adds exactly the two neighbouring runs together and leaves the others |
| RunScanning.ScanRuns | internal/adts/duration.go:281-412 | per-run reports as specified, and totals with chunks that are those of the plain scan |
| TailRepair.WholeFileCutIsExact | internal/adts/adts.go:116-190 | for one or more frames with any payload and a strict prefix of one, the cut is the last frame boundary |
| TailRepair.TrimIsExactWhenSafe | internal/adts/adts.go:61-104 | for a file of whole frames, of any size and payload, and a strict prefix of one: trimming leaves exactly the whole frames if and only if the repair is safe, that is, the earliest trusted chain in the window joins a frame boundary of the file |
| TailRepair.TrimIsExact | internal/adts/adts.go:61-104 | such a repair is always safe when the window covers the file: trimming leaves the whole frames, and trimming again changes nothing |
| TailRepair.TrimLeavesSomething | internal/adts/adts.go:77-104 | whatever the bytes, a file is never trimmed to nothing |
| TailRepair.WindowedCut | internal/adts/adts.go:116-141 | any bytes, three whole frames or more and a strict prefix of one: a chain is found no later than at the first boundary, and the cut is exact if and only if the earliest trusted chain in the leading bytes, if any, joins a boundary |
| TailRepair.CutNeedsThreeFrames | internal/adts/adts.go:116-141 | a repair goes by no chain of less than three whole frames, one if it starts the file, from a sync word on |
| TailRepair.RemnantCanMislead | internal/adts/adts.go:61-104 | for every file over 256 KiB of whole frames in which the window begins behind the header of one certain frame: trimming cuts inside that frame and removes every whole frame behind it |
| TailRepair.RemnantDoesMislead | internal/adts/adts.go:61-104 | there are such files: that frame behind any whole frames, 37444 frames of seven bytes and five bytes of one more |
| TailRepair.ScanTail | internal/adts/adts.go:116-141 | the search loop equals its specification and stays within the tail |
| TailRepair.Walk | internal/adts/adts.go:148-190 | the chain loop equals its specification |
| Id3.TagParseRoundTrip | internal/id3/id3.go:126-172 | Parse(Tag(fs)) is fs exactly when every ID is four bytes long and does not start with zero, for bodies under 2^28 bytes |
| Id3.TagLenOfTag | internal/id3/id3.go:100-120 | TagLen measures what Tag wrote |
| Id3.SyncsafeRoundTrip | internal/id3/id3.go:175-187 | desyncsafe undoes syncsafe below 2^28 and every byte stays under 0x80 |
| Id3.Tag | internal/id3/id3.go:77-95 | the loop writes the header and the frames of its specification |
| Id3.Parse | internal/id3/id3.go:126-172 | the loop reads as specified, errors included |
| Id3.TagLenIsLocal | internal/id3/id3.go:100-120 | a tag length depends on its ten bytes only |
| CaptureRuns.CaptureIsExact | internal/recorder/ffmpeg.go:132-300 | over any runs, of any total size, that each produced at least two whole frames and a strict prefix of one and whose repairs are safe: the trimmed file is the concatenation of all whole frames, the records tile it, and bytes, frames and playback time add up |
| CaptureRuns.CaptureStaysExact | internal/recorder/ffmpeg.go:1105-1372 | and if and only if they are all safe is the trimmed file all whole frames after every run |
| CaptureRuns.OneRunIsExact | internal/recorder/ffmpeg.go:246-300 | one such run onto a file of whole frames of any size records exactly its whole frames, and trimming leaves exactly all whole frames if and only if it is safe |
| CaptureRuns.OneRunIsFaithful | internal/recorder/ffmpeg.go:177-194 | for any output in any chunks the file grows by what ffmpeg wrote up to the first byte the disk refused, and a run leaves one closed record exactly when it had a frame |
| CaptureRuns.AnchorStamped | internal/recorder/ffmpeg.go:147-168 | a wallclock run is anchored at the arrival of its first frame, another keeps its anchor |
| CaptureRuns.RunAll | internal/recorder/ffmpeg.go:1105-1372 | the capture loop on the mutable writer equals the specification the lemmas are about |
| Capturing.Capture.Write | internal/recorder/ffmpeg.go:132-143 | passes on exactly what the splitter hands out |
| Capturing.Capture.EndRun | internal/recorder/ffmpeg.go:246-300 | closes the record with what was counted before the flush; a second call changes nothing |
| Capturing.Capture.TrimTail | internal/recorder/ffmpeg.go:1451-1466 | trims the file and keeps the byte counter its length |
| Capturing.Capture.WriteRaw | internal/recorder/ffmpeg.go:177-194 | writes what the disk takes and nothing after an error |
| SessionRecord.AppendedConserves | internal/recorder/session.go:445-477 | at most 2000 records, bytes, frames and time kept, ranges still adjacent, the new run never merged, the first position and clock kept |
| SessionRecord.AppendedKeepsVideoWhole | internal/recorder/session.go:445-477 | a merged record never lists only one half's TS files |
| SessionRecord.AppendedSpans | internal/recorder/session.go:445-477 | exactly when the history is full two neighbours, never the new run, become one record, which begins with the first, ends with the later end of the two if either is known, and holds what both hold |
| SessionRecord.Session.AppendRun | internal/recorder/session.go:445-477 | the loop picks the pair of the specification and reports the first coalescing |
| SessionRecord.Session.SetKey | internal/recorder/session.go:233-240 | a changed key forgets MediaUploaded and ETag, the same key keeps them |
| SessionRecord.Session.FixOpenRun | internal/recorder/session.go:492-505 | closes only an open run, at the suspend time when known, with the bytes up to the file size |
| RunTable.CappedKeepsTheMap | internal/recorder/objectmeta.go:325-344 | at most 500 entries, total duration, first position and clock and an unchanged suffix kept |
| RunTable.CappedIsIdempotent | internal/recorder/objectmeta.go:325-344 | capping a capped table changes nothing |
| RunTable.CappedExactly | internal/recorder/objectmeta.go:325-344 | over the cap the leading entries become one, up to the first place from where the rest fits that does not tear the first entry's session apart, and no others |
| RunTable.EveryMemberIsMapped | internal/recorder/objectmeta.go:287-319 | the added sessions follow one another in the table, each mapped from where the ones before it end |
| RunTable.EveryRunIsMapped | internal/recorder/objectmeta.go:287-319 | every run has its entry: its clock, anchor source and duration, at the position where it begins |
| RunTable.TableOfMergedObject | internal/recorder/objectmeta.go:287-319 | after a merge the table is one continuous map of the whole object |
| RunTable.BuildRunTable | internal/recorder/objectmeta.go:287-319 | the loops build the stored table followed by the added sessions', capped |
| RunTable.CapRunTable | internal/recorder/objectmeta.go:325-344 | the loop terminates and equals its specification |
| Measuring.Measure | internal/recorder/upload.go:626-687 | trims, scans by run and rewrites the records from what is in the file |
| Measuring.MeasuredAccountsForTheFile | internal/recorder/upload.go:660-682 | after measuring the records are adjacent up to the end of the file and hold all frames and time the scan finds |
| Attribution.VideoOffIsEarned | internal/recorder/ffmpeg.go:1240-1313 | over all traces, from any decisions of an earlier session or before a crash, video is turned off only by a run that failed with an active video output, at least the second such run |
| Attribution.OutageKeepsVideo | internal/recorder/ffmpeg.go:1295-1313 | after any runs that left no suspicion, an outage never turns video off, however long it lasts |
| Attribution.OutageExactly | internal/recorder/ffmpeg.go:1295-1313 | after any runs, an outage turns video off if and only if it begins under suspicion, a trial having just produced audio, and has a run with video |
| Attribution.SilentFaultIsFoundByTheFourthRun | internal/recorder/ffmpeg.go:1240-1323 | a fault that empties exactly the runs with video and names nothing turns it off by the fourth run, whatever came before |
| Attribution.FourthRunExactly | internal/recorder/ffmpeg.go:1240-1323 | with error lines allowed and after any runs: off after four runs of a fault exactly for the patterns of lines FoundByTheFourth gives, by what is suspected when it begins; from a clean state, when the second run named the video output or the fourth did not |
| Attribution.EvasiveFaultIsNeverFound | internal/recorder/ffmpeg.go:1264-1281 | a fault that alternates between naming itself and not is never found, however long it lasts |
| Attribution.NamedFaultIsFoundTwice | internal/recorder/ffmpeg.go:1264-1281 | a fault that names itself is recognised by its second run |
| Attribution.OffIsFinal | internal/recorder/ffmpeg.go:1377-1386 | once off, video stays off and no later run has a video output |
| Attribution.AudioWithVideoClears | internal/recorder/ffmpeg.go:1315-1323 | audio with video clears every suspicion |
| Attribution.FallbackIsEarned | internal/recorder/ffmpeg.go:1282-1294 | from any decisions of an earlier session or before a crash, the codec falls back only in a copy-rejected run, the second at least, never when copy was asked for |
| Attribution.FallbackExactly | internal/recorder/ffmpeg.go:1282-1294 | over all traces: the codec falls back exactly in a copy-rejected run that neither the option nor the video output is blamed for, with another such run before it and no run between that clears the count, unless copy was asked for |
| Attribution.CodecExactly | internal/recorder/ffmpeg.go:990-1045 | the codec of every run: transcoding after a fallback; before, what is decided or asked for, else what the first probe that saw audio says, copying a copyable stream and transcoding another; transcoding while none did |
| Attribution.VideoExactly | internal/recorder/ffmpeg.go:1049-1151 | which runs have a video output and with which audio map: those of a session that records video and has not turned it off, with the source of the first probe that answered, but for the trial and a file that could not be prepared; after a fault of the output the map is the audio output's own |
| Attribution.OptionIsBlamedOnce | internal/recorder/ffmpeg.go:1257-1263 | over all traces an optional option is blamed at most once |
| Attribution.SuspicionQuotesTheFailure | internal/recorder/ffmpeg.go:1240-1255 | a suspicion quotes the failing run before the trial |
| Attribution.DiskErrorIsNoVerdict | internal/recorder/ffmpeg.go:1240-1255 | a trial that the disk cut short proves nothing |
| Attribution.BackoffDoubles | internal/recorder/ffmpeg.go:1498-1508 | the restart wait is min after a stable run and doubles with every short one, within [min, max] |
| Attribution.Supervisor.Account | internal/recorder/ffmpeg.go:1117-1325 | one iteration of the supervisor on its mutable fields equals the specification the traces are about |
| Attribution.Supervisor.DisableVideo | internal/recorder/ffmpeg.go:1377-1386 | turns video off and resets all counters |

## Left out

- ffmpeg and ffprobe as processes, their command lines, timeouts and the parsing of their stderr: foreign programs; the attribution model takes what they show as one outcome per run.
- internal/remux: the protocol only needs that building concatenates and extracting undoes it.
- The S3 client, multipart uploads, the probe for conditional writes and error classification in internal/storage/s3.go: only the Uploader contract is modelled.
- Stores that do not enforce preconditions: a merge is refused there (the rename it causes is the Escape step), and the create-only promise does not hold on them.
- The build-failure counter of a key and the disk preflight: in the protocol a build may fail, be given up or run out of disk at any attempt, a superset of what the counters allow.
- The companion's own PUT and its failures in the protocol: they only delay, rename or abort an attempt, which Escape and Abort cover; what is put there is the matter of Companion.
- Retention's clock: it forgets a session only when no attempt works on it, which the retention period guarantees in practice.
- Retry of a loop ended by shutdown: a crash step covers what it leaves behind.
- keepLocally, the mode without a bucket.
- The .json metadata document, metrics, logging, the HTTP views, redaction, system monitoring: derived data or output only.
- Configuration, schedule parsing, live playlists and the anchor lookup: an anchor is a parameter of a run.
- A change of the source in mid-session, which resets the video counters of attribution: one source per trace.
- Disk-full waits of the supervisor, which replace the computed wait by one minute.
- Rounding: durations are exact rationals, or whole milliseconds in the run table.
- Clocks: instants are integers; `last-session-start` is cut to whole seconds where the source does it.
- Reading `last-session-start` back: the protocol carries it as a number; the metadata round trip covers id, list and count.
- RFC 2047 encoding: a parameter of Manifest, so nothing is said about what a non-ASCII value becomes.
- Operators who delete objects or files by hand, and foreign writers that ignore preconditions.
- The last partial header at the end of a file, where Flush passes bytes on as junk and the scanners count them as junk by their own rule: FedFramesAreScanned is about Feed.
- Measuring.Measure: asks that the run offsets ascend, as ScanRuns documents and every capture records them; the code also measures a sidecar edited by hand in which they do not.
- Two recorders with the same session id, and digests that collide.
- How likely a payload is to spell frames: a repair that is not safe is possible, and nothing is said about how often.
