# Verification of the FortiGate VPN Linux GUI

A Dafny model of the parts of the program that carry state across steps, with proofs of what they
promise. `dafny verify dfyconfig.toml` checks everything.

## What is modelled

* **The privileged IPsec session.** `Session` is a step system over the threads of the helper: the
  connecting thread, the charon reader that becomes the exit callback, the bring-up worker and any
  number of disconnects, interleaving at every lock-protected section and outside effect. `LinkDns`,
  `GatewayRoute` and `Teardown` are the effects: the resolver link, the main-table host routes and the
  two state files, with commands that may fail, time out, and take effect or not. `Readiness` is the
  wait for the daemon's socket.
* **The charon plugin (C).** `Prefix` and `Subnets` read subnets out of configuration attributes (a
  32-bit word is its bits, most significant first); `SplitInclude` and `SplitRuns` are the plugin's
  lists, the selection and the narrowing of traffic selectors over whole runs; `FirstAuth` and `Hooks`
  rewrite the first IKE_AUTH in place.
* **Backup and restore.** `Payload` is the document, `Container` the encrypted file around it,
  `RestorePlan` the planner with its name collisions, `Restore` the transaction over `profiles.json`
  and the secret store with its undo log.
* **The profile data.** `ProfileModel`, `Ipsec` and `ProposalText` are validation, the doubly written
  IPsec settings and the proposal strings; `Naming` the name generator; `Storage`, `Transfer`,
  `ExportFile` and `Forbidden` the stored and exported documents; `Manager` the list in memory and on disk.

`Text`, `Json`, `Sequences` and `Wrappers` are shared vocabulary. Case folding is any map of single
characters that leaves lower-case ASCII letters, digits, spaces and parentheses alone.

## Results that differ from what the program's comments promise

* **Teardown.** `_finalize_ipsec_teardown` says the route restore "still runs if DNS restore raises",
  and it does. Reading the route file, however, happens before the guarded part
  (`src/fortigate_vpn_gui/helper/service.py:892-893`), so a file holding JSON that is not an object
  skips everything: `Session.OnlyTheRouteFileSkipsIt` and `Session.RouteFileStopsTeardown`. With a route
  captured before the attempt the file is not read (`Session.CapturedReadsNoFile`).
* **Late overlay.** A DNS overlay already under way when the teardown runs is written afterwards and
  stays (`Session.LateOverlayRemains`). After the teardown an overlay can come back exactly when a thread
  had passed the tests before (`Session.OverlayReturnsWhen`, `Session.OverlayStaysOff`).
* **DNS verification.** A verified result says that the link is clean for exactly the answers and records
  of `LinkDns.Informative` (`LinkDns.VerifiedMeansClean`); for all others `LinkDns.OtherwiseDeceived`
  gives a link that is accepted with the VPN's servers or its catch-all domain still there.
* **Unread capture.** A query that gives no answer at connect is recorded as "nothing there" and does not
  stop the overlay. Then the restore takes the link's servers or domains away, and when it is the servers
  the verification still passes with every answer given (`LinkDns.UnreadCaptureLosesServer`). The record is true,
  and recovery from every world before the last works, exactly when each of the two queries was answered
  or had nothing to read (`LinkDns.CanBeRead`, `LinkDns.CapturedTrue`, `LinkDns.CrashAnywhere`); a verified
  restore leaves a server on a link that had one, whatever else fails, exactly when the servers were read
  (`LinkDns.VerifiedKeepsServerWhen`).
* **DNS record.** A failed apply deletes its record even when the undo did not work
  (`LinkDns.FailedApplyLosesRecord`); with the record gone recovery works exactly when the link is back
  (`LinkDns.CrashAnywhere`), which `LinkDns.BackWhen` puts as a condition on the outcomes of the commands.
* **Second apply.** A second apply records the first overlay as the state before the VPN
  (`LinkDns.ApplyTwiceLosesSnapshot`); its record is true exactly when the link still shows what was
  there before (`LinkDns.SecondRecordTrue`, `LinkDns.ApplyTwice`).
* **Restore.** "Previous profiles were kept" holds for the file unless the save raised after the file
  had been replaced or the save that undoes it fails, and for the list in memory only once the first
  save returned; `Restore.CommitRestore` gives file and memory for every case. The secrets are always
  restored.
* **Confirmed plans.** A plan the user confirmed is carried out without another check, so names can
  collide with profiles added meanwhile (`RestorePlan.StalePlanCollides`): exactly when a profile that
  stays has a planned name (`RestorePlan.MergedNamesDistinctWhen`, `Restore.RestoreBackup`).
* **Prefixes.** The computed prefix is right if and only if the mask is contiguous (`Prefix.PrefixExact`);
  a mask that starts with a zero bit gives length 0, and unless the network is 0.0.0.0 as well, which drops
  the selection (`SplitRuns.SelectedHolds`), every address is let through although the plugin reports a
  split tunnel (`SplitRuns.NonContiguousLetsAllThrough`). The narrowed selectors let every
  address through exactly when the fixed bits of the chosen subnets cover all words
  (`SplitRuns.NarrowedCovers`), which subnets with contiguous masks can do together, as
  0.0.0.0/1 and 128.0.0.0/1 do (`SplitRuns.HalvesCover`).
* **Exported files.** Import refuses its own export when a text of the profile is, or ends in, the quoted
  name of a secret. The authentication method "psk" is such a text, so the export of a profile that uses
  a pre-shared key alone is always refused: `ExportFile.ImportFileOfExport` gives the exact condition,
  `ExportFile.PskExportRefused` an instance. The document itself is always accepted
  (`Transfer.ImportOfExport`).
* **Imported names.** `unique_imported_name` tests the name before cutting it, so a name of more than 200
  characters, or an empty one, can still collide (`Naming.UniqueImportedName`); validated names cannot.

## Model

| member | source | states |
|---|---|---|
| `Session.TeardownOnceInOrder` | src/fortigate_vpn_gui/helper/service.py:879-924 | in every interleaving of every run, the teardown body runs at most once and its actions stand in the order DNS, route, wipe; outside the lock it has run as a whole or not at all; a set flag means that DNS was restored once, then the route once if one was captured before the attempt, and then the files were wiped |
| `Session.ExitMeansDone` | src/fortigate_vpn_gui/helper/service.py:614-645 | whenever the exit callback has returned, the teardown is done: DNS restored once, then the captured route, then the wipe |
| `Session.OnlyTheRouteFileSkipsIt` | src/fortigate_vpn_gui/helper/service.py:886-924 | a thread leaves the teardown without it having been done exactly when reading the route file raised, and then nothing was restored; a raising DNS or route step does not stop the body |
| `Session.CapturedReadsNoFile` | src/fortigate_vpn_gui/helper/service.py:888-893 | in an attempt with a captured route the file is never read |
| `Session.AtMostOneStartupError` | src/fortigate_vpn_gui/helper/service.py:951-972 | the three flagged emitters together send at most one startup error in any run |
| `Session.FailedStartIsReported` | src/fortigate_vpn_gui/helper/service.py:614-644 | when the exit callback finds that the start failed, then by the time it returns exactly its own error was sent; until then it is in the teardown, about to send, or ended by an exception |
| `Session.FailedBringUpIsReported` | src/fortigate_vpn_gui/helper/service.py:951-972 | when the worker finds a failure nobody has reported, exactly its own error is sent as its next step |
| `Session.FailedWorkerCancels` | src/fortigate_vpn_gui/helper/service.py:647-712 | a worker whose wait or command failed claims the error that is its own to report, and cancels the attempt |
| `Session.SetOutTearsDown` | src/fortigate_vpn_gui/helper/service.py:493-645 | a failed start, an ended daemon, a stop and a disconnect lead to the teardown: until it is done a thread is on its way there, unless an exception ended it |
| `Session.RestMeansTornDown` | src/fortigate_vpn_gui/helper/service.py:354-645 | in any run, when every thread has come to rest the attempt was torn down, unless an exception ended one of them |
| `Session.FoundRouteIsRestored` | src/fortigate_vpn_gui/helper/service.py:888-912 | a route found in the file is restored exactly once by the time the teardown is done |
| `Session.RecordIsAwaited` | src/fortigate_vpn_gui/helper/service.py:799-827 | a DNS record without an overlay is there only while a thread is about to write the overlay, so a failed apply leaves none |
| `Session.CancelledStartsNothing` | src/fortigate_vpn_gui/helper/service.py:647-712 | once somebody cancelled the worker starts no further command |
| `Session.WorkerConnects` | src/fortigate_vpn_gui/helper/service.py:647-720 | a reachable run in which the worker connects the session and its overlay is on the link |
| `Session.ConnectedThenExits` | src/fortigate_vpn_gui/helper/service.py:614-645 | a reachable run in which that session ends: overlay and captured route are restored, and no error is sent |
| `Session.NoErrorAfterConnectedOrCancelled` | src/fortigate_vpn_gui/helper/service.py:614-644 | once the exit callback observed connected or cancelled it never sends a startup error |
| `Session.NoApplyStartsAfterTeardown` | src/fortigate_vpn_gui/helper/service.py:799-809 | after the teardown every attempt to apply DNS ends at once and changes nothing |
| `Session.MoveKeeps` | src/fortigate_vpn_gui/helper/service.py:493-972 | every step of every thread keeps the invariant that ties lock, flags, files, captured route, body, claim and observation together |
| `Session.StepKeeps` | src/fortigate_vpn_gui/helper/service.py:439-972 | the same for one thread's step seen alone: what it leaves, what it may change for the others, and the thread it starts |
| `Session.LateOverlayRemains` | src/fortigate_vpn_gui/helper/service.py:799-827 | a reachable run in which an overlay already under way is written after the teardown and stays on the link |
| `Session.OverlayStaysOff` | src/fortigate_vpn_gui/helper/service.py:799-827 | once the teardown is done and no thread is between the tests and the writing of an overlay, the link is not overlaid in any continuation unless it already is |
| `Session.LateWrite` | src/fortigate_vpn_gui/helper/service.py:799-827 | any thread there can still write the overlay, at most two moves later |
| `Session.OverlayReturnsWhen` | src/fortigate_vpn_gui/helper/service.py:799-827 | after the teardown an overlay can come back in some continuation if and only if a thread is there |
| `Session.RouteFileStopsTeardown` | src/fortigate_vpn_gui/helper/service.py:886-893 | a reachable run in which an unreadable route file ends the exit callback with nothing restored and the flag clear |
| `Teardown.Helper.FinalizeTeardown` | src/fortigate_vpn_gui/helper/service.py:879-924 | the body with its effects: the link is what restoring its record gives, even after a raise the endpoint's route is the captured one exactly when it stayed or one of the issued replacements took effect, no other route changes, the wipe deletes the record and the route file, and only an unreadable route file skips it all |
| `Teardown.OverlayUndone` | src/fortigate_vpn_gui/helper/service.py:926-949 | the teardown undoes an overlay with a true record when its commands take effect, unless NetworkManager's own settings were accepted |
| `Teardown.SecondReplacementHelps` | src/fortigate_vpn_gui/helper/ipsec_gateway_route.py:125-165 | a replacement that succeeded without staying is followed by a second one, which is enough |
| `Readiness.WaitForCharonReady` | src/fortigate_vpn_gui/helper/service.py:1058-1088 | ready only when the socket came and the daemon was alive afterwards; a timeout only when neither cancelled nor gone at the end; the first deciding pass decides |
| `LinkDns.Resolver.ApplyTemporaryVpnDns` | src/fortigate_vpn_gui/helper/ipsec_dns.py:247-278 | result, link and file for every outcome of the commands, the queries and the writing of the record; a world a crash can leave can be recovered from exactly when the record it holds could be read, or without a record when the link is back |
| `LinkDns.Resolver.OverlayOrUndo` | src/fortigate_vpn_gui/helper/ipsec_dns.py:267-277 | while the overlay is written or undone the file keeps the record, up to the deletion that ends a failed apply |
| `LinkDns.Resolver.ApplyResolvedDns` | src/fortigate_vpn_gui/helper/ipsec_dns.py:203-244 | which command outcomes count as success, the exact link for all of them, and after a success the servers and the domains that were negotiated |
| `LinkDns.SucceedsWithoutError` | src/fortigate_vpn_gui/helper/ipsec_dns.py:203-244 | an apply succeeds if and only if there is a server, its command is answered without error, and no other command that has something to set reports an error |
| `LinkDns.DomainsAskedFor` | src/fortigate_vpn_gui/helper/ipsec_dns.py:226-240 | the catch-all asks for exactly "~."; a split tunnel for exactly the domains that are not empty and no catch-all, in their order |
| `LinkDns.SplitDomains` | src/fortigate_vpn_gui/helper/ipsec_dns.py:226-240 | so when its command succeeded a domain is on the link of a split tunnel if and only if it was negotiated and is passed on |
| `LinkDns.ManagerComesFirst` | src/fortigate_vpn_gui/helper/ipsec_dns.py:281-320 | settings NetworkManager puts back stay when they are clean |
| `LinkDns.ManagedLinkComesBack` | src/fortigate_vpn_gui/helper/ipsec_dns.py:155-320 | so a link it knows comes back whole, its default route included, whatever the overlay made of it |
| `LinkDns.WithoutSnapshotEmptied` | src/fortigate_vpn_gui/helper/ipsec_dns.py:281-320 | without a snapshot and without NetworkManager an overlaid link is emptied by the second attempt |
| `LinkDns.ReadStateKeeps` | src/fortigate_vpn_gui/helper/ipsec_dns.py:368-392 | which records are read, those with a server that is not empty, and that every list keeps its non-empty texts in their order |
| `LinkDns.Resolver.RestoreDnsState` | src/fortigate_vpn_gui/helper/ipsec_dns.py:281-320 | the link for all outcomes; the verdict is the verification of the last reading taken of the final link, and with informative answers it means a clean link |
| `LinkDns.Resolver.RestoreFromStatePath` | src/fortigate_vpn_gui/helper/ipsec_dns.py:395-414 | the record stays until the final deletion, which happens whether or not the restore worked; every world until then can be recovered from, the last exactly when the link is back or the record could not be deleted |
| `LinkDns.Resolver.ApplySnapshot` | src/fortigate_vpn_gui/helper/ipsec_dns.py:446-461 | each of the three settings becomes the recorded one exactly when its command took effect |
| `LinkDns.VerifiedIsClean` | src/fortigate_vpn_gui/helper/ipsec_dns.py:323-345 | a verification whose server and domain queries answered holds exactly when the link has no VPN-only server, no added catch-all domain, and a server unless there was none |
| `LinkDns.VerifiedMeansClean` | src/fortigate_vpn_gui/helper/ipsec_dns.py:323-345 | exactly for which answers, record and VPN servers every link that is accepted is clean |
| `LinkDns.OtherwiseDeceived` | src/fortigate_vpn_gui/helper/ipsec_dns.py:323-345 | for all others, a link that is accepted and is not clean |
| `LinkDns.ReadBack` | src/fortigate_vpn_gui/helper/ipsec_dns.py:348-392 | a usable record is read back as it was written |
| `LinkDns.RecoverAfterCrash` | src/fortigate_vpn_gui/helper/ipsec_runtime.py:362-385 | from any recoverable world the leftover recovery puts servers and domains back, and the default route when it was recorded, unless NetworkManager's own settings were accepted; a crash during it does no harm |
| `LinkDns.CrashAnywhere` | src/fortigate_vpn_gui/helper/ipsec_dns.py:247-414 | apply, restore if that succeeded, a crash anywhere, recover, whatever commands, queries and files do: a world recovers if and only if its record could be read at capture, or it has none and the link is back; so every world but the last recovers if and only if the capture could be read |
| `LinkDns.CapturedTrue` | src/fortigate_vpn_gui/helper/ipsec_dns.py:155-180 | the record of a capture is true exactly when each of the server and domain queries was answered or had nothing to read |
| `LinkDns.RecordRecovers` | src/fortigate_vpn_gui/helper/ipsec_runtime.py:362-385 | from a readable record recovery leads back exactly when the record is true |
| `LinkDns.VerifiedKeepsServerWhen` | src/fortigate_vpn_gui/helper/ipsec_dns.py:281-345 | for exactly which captures a verified restore with the servers answered leaves a server on a link that had one |
| `LinkDns.UnreadCaptureLosesServer` | src/fortigate_vpn_gui/helper/ipsec_dns.py:155-345 | one unanswered query at connect, everything else working: a verified restore that takes the link's only server away |
| `LinkDns.BackWhen` | src/fortigate_vpn_gui/helper/ipsec_dns.py:281-320 | the outcomes of the commands for which a true record puts the link back, and no others |
| `LinkDns.RestoredBack` | src/fortigate_vpn_gui/helper/ipsec_dns.py:281-320 | with commands that take effect a true record puts the link back, unless NetworkManager's own settings were accepted |
| `LinkDns.FailedApplyLosesRecord` | src/fortigate_vpn_gui/helper/ipsec_dns.py:267-277 | a failed apply after which the VPN's server is on the link and nothing says how to restore it |
| `LinkDns.ApplyThenRestore` | src/fortigate_vpn_gui/helper/ipsec_dns.py:247-320 | connect then disconnect with working commands puts servers and domains back exactly when they could be read at connect, and then the default route too unless it was unreadable and the tunnel was split |
| `LinkDns.SecondRecordTrue` | src/fortigate_vpn_gui/helper/ipsec_dns.py:256-266 | a second record is true of the link before the first apply exactly when the link still shows what was there |
| `LinkDns.ApplyTwice` | src/fortigate_vpn_gui/helper/ipsec_dns.py:256-266 | after two successful applies and a restore the link has what could be read of the first overlay; the second record was true exactly when that overlay still shows what was there before |
| `LinkDns.ApplyTwiceLosesSnapshot` | src/fortigate_vpn_gui/helper/ipsec_dns.py:256-266 | a link with server 1.1.1.1 that ends with 10.0.0.1 after two applies and a restore |
| `GatewayRoute.RestoreAndVerify` | src/fortigate_vpn_gui/helper/ipsec_gateway_route.py:110-170 | how many replacements are issued, at most retries + 1, all of exactly this route; the table has it afterwards if and only if it had before or one of them took effect; verified implies that; no other route changes; a route already there is left alone; any pass whose replacement stays and can be read back, the earlier ones having succeeded, ends verified |
| `GatewayRoute.RouteTable.ReadExact` | src/fortigate_vpn_gui/helper/ipsec_gateway_route.py:302-322 | the route when some query answers, nothing otherwise |
| `GatewayRoute.RepairOnce` | src/fortigate_vpn_gui/helper/ipsec_gateway_route.py:125-165 | one pass: what it sees, that it replaces the route unless it sees it, and that no other route changes |
| `GatewayRoute.SnapshotRoute` | src/fortigate_vpn_gui/helper/ipsec_gateway_route.py:79-97 | a captured route is the one in the table, and one that is there is captured when a query answers |
| `GatewayRoute.RestoreFromPath` | src/fortigate_vpn_gui/helper/ipsec_gateway_route.py:217-247 | the file is deleted only after a verified restore or when it holds no route; a document that is not an object raises |
| `GatewayRoute.ReadOfWrite` | src/fortigate_vpn_gui/helper/ipsec_gateway_route.py:183-214 | writing then reading a valid route gives it back, and every file yields only valid routes |
| `GatewayRoute.CapturedRouteComesBack` | src/fortigate_vpn_gui/helper/ipsec_gateway_route.py:79-247 | capture, any change of the endpoint's route, restore: the table is as it was for every destination |
| `Prefix.MaskToPrefixLen` | native/fvl-forticlient-vid/fvl_forticlient_vid_plugin.c:713-724 | the loop ends within 32 steps on any mask, with the number of leading ones |
| `Prefix.ContiguousLength` | native/fvl-forticlient-vid/fvl_forticlient_vid_plugin.c:713-724 | on a contiguous mask that is the number of one bits |
| `Prefix.PrefixExact` | native/fvl-forticlient-vid/fvl_forticlient_vid_plugin.c:726-739 | for every address: lying in the computed prefix is agreeing under the mask, if and only if the mask is contiguous |
| `Prefix.OtherwiseNotExact` | native/fvl-forticlient-vid/fvl_forticlient_vid_plugin.c:726-739 | for every other mask, an address the prefix lets in although it does not agree |
| `Prefix.LengthZero` | native/fvl-forticlient-vid/fvl_forticlient_vid_plugin.c:713-724 | length 0 exactly when the first mask bit is clear; with a contiguous mask only for 0.0.0.0/0 |
| `Prefix.RenderInjective` | native/fvl-forticlient-vid/fvl_forticlient_vid_plugin.c:726-739 | different networks or lengths never print the same text |
| `Prefix.OctetOfWord` | native/fvl-forticlient-vid/fvl_forticlient_vid_plugin.c:726-739 | the octets of a word are the bytes it was read from, each in its place |
| `Prefix.ClearedIs` | native/fvl-forticlient-vid/fvl_forticlient_vid_plugin.c:726-739 | clearing the low bits of a byte takes away exactly its remainder |
| `Prefix.PrintedPrefix` | native/fvl-forticlient-vid/fvl_forticlient_vid_plugin.c:726-739 | an address with a contiguous mask of n ones prints as its four bytes with the bits behind the first n cleared, and "/n" |
| `Prefix.PrintedAddress` | native/fvl-forticlient-vid/fvl_forticlient_vid_plugin.c:820-832 | an address prints as its four bytes |
| `Subnets.ParseSubnetBytes` | native/fvl-forticlient-vid/fvl_forticlient_vid_plugin.c:741-769 | the list grows by the texts of exactly the records visited, without repetition |
| `Subnets.RecordKept` | native/fvl-forticlient-vid/fvl_forticlient_vid_plugin.c:741-769 | in the bytes of a record: address a.b.c.d with a contiguous mask of n ones adds the text of that subnet, wherever the record stands |
| `Subnets.WindowAt` | native/fvl-forticlient-vid/fvl_forticlient_vid_plugin.c:741-769 | the i-th record is the eight bytes at i times the stride, inside the data |
| `Subnets.NarrowCount` | native/fvl-forticlient-vid/fvl_forticlient_vid_plugin.c:741-769 | stride 8 visits n / 8 records |
| `Subnets.WideCount` | native/fvl-forticlient-vid/fvl_forticlient_vid_plugin.c:741-769 | stride 14 visits n / 14 records, and one more when at least 8 bytes remain |
| `Subnets.StrideVisits` | native/fvl-forticlient-vid/fvl_forticlient_vid_plugin.c:741-769 | the loop with a positive stride visits those records |
| `Subnets.NoStrideIsFourteen` | native/fvl-forticlient-vid/fvl_forticlient_vid_plugin.c:751-767 | stride 0 visits the same records as stride 14 on every byte string |
| `Subnets.AddUniqueString` | native/fvl-forticlient-vid/fvl_forticlient_vid_plugin.c:682-706 | appends a non-empty text once, behind the others |
| `SplitInclude.Plugin.Classify` | native/fvl-forticlient-vid/fvl_forticlient_vid_plugin.c:907-942 | the selection is the first non-empty source in priority order, dropped when it asks for everything; split exactly when something is selected |
| `SplitInclude.Plugin.ParseIncoming` | native/fvl-forticlient-vid/fvl_forticlient_vid_plugin.c:963-1039 | only a message with a CFG_REPLY changes anything, and the result depends on its attributes alone |
| `SplitInclude.Plugin.HandleAttribute` | native/fvl-forticlient-vid/fvl_forticlient_vid_plugin.c:993-1028 | each attribute feeds exactly its own list |
| `SplitInclude.NegotiatedHolds` | native/fvl-forticlient-vid/fvl_forticlient_vid_plugin.c:993-1028 | the servers and search domains known after a reply are exactly those its attributes carry |
| `SplitInclude.AttributesExtend` | native/fvl-forticlient-vid/fvl_forticlient_vid_plugin.c:682-706 | every list grows only at its end, so it is in the order of the attributes |
| `SplitInclude.DomainKept` | native/fvl-forticlient-vid/fvl_forticlient_vid_plugin.c:771-818 | which bytes are kept as a domain: the text up to the first zero byte, at most 127 characters, all of them allowed |
| `SplitInclude.ServerKept` | native/fvl-forticlient-vid/fvl_forticlient_vid_plugin.c:820-832 | four bytes are kept as the address they print as, anything else as nothing |
| `SplitInclude.ConvertedHolds` | native/fvl-forticlient-vid/fvl_forticlient_vid_plugin.c:1128-1141 | a selector is in the converted list if and only if some selected prefix converts to it |
| `SplitInclude.OthersUntouched` | native/fvl-forticlient-vid/fvl_forticlient_vid_plugin.c:1097-1127 | other narrowings, and those without a selection or a wildcard, leave the selectors alone |
| `SplitInclude.Plugin.NarrowHook` | native/fvl-forticlient-vid/fvl_forticlient_vid_plugin.c:1097-1147 | the remote selectors become the conversion of the selection, or stay |
| `SplitInclude.Plugin.UpDownHook` | native/fvl-forticlient-vid/fvl_forticlient_vid_plugin.c:1149-1161 | going down forgets everything, coming up nothing |
| `SplitInclude.SelectedIsPrefixList` | native/fvl-forticlient-vid/fvl_forticlient_vid_plugin.c:907-942 | the selection is duplicate-free, made of printed prefixes, and never holds 0.0.0.0/0 |
| `SplitInclude.AttributesKeepClean` | native/fvl-forticlient-vid/fvl_forticlient_vid_plugin.c:963-1031 | any attributes leave every list duplicate-free |
| `SplitInclude.NarrowTwice` | native/fvl-forticlient-vid/fvl_forticlient_vid_plugin.c:1097-1147 | a second narrowing changes nothing, for all masks and conversions |
| `SplitRuns.Run` | native/fvl-forticlient-vid/fvl_forticlient_vid_plugin.c:963-1161 | over any sequence of hooks, each narrowing uses exactly the last CFG_REPLY since the last time the IKE SA went down |
| `SplitRuns.NothingAfterDown` | native/fvl-forticlient-vid/fvl_forticlient_vid_plugin.c:1149-1161 | after going down, narrowing is the identity until another CFG_REPLY |
| `SplitRuns.NarrowedCovers` | native/fvl-forticlient-vid/fvl_forticlient_vid_plugin.c:741-1141 | in any run, a narrowing lets through exactly the prefixes of the last reply's chosen source, with contiguous masks exactly its subnets, and every address if and only if their fixed bits cover all words |
| `SplitRuns.SelectedHolds` | native/fvl-forticlient-vid/fvl_forticlient_vid_plugin.c:875-942 | nothing is selected exactly when no prefix came or one of the chosen source is 0.0.0.0/0; otherwise exactly the texts of its subnets are |
| `SplitRuns.KnownAfter` | native/fvl-forticlient-vid/fvl_forticlient_vid_plugin.c:963-1161 | what the plugin knows is what the last reply since going down carried |
| `SplitRuns.AllWordsWhen` | native/fvl-forticlient-vid/fvl_forticlient_vid_plugin.c:708-739 | every address lies in one of some subnets exactly when their fixed bits cover all words |
| `SplitRuns.HalvesCover` | native/fvl-forticlient-vid/fvl_forticlient_vid_plugin.c:708-739 | two subnets with contiguous masks that cover everything |
| `SplitRuns.SelectorsCover` | native/fvl-forticlient-vid/fvl_forticlient_vid_plugin.c:1128-1141 | with any masks they let through exactly the listed prefixes |
| `SplitRuns.WildcardRemains` | native/fvl-forticlient-vid/fvl_forticlient_vid_plugin.c:1064-1081 | a selector 0.0.0.0-255.255.255.255 remains after narrowing exactly when a selected prefix has length 0 |
| `SplitRuns.NoWildcardLeft` | native/fvl-forticlient-vid/fvl_forticlient_vid_plugin.c:875-942 | with contiguous masks no such selector remains |
| `SplitRuns.NonContiguousLetsAllThrough` | native/fvl-forticlient-vid/fvl_forticlient_vid_plugin.c:708-942 | the bytes of a reply with the mask 0.255.255.255 after which the plugin reports a split tunnel, narrows, and lets every address through |
| `FirstAuth.RewriteFirstAuth` | native/fvl-forticlient-vid/fvl_forticlient_vid_plugin.c:1193-1201 | the six in-place steps compute the rewriting, and sorting stays enabled exactly when the message was not repositioned |
| `FirstAuth.RewrittenKeeps` | native/fvl-forticlient-vid/fvl_forticlient_vid_plugin.c:199-664 | only AUTH, the two compatibility notifies and the first CFG_REQUEST are dropped, only the missing notifies and the new request are added, everything else stays exactly once |
| `FirstAuth.AuthOfGiven` | native/fvl-forticlient-vid/fvl_forticlient_vid_plugin.c:366-484 | the AUTH payloads that are dropped are those of the given message |
| `FirstAuth.ReadyOrder` | native/fvl-forticlient-vid/fvl_forticlient_vid_plugin.c:594-664 | a repositioned message lists its payloads rank by rank without AUTH |
| `FirstAuth.RankRuns` | native/fvl-forticlient-vid/fvl_forticlient_vid_plugin.c:621-629 | the ranks are IDi, INITIAL_CONTACT, 0xF100, CP, SA, TSi, TSr, the rest, each in original order |
| `FirstAuth.OtherwiseSameOrder` | native/fvl-forticlient-vid/fvl_forticlient_vid_plugin.c:609-619 | otherwise what survives keeps its order and the additions follow |
| `FirstAuth.ReadyWhen` | native/fvl-forticlient-vid/fvl_forticlient_vid_plugin.c:609-613 | exactly which given messages and surroundings lead to the fixed order |
| `FirstAuth.RepositionedPermutes` | native/fvl-forticlient-vid/fvl_forticlient_vid_plugin.c:594-633 | repositioning permutes the payloads |
| `FirstAuth.RepositionedStable` | native/fvl-forticlient-vid/fvl_forticlient_vid_plugin.c:529-572 | every rank keeps its payloads and their order |
| `FirstAuth.Reposition` | native/fvl-forticlient-vid/fvl_forticlient_vid_plugin.c:594-633 | moving payloads between the two lists gives the rank order when the guard holds, and the given list otherwise |
| `FirstAuth.MoveAll` | native/fvl-forticlient-vid/fvl_forticlient_vid_plugin.c:529-572 | one kind goes to the end of the message in order, the rest of the list stays |
| `FirstAuth.PayloadList.RemoveAll` | native/fvl-forticlient-vid/fvl_forticlient_vid_plugin.c:199-238 | unlinking while enumerating removes exactly one kind |
| `FirstAuth.RewriteCpRequest` | native/fvl-forticlient-vid/fvl_forticlient_vid_plugin.c:400-484 | the first CFG_REQUEST is replaced by the sixteen empty attributes, or lost when an allocation fails |
| `FirstAuth.AddInitialContact` | native/fvl-forticlient-vid/fvl_forticlient_vid_plugin.c:276-297 | appends the notify unless one is there or it cannot be made |
| `FirstAuth.AddLicenseNotify` | native/fvl-forticlient-vid/fvl_forticlient_vid_plugin.c:366-398 | appends the license notify unless one is there, the file is unusable or it cannot be made |
| `FirstAuth.LicenseSent` | native/fvl-forticlient-vid/fvl_forticlient_vid_plugin.c:335-398 | the license notifies of the rewritten message: the given ones, else one with the bytes of a file of 1 to 8191 bytes |
| `FirstAuth.LicenseBytesSent` | native/fvl-forticlient-vid/fvl_forticlient_vid_plugin.c:335-398 | so those bytes are in the message whenever none was there and the notify can be made |
| `FirstAuth.ContactSent` | native/fvl-forticlient-vid/fvl_forticlient_vid_plugin.c:276-297 | the INITIAL_CONTACT notifies: the given ones, else one without data |
| `FirstAuth.RequestSent` | native/fvl-forticlient-vid/fvl_forticlient_vid_plugin.c:400-484 | the configuration payloads: those that survived, then the request for all sixteen attributes when it can be allocated |
| `FirstAuth.WhatStays` | native/fvl-forticlient-vid/fvl_forticlient_vid_plugin.c:199-664 | every payload that is neither dropped by kind nor a CFG_REQUEST is in the rewritten message, and no AUTH or compatibility notify is |
| `Hooks.MessageHook` | native/fvl-forticlient-vid/fvl_forticlient_vid_plugin.c:1163-1203 | which messages are read, rewritten or left alone |
| `Hooks.VendorIdsPresent` | native/fvl-forticlient-vid/fvl_forticlient_vid_plugin.c:167-197 | everything stays in front and every vendor id is there |
| `Hooks.VendorIdsTwice` | native/fvl-forticlient-vid/fvl_forticlient_vid_plugin.c:139-197 | running it again adds nothing |
| `Hooks.VendorIdsAppended` | native/fvl-forticlient-vid/fvl_forticlient_vid_plugin.c:167-197 | nothing but the missing vendor ids is added, each once and in their order |
| `Hooks.AddVendorIds` | native/fvl-forticlient-vid/fvl_forticlient_vid_plugin.c:167-197 | the missing ones are appended in order up to the first failed allocation |
| `RestorePlan.PlanRestore` | src/fortigate_vpn_gui/backup/payload.py:172-211 | the loop computes the plan relation: every item with its name, row, replaced ids and default |
| `RestorePlan.PlanKeepsIds` | src/fortigate_vpn_gui/backup/payload.py:186-198 | ids and order are those of the backup |
| `RestorePlan.PlanKeepsItem` | src/fortigate_vpn_gui/backup/payload.py:192-198 | an item keeps everything, and its name too exactly unless that was taken |
| `RestorePlan.PlannedNamesFree` | src/fortigate_vpn_gui/backup/payload.py:181-197 | planned names differ under folding from each other and from every kept profile |
| `RestorePlan.MergedIdsDistinct` | src/fortigate_vpn_gui/backup/payload.py:214-221 | the merged list has distinct ids when the existing one had |
| `RestorePlan.MergedNamesDistinct` | src/fortigate_vpn_gui/backup/payload.py:172-221 | and distinct names when the existing one had |
| `RestorePlan.MergedNamesDistinctWhen` | src/fortigate_vpn_gui/backup/payload.py:172-221 | merged into any list with distinct names, items with distinct names keep them distinct exactly when no profile that stays has one of them |
| `RestorePlan.MergedIsRestored` | src/fortigate_vpn_gui/backup/payload.py:214-221 | the merged list is the profiles the backup does not name, in their order, and then exactly its items |
| `RestorePlan.NothingLost` | src/fortigate_vpn_gui/backup/payload.py:220-221 | so a profile is in the restored list if and only if it was there and is not named, or is an item |
| `RestorePlan.RowsTell` | src/fortigate_vpn_gui/backup/payload.py:186-209 | what the preview shows: replaced exactly when the id is known, else renamed exactly when the name changed, and which secrets there are |
| `RestorePlan.PlanDefault` | src/fortigate_vpn_gui/backup/payload.py:205-211 | the default stays exactly when the backup or the list has a profile with its id |
| `RestorePlan.StalePlanCollides` | src/fortigate_vpn_gui/backup/service.py:165-189 | a plan made before a profile of that name was added, and the two equal names it leads to |
| `RestorePlan.PlannedValidated` | src/fortigate_vpn_gui/backup/payload.py:384-396 | renaming keeps profiles valid |
| `RestorePlan.RestoringOwnBackup` | src/fortigate_vpn_gui/backup/payload.py:172-221 | restoring the very list that is there renames nothing and changes nothing |
| `RestorePlan.ResolveName` | src/fortigate_vpn_gui/backup/payload.py:192-196 | the given name, or the first free generated one when it is taken |
| `Restore.CommitRestore` | src/fortigate_vpn_gui/backup/service.py:192-222 | success is exact in profiles, default, file and secrets, and no profile the plan does not name is lost or moved; on any failure every secret is as before, and the contents of file and memory are given exactly for each way a save can end |
| `Restore.WriteSecrets` | src/fortigate_vpn_gui/backup/service.py:225-246 | each id ends with exactly its backup secrets, other ids are untouched, and undoing the log gives back the start at every stop |
| `Restore.WriteItem` | src/fortigate_vpn_gui/backup/service.py:230-244 | the same for one id, including a refusal between its two secrets |
| `Restore.UndoSecrets` | src/fortigate_vpn_gui/backup/service.py:249-271 | the log is undone from its end |
| `Restore.AssignedBack` | src/fortigate_vpn_gui/backup/service.py:259-269 | writing back the previous secret undoes any write |
| `Restore.Preflight` | src/fortigate_vpn_gui/backup/service.py:131-162 | a plan is returned exactly when secrets can be stored and no replaced profile is in use |
| `Restore.OpenIsBlocked` | src/fortigate_vpn_gui/backup/service.py:325-334 | a session blocks the restore if and only if it is not idle and its profile is both there and in the backup |
| `Restore.NeedsKeyring` | src/fortigate_vpn_gui/backup/service.py:131-162 | no keyring is needed exactly when no item has a secret of either kind that is not empty |
| `Restore.DocumentDefault` | src/fortigate_vpn_gui/backup/service.py:192-222 | the default of the committed list is the one of the plan |
| `Restore.LeftMeans` | src/fortigate_vpn_gui/backup/service.py:192-222 | after a failure the file is as before, or has the list that was in memory, or the restored list, and when it is which |
| `Restore.RestoreBackup` | src/fortigate_vpn_gui/backup/service.py:165-189 | a whole restore, with a fresh plan or a confirmed one: nothing is written before it is accepted, a profile in use is not replaced by a fresh plan, the profiles the backup does not name stay in order before its items, the default is the backup's, and names stay distinct always with a fresh plan and with an older one exactly when no profile that stays has a planned name |
| `SecretStore.Store.Set` | src/fortigate_vpn_gui/system/psk_store.py:131-134 | stores a secret, or refuses and changes nothing |
| `SecretStore.Store.DeleteAll` | src/fortigate_vpn_gui/system/psk_store.py:158-160 | removes both secrets of an id and no other |
| `Naming.UniqueSuffixedName` | src/fortigate_vpn_gui/profiles/model.py:235-248 | the first candidate whose folding is free, found within the number of taken names plus one, fitting and trimmed |
| `Naming.CandidatesDistinct` | src/fortigate_vpn_gui/profiles/model.py:357-366 | candidates of different counters differ under folding even when the base is cut |
| `Naming.CandidateFront` | src/fortigate_vpn_gui/profiles/model.py:357-366 | a generated name is a front and the suffix: the whole trimmed base when it fits, else as much of its beginning as fits without white space at the end, and the default only for an empty base |
| `Naming.PlainImportIsFront` | src/fortigate_vpn_gui/profiles/model.py:224-232 | the same for the imported name without a suffix |
| `Naming.Pigeonhole` | src/fortigate_vpn_gui/profiles/model.py:241-248 | that many failed attempts use up that many different taken names |
| `Naming.UniqueImportedName` | src/fortigate_vpn_gui/profiles/model.py:224-232 | the imported name is taken exactly when the uncut base was free, needs cutting or is empty, and the cut name is taken |
| `Naming.ImportNameCanCollide` | src/fortigate_vpn_gui/profiles/model.py:224-232 | such a base |
| `Naming.RoomForAnyList` | src/fortigate_vpn_gui/profiles/model.py:357-366 | the suffix leaves room for any number of profiles with at most 187 digits |
| `Manager.ProfileManager.constructor` | src/fortigate_vpn_gui/profiles/manager.py:37-53 | loading gives a sound list in step with the file |
| `Manager.ProfileManager.Reload` | src/fortigate_vpn_gui/profiles/manager.py:90-97 | memory becomes what the file decodes to, whatever the file holds |
| `Manager.ProfileManager.Run` | src/fortigate_vpn_gui/profiles/manager.py:90-358 | over any operations, reloads and installed lists included: ids distinct, default in the list, names distinct in memory and file if they were, and the file decodes to memory whenever it did at some point and no write has failed since |
| `Manager.LaterWriteHelps` | src/fortigate_vpn_gui/profiles/manager.py:98-113 | after failed writes the next written change, or a reload, brings file and memory in step again |
| `Manager.ProfileManager.Add` | src/fortigate_vpn_gui/profiles/manager.py:115-141 | appends the validated profile exactly when every field and the name pass; otherwise nothing changes and all complaints are reported |
| `Manager.ProfileManager.Update` | src/fortigate_vpn_gui/profiles/manager.py:143-178 | replaces exactly one profile in place, keeping what was not given |
| `Manager.UpdateTakesGiven` | src/fortigate_vpn_gui/profiles/manager.py:143-178 | the updated profile has the given name, gateway, port, texts and single sign-on, and keeps id, type, pin and settings where none are given |
| `Manager.TakenNameReported` | src/fortigate_vpn_gui/profiles/manager.py:301-344 | a name that is taken is reported whatever else is refused, and only then |
| `Manager.OthersRemain` | src/fortigate_vpn_gui/profiles/manager.py:285-299 | removing takes out exactly the profiles with the id and leaves the others in order |
| `Manager.ProfileManager.Duplicate` | src/fortigate_vpn_gui/profiles/manager.py:180-201 | succeeds whatever names are taken, and copies everything but id and name |
| `Manager.ProfileManager.ImportProfile` | src/fortigate_vpn_gui/profiles/manager.py:210-228 | succeeds for every accepted document whatever names are taken, with the described fields and a free name kept |
| `Manager.ProfileManager.SetUsernameHint` | src/fortigate_vpn_gui/profiles/manager.py:248-263 | changes the hint and nothing else, exactly when the text is acceptable and the name is not shared |
| `Manager.ProfileManager.SetTrustedCertificate` | src/fortigate_vpn_gui/profiles/manager.py:265-279 | changes the pin and nothing else, under the same kind of condition |
| `Manager.ProfileManager.ClearTrustedCertificate` | src/fortigate_vpn_gui/profiles/manager.py:281-283 | removes the pin and nothing else |
| `Manager.ProfileManager.SetDefault` | src/fortigate_vpn_gui/profiles/manager.py:230-239 | makes a known profile the default, without writing when it already is |
| `Manager.ProfileManager.ClearDefault` | src/fortigate_vpn_gui/profiles/manager.py:241-246 | leaves no default and the list alone |
| `Manager.ProfileManager.Delete` | src/fortigate_vpn_gui/profiles/manager.py:285-299 | removes exactly the profile, a default that was it, and after a successful save its secrets |
| `Manager.ProfileManager.InstallProfiles` | src/fortigate_vpn_gui/profiles/manager.py:103-113 | memory changes first; the file follows unless the write fails |
| `Manager.ProfileManager.ValidatedProfile` | src/fortigate_vpn_gui/profiles/manager.py:301-344 | validation and the name test together |
| `Manager.ProfileManager.NameIsTaken` | src/fortigate_vpn_gui/profiles/manager.py:346-353 | another profile than the ignored one has the name under folding |
| `Manager.HintChanged` | src/fortigate_vpn_gui/profiles/manager.py:248-263 | offering another hint changes the hint, or is refused for it alone |
| `Manager.PinChanged` | src/fortigate_vpn_gui/profiles/manager.py:265-279 | the same for the pin |
| `Manager.NameOf` | src/fortigate_vpn_gui/profiles/manager.py:346-353 | with distinct names no update that keeps the name is refused for it |
| `ProfileModel.Build` | src/fortigate_vpn_gui/profiles/model.py:251-354 | all refused fields are reported together, and a profile comes out exactly when there are none |
| `ProfileModel.AcceptedExactly` | src/fortigate_vpn_gui/profiles/model.py:251-354 | exactly which arguments are accepted, field by field |
| `ProfileModel.BuiltAsDescribed` | src/fortigate_vpn_gui/profiles/model.py:251-354 | an accepted profile is the one the arguments describe |
| `ProfileModel.PairsAt` | src/fortigate_vpn_gui/helper/validation.py:56-63 | a fingerprint is shown as pairs of capital digits with colons between them |
| `ProfileModel.BuildIsNormal` | src/fortigate_vpn_gui/profiles/model.py:251-354 | every accepted profile is trimmed, within limits and consistent |
| `ProfileModel.BuildInverts` | src/fortigate_vpn_gui/profiles/model.py:251-354 | validating the description of such a profile gives it back |
| `ProfileModel.FingerprintRoundTrip` | src/fortigate_vpn_gui/helper/validation.py:46-63 | a stored fingerprint is its own normal form, and its display form normalises back to it |
| `ProfileModel.RecordFields` | src/fortigate_vpn_gui/profiles/model.py:136-144 | the stored record holds exactly the description |
| `Storage.LoadOfSave` | src/fortigate_vpn_gui/profiles/storage.py:99-189 | loading what was saved gives the same profiles, order and default |
| `Storage.LoadIsSound` | src/fortigate_vpn_gui/profiles/storage.py:117-189 | whatever the file holds, the loaded list is valid with distinct ids and a default in it |
| `Storage.CollectLoop` | src/fortigate_vpn_gui/profiles/storage.py:117-131 | the loop keeps the first record of every id, in order |
| `Storage.LoadDocument` | src/fortigate_vpn_gui/profiles/storage.py:117-149 | and the default when it is among them |
| `Storage.LoadedDefault` | src/fortigate_vpn_gui/profiles/storage.py:117-149 | the default of a file is its trimmed text when a loaded profile has that id |
| `Storage.LoadOfList` | src/fortigate_vpn_gui/profiles/storage.py:117-131 | a bare list of records, the older form, loads as well |
| `Storage.FirstRecordWins` | src/fortigate_vpn_gui/profiles/storage.py:117-131 | a profile is loaded if and only if its record is the first that loads under its id |
| `Storage.BadPinDropped` | src/fortigate_vpn_gui/profiles/storage.py:152-189 | a stored profile with an unusable pin is loaded without it |
| `Storage.RecordRoundTrip` | src/fortigate_vpn_gui/profiles/storage.py:152-189 | no key of a stored record is dropped, and the record loads as its profile |
| `Forbidden.WithoutDropsExactly` | src/fortigate_vpn_gui/profiles/storage.py:192-202 | dropping removes every forbidden key at every depth, and nothing when there is none |
| `Forbidden.ExportedKeysPass` | src/fortigate_vpn_gui/profiles/transfer.py:218-237 | neither the loader nor the importer, with its suspicious words, refuses a key the program writes |
| `Forbidden.KnownKeysPassRestore` | src/fortigate_vpn_gui/backup/payload.py:368-381 | nor does the restore |
| `Transfer.ImportOfExport` | src/fortigate_vpn_gui/profiles/transfer.py:101-201 | importing an export gives back every field |
| `Transfer.ImportRefusesSecrets` | src/fortigate_vpn_gui/profiles/transfer.py:136-152 | an accepted document has no forbidden key at any depth |
| `Transfer.ImportIsValidated` | src/fortigate_vpn_gui/profiles/transfer.py:176-201 | accepted fields describe a valid profile |
| `Transfer.AcceptedIsExport` | src/fortigate_vpn_gui/profiles/transfer.py:136-201 | an accepted document is an export of this format and version, with settings only beside an IPsec profile |
| `ExportFile.ImportFileOfExport` | src/fortigate_vpn_gui/profiles/transfer.py:204-246 | an exported file is accepted, with every field as it was, if and only if no text the user chose reads as the name of a secret and the profile does not use a pre-shared key alone |
| `ExportFile.PskExportRefused` | src/fortigate_vpn_gui/profiles/transfer.py:240-246 | a valid profile whose own export is refused because the authentication method is written "psk" |
| `ExportFile.OwnWords` | src/fortigate_vpn_gui/profiles/transfer.py:240-246 | of the keys and words the program itself writes only that one reads as the name of a secret |
| `ExportFile.PlainReads` | src/fortigate_vpn_gui/profiles/transfer.py:240-246 | of the texts in plain characters exactly the names themselves are found by the search |
| `Payload.RestoreOfBackup` | src/fortigate_vpn_gui/backup/payload.py:107-169 | reading back a backup gives ids, order, default and every non-empty secret |
| `Payload.RestoreIsSound` | src/fortigate_vpn_gui/backup/payload.py:134-169 | any accepted payload has valid profiles, distinct ids and a default among them |
| `Payload.AcceptedIsBackup` | src/fortigate_vpn_gui/backup/payload.py:107-169 | an accepted payload is a backup of this format and version, with known keys only, and every record is read in its place |
| `Payload.AcceptedRecord` | src/fortigate_vpn_gui/backup/payload.py:306-347 | an accepted record holds nothing unknown or refused, and its item has its own secrets |
| `Payload.AcceptedProfile` | src/fortigate_vpn_gui/backup/payload.py:306-347 | its profile is the one its fields describe, under its id or the generated one |
| `Payload.MissingIdGenerated` | src/fortigate_vpn_gui/backup/payload.py:306-347 | a record without an id is accepted whenever its other fields are |
| `Payload.AcceptedDefault` | src/fortigate_vpn_gui/backup/payload.py:134-169 | the default is none, or a text that is not blank and, trimmed, names a profile of the backup |
| `Payload.AcceptedSettings` | src/fortigate_vpn_gui/backup/payload.py:306-347 | no settings beside an SSL profile, and none the program does not know |
| `Payload.SecretsAsGiven` | src/fortigate_vpn_gui/backup/payload.py:295-365 | each secret is absent or the non-empty text that is there; anything else is refused |
| `Payload.ParseRecordsLoop` | src/fortigate_vpn_gui/backup/payload.py:134-169 | the loop stops at the first refusal and refuses a repeated id |
| `Payload.SecretsRoundTrip` | src/fortigate_vpn_gui/backup/payload.py:295-365 | secrets are read back, empty ones as absent |
| `Payload.RecordOfBackup` | src/fortigate_vpn_gui/backup/payload.py:306-347 | a backup record is read as the profile and secrets it was written from |
| `Ipsec.NormalRoundTrip` | src/fortigate_vpn_gui/profiles/ipsec.py:202-236 | writing and parsing settings gives them back |
| `Ipsec.ParseIsStable` | src/fortigate_vpn_gui/profiles/ipsec.py:353-430 | for whatever document was parsed |
| `Ipsec.ParsedIsNormal` | src/fortigate_vpn_gui/profiles/ipsec.py:353-430 | parsed settings have non-empty duplicate-free lists with the single values at their heads |
| `Ipsec.LegacyMigration` | src/fortigate_vpn_gui/profiles/ipsec.py:353-498 | without the list fields each list becomes its head |
| `Ipsec.ListsTakePrecedence` | src/fortigate_vpn_gui/profiles/ipsec.py:440-487 | with the list fields the single ones are ignored |
| `Ipsec.NothingMeansDefaults` | src/fortigate_vpn_gui/profiles/ipsec.py:353-430 | an empty document means the default settings |
| `Ipsec.AllKeysStored` | src/fortigate_vpn_gui/profiles/transfer.py:113-115 | every field written is one of the exported ones |
| `ProposalText.RemoveRepeats` | src/fortigate_vpn_gui/profiles/ipsec.py:490-498 | first occurrences in order |
| `ProposalText.BuildProposal` | src/fortigate_vpn_gui/profiles/ipsec.py:274-295 | every algorithm pair with every group, row by row, joined by commas |
| `ProposalText.ProposalStringDecodes` | src/fortigate_vpn_gui/profiles/ipsec.py:433-437 | a proposal string determines its pairs and groups |
| `ProposalText.OffersDecode` | src/fortigate_vpn_gui/profiles/ipsec.py:274-295 | two settings offer the same exactly when their lists agree, the groups of phase 2 only with forward secrecy |
| `Container.UnpackOfPack` | src/fortigate_vpn_gui/backup/format.py:96-154 | unpacking a packed container gives back header and ciphertext |
| `Container.PackOfUnpack` | src/fortigate_vpn_gui/backup/format.py:101-154 | any accepted bytes are what packing their content gives, and their prefix is the associated data |
| `Container.NothingUnauthenticated` | src/fortigate_vpn_gui/backup/format.py:88-98 | two accepted files with the same associated data and ciphertext are the same file |
| `Container.AcceptedFile` | src/fortigate_vpn_gui/backup/format.py:101-154 | which bytes are accepted: magic, length, canonical complete header, ciphertext |
| `Container.KeyDerivedFrom` | src/fortigate_vpn_gui/backup/crypto.py:80-135 | the key is derived from the password and the decoded salt and parameters of the header, all within their limits |
| `Container.LengthRoundTrip` | src/fortigate_vpn_gui/backup/format.py:93 | the length field gives back the length |
| `Container.LengthDigits` | src/fortigate_vpn_gui/backup/format.py:93 | with the most significant byte first |
| `Container.LengthUnique` | src/fortigate_vpn_gui/backup/format.py:110 | and every four bytes are the length field of what they denote |
| `Container.DecryptOfEncrypt` | src/fortigate_vpn_gui/backup/crypto.py:80-135 | a file written with a password opens with it |
| `Container.DecryptAuthenticatesPrefix` | src/fortigate_vpn_gui/backup/crypto.py:112-135 | a text comes out of a file exactly when the key derived from the password and its header, and its nonce, open the rest of the file with everything before it as associated data |

## Left out

- The connecting phase before the attempt's flag is reset, the SSL backend, and a second connect while an attempt is still being torn down.
- Lines the helper itself logs during teardown and after an overlay: they are assumed not to read like the daemon's DNS or connected lines.
- Listeners, the file wipe and signals to leftover daemons: assumed not to raise; what they do to processes is not modelled, and of the files only the DNS record and the route file are.
- The text of command output (`resolvectl`, `ip`, `nmcli`) and of charon's log lines: readings are values that may be missing.
- DNS state files that hold JSON which is not an object: reading one raises; `Teardown.Helper.FinalizeTeardown` has that as a case, `LinkDns` has not.
- LinkDns.ApplyThenRestore: stated for links NetworkManager does not manage, because for the others the final link is whatever NetworkManager reapplies.
- Several main-table routes to one destination that differ in metric: a table maps a destination to one next hop.
- Session.LateOverlayRemains: a link counts as overlaid or not; what a second snapshot records is in `LinkDns`.
- Memory allocation failures of list entries in the plugin; those of payloads and attributes are modelled.
- The library conversion of a printed prefix into a traffic selector: a parameter, faithful where addresses are concerned.
- Log output, redaction, the SAML output of openfortivpn, and the packet-level encoding of IKE payloads.
- ExportFile.ImportFileOfExport: the raw-text search is modelled on each key and text as it is written between quotation marks, since only punctuation, numbers and `true`, `false`, `null` stand between two of them; files in which other programs escape letters are not modelled.
- The text of JSON documents: reading and writing it is a library call; documents are trees, and repeated keys do not occur in a tree.
- Digits outside ASCII in port and lifetime texts, and values of `vpn_type` that cannot be compared with a set of texts.
- The grammar of gateway addresses: a parameter that accepts or refuses a trimmed text.
- Argon2id, AES-GCM and Base64: parameters with the laws the library promises.
- Naming.UniqueSuffixedName: needs room for the counter, that is fewer than 10^187 taken names.
- The Secret Service behind the secret store: a refused write is assumed to change nothing, and undoing writes to succeed.
- Restore confirmation texts, wiping of secrets in memory, and pages, dialogs, tray, diagnostics, update checks and packaging.
