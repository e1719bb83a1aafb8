# Verified models of the Fury agent

Fury opens browser profiles that each look like a machine of their own. Its agent, written in Rust,
holds seven components whose promises range over all inputs or all runs. This project states what
each of them does and proves those promises in Dafny 4.11. `dafny verify dfyconfig.toml` checks all
of it.

| files | component |
|---|---|
| `FarmTypes`, `FarmDay`, `FarmBook`, `FarmInvariants`, `FarmRuns`, `FarmLog`, `FarmCases`, `Farms` | the farming scheduler: plans over many profiles and days, with bounded capacity |
| `TcpOptions`, `SynRebuild`, `SynTwice`, `ShaperSpec`, `ShaperRuns`, `Shaper` | the packet shaper of WireGuard profiles: SYNs laid out as an operating system lays them out, timestamps and IP IDs per flow |
| `TeamSync`, `TeamSyncRuns`, `TeamLosses`, `TeamAgent` | one team profile, its server, and the machines that open it |
| `Protobuf`, `Crx`, `ZipPaths`, `Zip`, `ZipBuild` | installing an extension: base-128 numbers, protobuf fields, the CRX3 container, the ZIP in it |
| `MirrorSpec`, `MirrorRuns`, `MirrorHub` | synchronised windows |
| `BundleTree`, `Bundles` | profile bundles: what travels, who can open them, what unpacking leaves |
| `Socks`, `RequestHead`, `Base64` | the relay's SOCKS5 client, its reader of request heads, and base64 |
| `Bytes`, `Wrappers` | octets, fixed-width numbers, option and result |

The models share one shape. What the code does is a set of functions on values: one step of a
scheduler, one packet, one entry of an archive. Code that updates an object or a buffer in place is a
class or a method on an array, and its contract equates the new state with those functions of the old
one. The theorems are lemmas about the functions, over every input or over every run of steps, and so
hold of the classes. Time is a number the caller passes, in milliseconds. A random draw is a
parameter or a nondeterministic choice, so every theorem holds of every draw. History that the code
does not keep (days gone by, sessions that ended, what was ever fanned out, what was ever finished)
is carried beside the state.

Where the code and what is said of it differ, the model follows the code:

- A promise that a session starts inside its day's hours holds of the sessions `step` starts. `due`
  and `claim` look at a session's time and never at the end of its window (agent/src/farm.rs:347-382);
  `FarmRuns.ClaimInHours` says exactly which claims keep the promise.
- By its own comment `step` counts a day on which something was read. The code counts a day with a
  session that ended `Done`, and a run that ends with no error, not stopped and no site visited is
  `Done` with nothing read (agent/src/farm.rs:309-323, 409-413).
- A plan's count of sites survives a restart only as far as the file was written, and a write that
  fails is logged and forgotten (agent/src/farm.rs:264-274). `FarmLog.SitesAreLogged` says exactly
  when nothing is missing.
- The SYN printer copies the body of a window-scale option and always writes the length 3, prints
  SACK-permitted without the body it may have had, and leaves out an MSS or timestamps of another size
  than theirs (agent/src/syn_shape.rs:328, 343-358). `SynRebuild.RebuiltOptions` says exactly when the
  printed options are the ones that were there.
- A TSecr of zero is never moved (agent/src/syn_shape.rs:422-427), so the echo of a TSval that was
  zero on the wire does not come back; and under Windows the echo is moved though the TSval was not
  (agent/src/syn_shape.rs:245-248, 292). `ShaperRuns.EchoReturns` says exactly when it comes back.
- A close takes its profile out of the running list before it waits for the browser and for the
  upload, and settles the marker only after (agent/src/ipc.rs:3342-3474); a launch looks there at its
  beginning, reads the version recorded for the directory later, and puts itself there only at its end
  (agent/src/ipc.rs:2764, 3145, 3290). What other requests do in between is looked at by neither, so
  the promise that a session is kept (agent/src/unsynced.rs:14-22) holds of calm runs:
  `TeamSyncRuns.NothingLost`. For each clause of what calm means `TeamLosses` has the states in which
  breaking it loses work, and a run from the start that breaks it once and does.
- Unpacking a bundle refuses a path that climbs and follows one that is absolute
  (agent/src/bundle.rs:380-392). `Bundles.BelowUnlessAstray` says exactly when nothing is written
  elsewhere.
- A login longer than 255 octets is sent with its length cut to eight bits, and an empty one as it is
  (agent/src/relay.rs:876-879).
  `SocksClient.SaidDecodes` says exactly which dialogues are read back as they were meant.
- The module comment of the mirror says half a second of muting. The code mutes for 600, 1200 and
  1500 milliseconds (agent/src/mirror.rs:204, 402, 499). Joining again forgets the mute
  (agent/src/mirror.rs:185), which `MirrorRuns.JoiningForgets` states.
- An archive comment that looks like an end record hides the archive (agent/src/ext.rs:348-351).
  `ZipBuild.EndIsFound` gives the exact condition, `ZipBuild.CommentHides` the case.

## Model

| member | source | states |
|---|---|---|
| FarmDay.PlanDay | agent/src/farm.rs:525-565 | For every list, range, window, clock and draw the search for a day ends, at the first date with ten minutes of its hours left; the sessions' sites together are drawn from the list without repetition, as many as the range and the list allow; they are dealt out evenly over as many sittings as the number allows, each starting in the first six tenths of its own slot |
| FarmDay.TimesSpread | agent/src/farm.rs:551-563 | Start times strictly rise with at least four tenths of a slot between them, none before the hours begin or a minute from now, all before the hours end |
| FarmDay.NobodyGetsNothing | agent/src/farm.rs:542-563 | With a list to draw from, no session is empty and sizes differ by at most one |
| FarmDay.SearchDate | agent/src/farm.rs:526-540 | The day-search loop terminates, with a measure, at the first date after the last one planned and not before today that has room |
| FarmDay.SplitIntoSessions | agent/src/farm.rs:553-563 | The sittings' lists concatenate to exactly the sites chosen, each with a fair share, each in its slot |
| FarmRuns.CapacityHolds | agent/src/farm.rs:216-220 | After any run of create, step, claim, report, fail, pause, delete, stage and restart, no plan has more sessions in flight than it may and no profile of it more than one |
| FarmInvariants.StepPassKeeps | agent/src/farm.rs:386-456 | All through a pass over a plan the room left plus the sessions in flight make up the plan's capacity, through starts and stale timeouts alike, and every track keeps its books |
| FarmRuns.BooksBalance | agent/src/farm.rs:309-323 | After any run a track's sites are the sum over every session of the history its plan carries that ended Done; its days are the closed days with at least one Done, never more than asked for; the dates of its days strictly increase whatever the clock did |
| FarmLog.SitesAreLogged | agent/src/farm.rs:248-323 | Against a log of every session that ever ended Done, which no restart rolls back: the sites a plan counts for a profile are never more than the log, and are all of it exactly when no restart read a file last written before such an end |
| FarmLog.RestartsThatFindTheList | agent/src/farm.rs:248-274 | With every restart finding in the file the list as it was, the sites counted are the whole log |
| FarmCases.SomeDoneIsForgotten | agent/src/farm.rs:264-274 | A run that ends with a report of three sites whose write fails, and a restart: the log has three, the plan none |
| FarmRuns.OneProfileOnePlan | agent/src/farm.rs:276-293 | In every reachable list a profile is in at most one unfinished plan, a finished plan has nothing in flight, and no profile has two sessions in flight across all plans |
| FarmRuns.OnlyForward | agent/src/farm.rs:459-462 | Through every operation a plan's counts only grow and a finished plan stays finished, a restart going on from what the file holds |
| FarmLog.NothingForgotten | agent/src/farm.rs:248-456 | No operation forgets how a session ended: whatever it goes on from, a restart from the file, the sessions a profile has had stay in their order, and those that ended stay as they ended |
| FarmRuns.StepStartsRight | agent/src/farm.rs:433-451 | Every session that step starts, in any run, is local, not open, due, and inside the hours of its own day |
| FarmRuns.DueMeans | agent/src/farm.rs:347-365 | What is reported due is an eligible team session of a running plan with room, and where there is room for all every eligible one is reported |
| FarmRuns.ClaimableMeans | agent/src/farm.rs:370-379 | A claim that is granted finds its plan with room, its profile not open, with a waiting session whose time has come and none in flight |
| FarmRuns.ClaimInHours | agent/src/farm.rs:347-382 | A claimed session starts inside the hours of its day exactly when its window is not over, which claiming does not look at |
| FarmCases.SomeClaimIsLate | agent/src/farm.rs:370-382 | A run of create, step and claim whose claim is granted when the window has ended |
| FarmInvariants.VisitKeeps | agent/src/farm.rs:391-452 | One profile's turn in a pass, in any branch, keeps its books balanced and moves the room by what it starts and frees |
| Farms.Scheduler.Step | agent/src/farm.rs:386-456 | The loops over plans and profiles compute exactly the step of the model for some possible draws, and return exactly the starts it makes |
| Farms.Scheduler.Claim | agent/src/farm.rs:370-382 | A claim succeeds exactly when the session is due, marks it started, and hands over that session's sites |
| Farms.Scheduler.Due | agent/src/farm.rs:347-365 | The loop with its early break returns the eligible sessions of each running plan, up to its room |
| Farms.Scheduler.Create | agent/src/farm.rs:276-293 | A plan is added exactly when the specification passes, there are profiles, and none is in an unfinished plan; otherwise the list is unchanged and the reason returned |
| Farms.Scheduler.Report | agent/src/farm.rs:309-323 | The session in flight ends as the run did, sites and cookies are booked, nothing else changes; without one, nothing does |
| Farms.Scheduler.Fail | agent/src/farm.rs:326-333 | The session in flight ends failed and the error is kept for the operator |
| Farms.Scheduler.Pause | agent/src/farm.rs:302-306 | Only that plan's pause changes |
| Farms.Scheduler.Delete | agent/src/farm.rs:295-300 | Exactly the plans of that identifier go |
| Farms.Scheduler.StageApplied | agent/src/farm.rs:335-340 | Only the pending stage of that track is cleared |
| Farms.Scheduler.constructor | agent/src/farm.rs:248-261 | From any plan file loading fails every session that was in flight and keeps the rest of the plans; from a file a run can have left, it is the restart of that run |
| Farms.Scheduler.Save | agent/src/farm.rs:264-274 | The file comes to hold the list, or the write fails and it holds what it held |
| TcpOptions.ListOptions | agent/src/syn_shape.rs:302-322 | The scan in the loop is the option list of the model, on every segment with a header |
| TcpOptions.ScannersAgree | agent/src/syn_shape.rs:406-437 | The second scanner finds a place exactly when the first lists a kind-8 option with an 8-octet body, and what stands there is the first such body |
| TcpOptions.ShiftMeans | agent/src/syn_shape.rs:404-437 | On every segment with a header shifting adds to the two numbers modulo 2^32, keeps a zero TSecr, changes only those eight octets, and leaves every other option and the place as they were |
| TcpOptions.ShiftTimestamp | agent/src/syn_shape.rs:404-437 | In the buffer, exactly the segment's timestamp is shifted, and the result says whether there was one |
| TcpOptions.NopAlignedKeeps | agent/src/syn_shape.rs:392-402 | Aligning a lone timestamp changes neither the size of a segment nor its option list nor an octet outside twelve |
| TcpOptions.NopAlign | agent/src/syn_shape.rs:395-402 | The in-place move yields the aligned segment |
| SynRebuild.RebuiltOptions | agent/src/syn_shape.rs:325-372 | For every SYN and every system, the options of the rebuilt SYN are, in the order of the system's layout, the first options of each of its kinds that were there, with the bodies they had, exactly when those bodies have two octets for the MSS, one for the window scale, none for SACK-permitted and eight for timestamps |
| SynRebuild.RebuiltChosen | agent/src/syn_shape.rs:325-372 | They are what the printer took for each place, exactly when the window-scale option has one octet |
| SynRebuild.RebuiltScale | agent/src/syn_shape.rs:343-348 | Whatever the SYN had, a window-scale option read back from the rebuilt one has one octet |
| SynRebuild.SomeScaleIsLost | agent/src/syn_shape.rs:343-348 | For every system, a SYN with an empty window-scale option whose options are not kept |
| SynRebuild.SomeBodyIsDropped | agent/src/syn_shape.rs:349-353 | For every system, a SYN whose SACK-permitted option has a body, and comes back without |
| SynRebuild.OrderedHolds | agent/src/syn_shape.rs:327 | The first option of a kind among those a layout asks for is the first of that kind there was, if the layout has the kind |
| SynRebuild.RestrictedHolds | agent/src/syn_shape.rs:326-359 | What a layout takes of a kind is the first option of that kind there was: an MSS or timestamps only of the right size, a window scale of any, SACK-permitted always with an empty body |
| SynRebuild.RebuiltHeader | agent/src/syn_shape.rs:368-389 | Every rebuilt SYN is a multiple of four octets long, at most 88; its data-offset nibble is right exactly when it is shorter than 64, which it is whenever the window-scale option has one octet; only offset, window and checksum of the header change |
| SynRebuild.RebuiltWindow | agent/src/syn_shape.rs:375-386 | The window is never above the one offered; for Linux with an MSS it is the smaller of that and the greatest multiple of the MSS in 16 bits, otherwise the one offered |
| SynRebuild.RebuildSyn | agent/src/syn_shape.rs:325-390 | The printing loop with its two paddings writes the SYN of the model |
| SynTwice.RebuildTwice | agent/src/syn_shape.rs:325-390 | Rebuilding a rebuilt SYN changes nothing exactly when it had no window-scale option or one of one octet; or, for Linux, an empty one, or one or two zeros after the octet if it offers just one of SACK-permitted and timestamps; or, for macOS, no timestamps and a body of eleven octets, or nine with SACK-permitted, whose second to fifth octets read as two NOPs and the head of a timestamp option |
| SynTwice.RebuildThrice | agent/src/syn_shape.rs:325-390 | A third rebuild of any SYN changes nothing |
| SynTwice.SomeRebuildDiffers | agent/src/syn_shape.rs:343-348 | A SYN with a window scale of two octets that every system lays out differently the second time |
| ShaperRuns.StableFlow | agent/src/syn_shape.rs:224-254 | From one dialling of a port to the next, over every run on any ports, its flow has one system and one timestamp offset, and under Linux an ID that counts the packets sent modulo 2^16 |
| ShaperRuns.DialBegins | agent/src/syn_shape.rs:224-233 | A SYN something was expected of begins the flow it is itself shaped by, and cannot begin another until the port is expected again |
| ShaperRuns.Isolation | agent/src/syn_shape.rs:245-254 | A step on one port leaves every other port's flow, and what is expected of it, as they were |
| ShaperRuns.WindowsCounts | agent/src/syn_shape.rs:256-262 | The one counter of Windows counts the packets of all Windows flows modulo 2^16 |
| ShaperRuns.FlowIds | agent/src/syn_shape.rs:256-268 | Every packet of a flow has its system's hop limit; Linux IDs are consecutive in the flow, Windows IDs across all Windows flows, macOS IDs zero |
| ShaperRuns.EchoReturns | agent/src/syn_shape.rs:276-298 | Over every run within one dialling, smoltcp sees the echo of the TSval that left as the value the segment had before it was moved, exactly when the flow's offset is zero or the system offers timestamps just if the wire value was not zero; a zero echo stays zero; the peer's TSval and the TSecr sent are never changed; that value is the one smoltcp wrote, for a SYN if its window-scale option has one octet |
| ShaperRuns.SomeEchoIsLost | agent/src/syn_shape.rs:422-427 | A Linux flow, a packet of it whose TSval becomes zero on the wire, and the peer's echo of it, which smoltcp does not see as what it wrote |
| ShaperRuns.SizeKept | agent/src/syn_shape.rs:208-243 | Every packet but a SYN leaves as long as its total length says |
| ShaperRuns.PayloadUntouched | agent/src/syn_shape.rs:241-248 | Outside its options no octet of a segment that is not a SYN changes, checksum apart |
| ShaperRuns.OutShape | agent/src/syn_shape.rs:218-273 | What leaves is a packet whose lengths agree with its contents, with the segment of the model behind the header |
| ShaperRuns.InShape | agent/src/syn_shape.rs:278-298 | What arrives keeps its size, and its timestamp is moved back by the flow's offset, a zero echo and the peer's value excepted |
| PacketShaper.Shaper.Outbound | agent/src/syn_shape.rs:208-274 | The octets that leave and the shaper's new state are those of the model, for every packet and draw |
| PacketShaper.Shaper.Inbound | agent/src/syn_shape.rs:278-298 | The packet is rewritten in place to the one of the model |
| PacketShaper.Shaper.Expect | agent/src/syn_shape.rs:203-205 | Only what is expected of that port changes |
| TeamSyncRuns.NothingLost | agent/src/ipc.rs:3138-3474 | For any number of machines, in every interleaving of the parts of launches, closes, uploads, extension copies and a share that is calm, and whatever of the network, moving a directory aside, unpacking, packing or starting a browser fails: all that was ever finished on a machine is in the server's current bundle, in a copy it moved aside, or in its local copy, under the marker or with its upload awaited. Calm means, per machine: while an upload is awaited, no extension is copied in, no other close packs and no launch unpacks; while one the server has taken is awaited, no launch is answered with something to unpack; and a launch is answered only while no other has an answer, and to the record as it still is |
| TeamSyncRuns.VersionsGrow | server/src/api.rs:4907-4920 | In a calm run each accepted upload contains all the version before it contained, and versions rise one at a time |
| TeamSyncRuns.SameVersionSameContent | server/src/api.rs:4907-4920 | In any run, while the server's version stands, so does what it holds |
| TeamSyncRuns.MarkedIsNeverOverwritten | agent/src/ipc.rs:3170-3193 | Whatever a launch does to a marked copy, all of it is still in the directory or in a copy moved aside, and it stays in place when the server has not moved on |
| TeamSyncRuns.NobodyIsOverwritten | agent/src/ipc.rs:3403-3474 | A browser opened at one version and closed at another uploads nothing, and its work stays here under the marker; an upload that is taken contains what the server had |
| TeamSyncRuns.StepKeeps | agent/src/ipc.rs:3138-3474 | Every calm step, each part of a launch or close between two waits and each upload that arrives late among them, keeps every machine's records true of its copy and the server moving on |
| TeamLosses.CopyMeanwhileLoses | agent/src/ipc.rs:1268-1293 | An extension copied in while an upload is awaited is lost whenever that upload is taken and the answer heard |
| TeamLosses.UnpackMeanwhileLoses | agent/src/ipc.rs:3170-3193 | A bundle unpacked while an upload is awaited loses the session being uploaded whenever that upload is not taken, refused or given up |
| TeamLosses.SecondCloseLoses | agent/src/ipc.rs:3422-3474 | The session of a second close that cannot pack while an upload is awaited is lost whenever that upload is taken and the answer heard |
| TeamLosses.SecondUploadLoses | agent/src/ipc.rs:3422-3474 | So is one that packs, if its own upload is given up before that answer |
| TeamLosses.AskMeanwhileLoses | agent/src/ipc.rs:3145-3193 | From any state in which a launch is answered with a bundle that differs while an upload the server took is awaited, hearing of that upload, an unpacking that breaks off and one more session leave the server with that session alone, and all older work that was not moved aside is lost |
| TeamLosses.StaleRecordLoses | agent/src/ipc.rs:3145-3193 | The same from any state in which a launch is answered to a record that has changed into the server's version since it was read |
| TeamLosses.SecondLaunchLoses | agent/src/ipc.rs:2764-3306 | From any state in which a launch is answered while an older answer with something to unpack waits, landing in the other order and closing leaves the server with the older bundle and one session |
| TeamLosses.SomeCopyIsLost | agent/src/ipc.rs:3422-3474 | A run from the start, calm but for one copy during an upload, that loses the copy |
| TeamLosses.SomeSessionIsOverwritten | agent/src/ipc.rs:3342-3427 | A run from the start, calm but for one launch that unpacks during an upload, that loses the session |
| TeamLosses.SomeSecondCloseIsLost | agent/src/ipc.rs:3422-3474 | A run from the start, calm but for a second close that cannot pack during the first one's upload, that loses its session |
| TeamLosses.SomeBrokenCopyIsSent | agent/src/ipc.rs:3145-3193 | A run from the start, calm but for one launch answered during an upload that was taken and whose unpacking breaks off after it, that loses a session from the server |
| TeamLosses.SomeStaleRecordLoses | agent/src/ipc.rs:3145-3193 | A run from the start, calm but for one launch answered to a record read before an upload was heard of, that loses a session from the server |
| TeamLosses.SomeSecondLaunchLoses | agent/src/ipc.rs:2764-2780 | A run from the start, calm but for a launch answered while another has its answer, that loses another machine's session from the server |
| TeamLosses.BothOpen | agent/src/ipc.rs:2764-3306 | A calm run from the start after which one profile is open on two machines |
| TeamAgent.Agent.Begin | agent/src/ipc.rs:2764-2780 | An open profile is refused |
| TeamAgent.Agent.Request | agent/src/ipc.rs:3145 | The version recorded for the directory is what the launch asks with |
| TeamAgent.Agent.AskFor | agent/src/ipc.rs:3146 | The record it asked with and the server's answer are what the launch goes on with |
| TeamAgent.Agent.Land | agent/src/ipc.rs:3147-3268 | What follows the answer, branch by branch until the browser is started, is the landing of the model, with the marker read only now and wherever it breaks off |
| TeamAgent.Agent.Enter | agent/src/ipc.rs:3278-3303 | Only now the profile counts as open, at the version its browser was started at |
| TeamAgent.Agent.Launch | agent/src/ipc.rs:2764-3306 | All parts of a launch with nothing in between |
| TeamAgent.Agent.Close | agent/src/ipc.rs:3335-3348 | The profile stops counting as open at once |
| TeamAgent.Agent.PackUp | agent/src/ipc.rs:3363-3422 | The session is in the directory and the directory is packed, or marked if it cannot be |
| TeamAgent.Agent.Send | agent/src/ipc.rs:3425-3437 | The upload reaches the server, which takes it exactly when it grew from the current version |
| TeamAgent.Agent.Finish | agent/src/ipc.rs:3468-3474 | Heard and taken, the marker is cleared and the new version recorded; otherwise the marker is set |
| TeamAgent.Agent.Stop | agent/src/ipc.rs:3335-3487 | All parts of a close with nothing in between |
| TeamAgent.Agent.CopyExtension | agent/src/ipc.rs:1268-1293 | A closed profile held here gets the copy and, if it has none, a marker at the version held |
| TeamAgent.TeamServer.Upload | server/src/api.rs:4907-4996 | A new version is recorded exactly when the upload is allowed and grew from the current one; otherwise nothing changes |
| TeamAgent.TeamServer.Download | server/src/api.rs:5023-5092 | Nothing before the first upload, unchanged for a caller that holds the version, else the current bundle |
| Protobuf.VarintRoundTrip | agent/src/ext.rs:437-452 | Every 64-bit number is read back from its base-128 encoding, wherever it stands, and the cursor moves by exactly its length |
| Protobuf.Varint | agent/src/ext.rs:437-452 | The loop of shifts in 64 bits reads the number of the model, at most ten octets, the tenth cut to its lowest bit |
| Protobuf.SpansInOrder | agent/src/ext.rs:455-486 | On arbitrary bytes every slice found lies inside the buffer and no two overlap |
| Protobuf.FieldsAreSlices | agent/src/ext.rs:455-486 | What the scan collects is what those slices cut out of the buffer |
| Protobuf.ScanFields | agent/src/ext.rs:455-486 | The scan ends on every input and returns the payloads of the model |
| Protobuf.FieldsRoundTrip | agent/src/ext.rs:455-486 | For every message of varint, fixed32, fixed64 and length-delimited fields, the scan of its encoding finds exactly the payloads of the number asked for, in order |
| CrxContainer.ParseCrx | agent/src/ext.rs:85-126 | The checks in their order, and the search of the proofs, give the result of the model |
| CrxContainer.ChosenMeans | agent/src/ext.rs:110-121 | The key chosen is one a proof carries whose digest begins with the identifier, and no proof before it does; none is chosen exactly when no proof does |
| CrxContainer.ParsedIsConsistent | agent/src/ext.rs:85-126 | A package that parses carries in its signed header the first half of its key's digest, and its identifier is that in letters |
| CrxContainer.PackageRoundTrip | agent/src/ext.rs:85-126 | Any package, whatever else its header holds and however many proofs, parses to the key its messages choose, and the archive begins where it was put |
| CrxContainer.PackageOf | agent/src/ext.rs:85-108 | Every header whose length fits its 32 bits, and every archive, make a package |
| CrxContainer.DecoysAreSkipped | agent/src/ext.rs:110-118 | Behind any number of proofs of other keys the right one is found |
| CrxContainer.LettersBack | agent/src/ext.rs:133-141 | An identifier is two letters from a to p for every octet, and determines the octets |
| ZipPaths.JoinIsSafe | agent/src/ext.rs:414-427 | A name is refused exactly when it is absolute or one of its parts is `..`; otherwise its components are non-empty, neither `.` nor `..`, and without separators |
| ZipPaths.JoinBack | agent/src/ext.rs:414-427 | A name made of safe components is joined to exactly those |
| Zip.Target.Unzip | agent/src/ext.rs:344-406 | The backward search and the walk leave the files, and stop with the error, of the model |
| Zip.FindEnd | agent/src/ext.rs:348-351 | The last place where a whole end record could begin is found, or there is none |
| Zip.UnzippedIsSafe | agent/src/ext.rs:344-427 | On any bytes, wherever unpacking stops, every file written lies below the directory, by components none of which is empty, `.` or `..` |
| Zip.OutOfBoundsMeans | agent/src/ext.rs:357-377 | For an entry the model says `OutOfBounds` exactly when one of the slices the program takes for its headers, in their order, does not lie inside the bytes |
| Zip.UnzipReadsInside | agent/src/ext.rs:344-379 | On any bytes the program is stopped by a read past the end exactly when an end record is found and one of the entries it counts that is reached takes such a slice |
| ZipBuild.EndIsFound | agent/src/ext.rs:348-351 | The end record is the one found exactly when nothing after it looks like one |
| ZipBuild.NoCommentNoLaterEnd | agent/src/ext.rs:348-351 | An archive without a comment has nothing after its end record that looks like one |
| ZipBuild.CommentHides | agent/src/ext.rs:348-351 | A comment that is an end record of an empty archive makes any archive unpack to nothing |
| ZipBuild.ArchiveRoundTrip | agent/src/ext.rs:353-406 | An archive of any number of entries, with any extra fields, local ones that differ from the central ones, and any comment that does not look like an end record, unpacks to what its entries say in their order |
| ZipBuild.ExtractedMeans | agent/src/ext.rs:381-404 | Good entries never fail, and each path ends with the content of the last entry that names it |
| ZipBuild.ZipRoundTrip | agent/src/ext.rs:344-406 | Into an empty directory such an archive leaves exactly its map from names to contents, stored or inflated, later entries winning |
| MirrorRuns.NoFeedback | agent/src/mirror.rs:195-211 | In every interleaving in which a member does not join anew, what its page reports less than 600 ms after any replay began in it is never fanned out |
| MirrorRuns.JoiningForgets | agent/src/mirror.rs:178-190 | A member that joins anew is heard at once |
| MirrorRuns.EveryActionCounted | agent/src/mirror.rs:394-411 | If every echo comes within 600 ms of a replay in its page, the mirrored counter and the number of actions ever queued both equal, summed over genuine events that were not muted, the number of other members holding a page |
| MirrorRuns.PerformsTheProjection | agent/src/mirror.rs:195-213 | What a member has performed and still holds is the one sequence of fan-outs, restricted to those that went to it, with their events |
| MirrorRuns.SameOrder | agent/src/mirror.rs:195-213 | Any two members perform any two events they both received in the same order |
| MirrorRuns.HeardByAllOthers | agent/src/mirror.rs:394-410 | An event that is not dropped goes to every member but its own that holds a page at that moment, and to nobody else |
| MirrorRuns.BroadcastIsNotRebroadcast | agent/src/mirror.rs:482-502 | A navigation that a broadcast caused is never broadcast again, however late it arrives, if its page was sent and went nowhere else in between |
| MirrorRuns.ClickExplains | agent/src/mirror.rs:386-405 | For four seconds after a click was remembered for a page, no arrival in it is broadcast |
| MirrorRuns.ClickIsRemembered | agent/src/mirror.rs:386-405 | A click that is fanned out is remembered for the page it comes from and for every page it goes to |
| MirrorHub.Hub.FanOut | agent/src/mirror.rs:379-412 | The loop over the members mutes, queues and counts exactly as the step of the model |
| MirrorHub.Hub.Work | agent/src/mirror.rs:195-213 | A worker takes the front of its queue and mutes whoever is in the group under its name |
| MirrorHub.Hub.OnNavigated | agent/src/mirror.rs:482-507 | Exactly the followers of the model are muted, given the address and returned |
| MirrorHub.Hub.Join | agent/src/mirror.rs:178-190 | A member enters with a queue of its own, unmuted and with no page |
| MirrorHub.Hub.Detach | agent/src/mirror.rs:329-335 | Only that page session leaves |
| BundleTree.AppendDir | agent/src/bundle.rs:404-436 | The recursive walk appends exactly the archive of the listing |
| BundleTree.ArchivedMeans | agent/src/bundle.rs:404-436 | The archive has an item exactly for the paths that name a file and have no skipped name on them, components and dictionaries counting only at the top |
| Bundles.SealMatrix | agent/src/bundle.rs:84-136 | A data key sealed by one sealer comes back under another exactly when they share the key, a machine-sealed one under a shared sealer with that machine's vault among them; otherwise nothing comes back |
| Bundles.HexRoundTrip | agent/src/bundle.rs:438-451 | Every key is read back from its digits |
| Bundles.ReadHex | agent/src/bundle.rs:442-451 | The loop reads sixty-four characters as the standard library does, or nothing |
| Bundles.Pack | agent/src/bundle.rs:312-350 | Packing yields the archive of the profile under the data key, or refuses when sealing would not seal |
| Bundles.Directory.Unpack | agent/src/bundle.rs:352-402 | Unpacking writes the archive's files in order over what is on the disk, below the directory or where an absolute path says, stops at a climbing path, and otherwise says how many files it wrote or why it wrote none |
| Bundles.BelowUnlessAstray | agent/src/bundle.rs:380-400 | Whatever is on the disk, everything an archive writes lies below the directory exactly when no file it reaches has an absolute path that leads elsewhere |
| Bundles.BundleRoundTrip | agent/src/bundle.rs:312-402 | Packed by one sealer and unpacked by another, over any disk, exactly the files that travel are written below the directory and nothing else is touched if they match, and nothing is if they do not |
| Bundles.ListingOrder | agent/src/bundle.rs:404-436 | Bundles of the same files unpack the same, in whatever order directories are listed |
| Bundles.RepackSame | agent/src/bundle.rs:312-436 | Packing what was unpacked carries the same files again |
| SocksClient.Connect | agent/src/relay.rs:832-932 | On every reply stream, and whichever write fails, the client says exactly what the model says, and on success stands exactly behind the replies; every failure has its own error |
| SocksClient.SaidDecodes | agent/src/relay.rs:838-908 | After success what was sent decodes under the grammar of the two standards to the methods offered, that host and that port, and that login if it was asked for, exactly when the login's lengths are from 1 to 255 |
| SocksClient.SomeLoginIsCut | agent/src/relay.rs:878-881 | A user name of 256 octets with which the tunnel opens and the dialogue does not decode |
| SocksClient.GrantIsConsumed | agent/src/relay.rs:843-930 | Every server that grants the request, with any of the three kinds of bound address, is understood and consumed to the octet, whatever follows |
| SocksClient.OnlyGrantsSucceed | agent/src/relay.rs:843-930 | Success means a method choice, a login accepted if one was asked for, and a reply that grants, were what was consumed |
| RequestHead.ReadHead | agent/src/relay.rs:1019-1039 | The loop stops within 65537 reads with at most 64 KiB and a chunk; head followed by leftover are the octets read, and the head is their shortest prefix ending in a blank line |
| RequestHead.FindHeadersEnd | agent/src/relay.rs:1041-1043 | The first place where a blank line ends |
| RequestHead.ChunkIndependence | agent/src/relay.rs:1019-1039 | However one stream is cut into reads, any two readings that succeed return the same head, the shortest prefix of the stream ending in a blank line |
| RequestHead.ShortHeadsAreRead | agent/src/relay.rs:1034-1037 | A stream whose head is at most one octet over 64 KiB is never given up on, however it is cut |
| RequestHead.LongHeadsMayBeRefused | agent/src/relay.rs:1034-1037 | One octet more, and a read that stops short of it refuses |
| Base64.RoundTrip | agent/src/relay.rs:1234-1246 | Every sequence of octets is read back from its encoding |
| Base64.EncodedSize | agent/src/relay.rs:1234-1246 | The encoding has four symbols for every three octets or the one or two left over |
| Base64.EncodeChunks | agent/src/relay.rs:1234-1246 | The loop over chunks of three writes the encoding of the model |

## Left out

- FarmDay.TimesSpread: the upper end of the window is stated for clocks at or after 1970, because earlier times are stored as zero.
- FarmRuns.StepStartsRight: the hours are stated for clocks at or after 1970, for the same reason.
- FarmLog.SitesAreLogged: assumes, as the code does of its random identifiers, that no identifier is given to two plans.
- MirrorRuns.EveryActionCounted: a sleep between two actions, and commands to a browser that fail, are not part of this model.
- Real time zones and daylight saving: a profile's clock is a fixed offset from UTC. The calendar has no last date.
- The JSON text of the plan file, how identifiers are made (a new plan's identifier is assumed new), milliseconds below one, and overflow of the 64-bit count of sites.
- PacketShaper.Shaper.Outbound: the packet has an IPv4 header of at least five words, as every packet of the stack has; on a shorter one the code would write past the header.
- The octets of checksums: the IPv4 and TCP checksums are two functions the shaper is given. Smoltcp itself is not part of this model.
- Ephemeral ports and the window shift the stack is told before it connects: they are constants.
- Packets and replies longer than memory, and the 32-bit limits of file offsets beyond those stated.
- SHA-256, inflate, tar, gzip and the ciphers: functions the model is given, or inverses that open under the right key only.
- File-system errors: files that cannot be read or written, a path that is a file in one entry and a directory in another, symbolic links and cycles of them. An archive's files are a map from paths to contents.
- RequestHead.ReadHead: the code returns the head as text, with octets that are not UTF-8 replaced; here the head is the octets read.
- Bundles.BelowUnlessAstray: a path is the sequence of its names; prefixes and drive letters of Windows paths, and `.` as a name, are not modelled.
- Text encodings: names in archives are octets, taken to be valid UTF-8; a wrapped key that opens to text other than ASCII is not modelled.
- Reading past the end of a damaged archive stops the Rust program; here it is the error `OutOfBounds`, and `Zip.UnzipReadsInside` says for which bytes.
- The manifest, its key and the localised name of an installed extension, and which directories hold an extension's state.
- TeamSyncRuns.NothingLost: a marker that cannot be written, which the agent only logs, an agent that ends with a browser open or an upload awaited, and a close that fails before it packs (the browser cannot be asked, or there is no lock token) are not among the failures modelled. That calm is needed is shown clause by clause, from the states `TeamLosses` names; a run that is not calm may be lucky.
- TeamAgent.Agent.Land: the directory, the marker and the record are changed in one step; another thread of the agent reading them midway is not modelled.
- The lock with its heartbeat: a server may refuse any upload, and the team theorems need no more of it.
- Sockets, TLS and CDP commands, and the replies routed to them by number; the HTTP proxy dialect, local routes and header rewriting of the relay. A write that fails in the SOCKS5 dialogue has sent nothing here.
- Where a mirrored click lands in a page, the delays between actions, and the motor profile of a window.
- The persona, domain lists, launcher, importers, desktop shell and the rest of the server, which hold no state of these protocols.
