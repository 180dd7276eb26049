# Identity migration, relocation and update engine: a verified model

The toolkit moves a VPN identity between users (`gnosis_vpn-migrate`) and installs releases (`gnosis_vpn-update`).
Both work as root on state that must survive failing calls, crashes and bad links. This project models the parts
where that is hard and proves what they promise.

## How the model is built

**The filesystem** (`Kernel`, `Trees`, `Steps`, `FileSystem`, `Growth`) is a graph of inodes: directories with their
names, files with their bytes, other leaves, each with owner and mode. Link counts are derived from the graph. An open
handle is an inode number, so it keeps meaning the same thing across renames. `FileSystem` is a class: each call either
takes effect as POSIX.1-2017 says (`rename` replaces an empty directory, refuses a full one, refuses to move a directory
into itself) or fails. On a `faulty` system any call may fail, and a write may store other bytes than it was given and
still report success, so the hash check of every copy is needed for what is proved. `faults` counts the injected
faults, `undoFaults` those of them that an undo call met. `history` holds the state after every call that changed
something: a statement about every entry of `history` is a statement about every point at which the process can be
killed. A well-formed graph is a tree of directories (a height that falls along every entry), which every call keeps.

**The migration** (`Identity`, `Staging`, `Networks`, `LegacyHome`, `Install`, `Migrate`, `Reset`) follows the source
method by method. `Safety` says what holds in every state of every run, whatever fails: `Safe(s0, s, job)` compares a
state with the one the run started in. `Rollback` says why a failed run leaves only parent directories. `Arrival`
says what a migration amounts to in the names of the files themselves, without the plan. `Runs` puts several runs in a
row: crash and rerun, both ways out of a conflict, repeats. `Worlds` drives them through concrete worlds, for any bytes,
network and timestamp.

**Relocation** (`Regions`, `Relocate`, `Relocation`) describes each step by the paths it may cut, fill or create. Any
list can be run and every result tells what its step did; what a whole run keeps is proved for orderly lists, and the
two lists that are built are shown orderly. `LayoutRuns` runs them as the command does, system first and then the user,
and says with the paths written out where every file ends up.

**Downloading** (`Rounds`, `Download`, `Retries`) is a loop against an origin that drops, stalls, ignores ranges and
publishes newer releases, with a file whose position is modelled apart from its length. The obligations of an honest
origin are those of RFC 9110, sections 13.1.5, 14.2 and 15.3.7; its releases may or may not be told apart by their
validators. Time is an ideal clock. Loops end on a lexicographic rank, so termination is part of what is proved. `Rounds`
describes attempts that end in a retry as values, and `Retries` counts them. An origin may be given a script of rounds:
when they are ones an honest origin could take part in, it answers by them, which is how the runs in `Retries` come
about. It keeps what it `said`, so that every answer of the client can be traced to its cause.

**Versions and the engine** (`Decimals`, `Versions`, `Spelling`, `Engine`) hold the version order, its three clients,
and the engine's pipeline as a trace of events. `Spelling` pins what a version string means: pieces, decimal numbers,
channels.

sha256 stands for the bytes it identifies, so equal digests mean equal contents.

## What was found

- The migration promises to delete nothing. In a fault-free run that has to install, everything found in the networks
  directories is kept if and only if no directory goes by the staging name (`Runs.InstallKeepsAll`). That name is not
  made unique: with a directory there staging fails, and the cleanup removes it, whoever made it
  (`Worlds.LosesForeignDirectory` loses a file that way). Anything else by that name makes staging fail too, but
  survives; with no directory there nothing is lost in any state of any run, whatever fails (`Runs.SafeKeeps`).
- The repository's own README.md (lines 175-177) says a crash between the two publishing renames is reported as a
  conflict. That is so exactly when there is a safe file to cache; otherwise all planned files are already live and the
  next run finishes (`Runs.RerunHalfWay`, and both ways as concrete crashes in `Worlds.CrashBetweenRenames`).
- Once `.config` has left its name no later run finds it. A run killed after that rename and before the directory is
  locked down therefore leaves the old key as readable as it was, for good (`Worlds.UnlockedCrash`): after a rerun the
  directory is locked if and only if it was still in place or locked already (`Runs.Recover`).
- A sync that fails after both renames is an error, but the new identity is live and stays complete: the cleanup cannot
  replace the data directory, and can replace the cache directory only when nothing was planned for it
  (`Install.InstallIdentity`, `Install.LiveUndone`).
- On macOS a network called `config-x` loses its prefix when read back from the link (`Names.MacLinkLosesPrefix`); the
  round trip holds exactly for names without it (`Names.MacLinkRoundTrip`).
- After installing a release the check says up to date exactly when the release's version belongs to the channel and
  the release would accept itself (`Versions.Settles`).
- After the installer ran, the updater's path has the new binary if one was to land and the old one if not, if and only
  if the installer lands one whenever it succeeds: success drops the old copy without looking (`Engine.RunEngine`;
  `Engine.LosesUpdater` is an installer that costs the updater).
- The same holds for starting clean: once it has succeeded the legacy directory is locked (`Reset.StartClean`), but a
  run killed between its rename and its lock-down leaves the backup as open as it was, and starting clean again finds
  nothing to do (`Worlds.UnlockedReset`).
- The download client never mixes two releases while validators tell them apart (`Rounds.NeverMixed`). Releases without
  an ETag that share a modification date, or have none, are not told apart: a run against an honest origin ends with a
  file that is the start of neither (`Retries.Splices`). Only the digest catches that.
- The client starts over as often as the origin makes it, and keeps going only for that: its attempts are bounded by the
  ranges the origin ignores and its releases (`Retries.HonestBounded`), and an honest origin that ignores every range
  takes it through any number of them (`Retries.KeepsGoing`).
- The free space asked for is a 64-bit sum that wraps around for sizes near the largest (`Engine.HeadroomWraps`).

## Model

| member | source | states |
|---|---|---|
| Runs.Recover | gnosis_vpn-migrate/src/migrate.rs:277-347 | from every state a run can be stopped in, a fault-free rerun with `replace` ends Migrated, AlreadyMigrated or NothingToMigrate with every file the first run found at its place with the bytes it had then, and no legacy directory left; the old directory ends locked if and only if it was still in place or locked already |
| Runs.RerunHalfWay | gnosis_vpn-migrate/src/migrate.rs:298-320 | after a crash between the publishing renames, a run without `replace` reports Conflict if and only if the safe file existed, else AlreadyMigrated |
| Safety.BetweenRenames | gnosis_vpn-migrate/src/migrate.rs:885-891 | the state between the two renames has a complete data side, no cache side, and the legacy files still found |
| Runs.HalfAtTarget | gnosis_vpn-migrate/src/migrate.rs:656-679 | in that state everything planned is at its target if and only if no safe file was planned |
| Runs.RerunPlan | gnosis_vpn-migrate/src/migrate.rs:507-523 | while the legacy files are still found, a later run plans exactly the same copies |
| Runs.ReplaceAfterConflict | gnosis_vpn-migrate/src/migrate.rs:312-346 | after a Conflict, asking again with `replace` ends Migrated, both sides complete and the old entries under replaced names |
| Runs.CleanAfterConflict | gnosis_vpn-migrate/src/migrate.rs:350-363 | starting clean without a user leaves the user's whole home as it was and makes the next run NothingToMigrate |
| Runs.CleanTwice | gnosis_vpn-migrate/src/migrate.rs:350-363 | a repeated start-clean is NothingToDo |
| Runs.MigrateTwice | gnosis_vpn-migrate/src/migrate.rs:277-284 | after a run that was no Conflict the next one finds nothing and the files stay at their targets |
| Runs.InstallKeepsAll | gnosis_vpn-migrate/src/migrate.rs:328-336 | a fault-free install fails if and only if the staging name is taken, and every entry found in both networks directories is kept with its tree if and only if no directory goes by that name |
| Runs.SafeKeeps | gnosis_vpn-migrate/src/migrate.rs:749-898 | with no directory by that name, every state of every run keeps every entry of both networks directories, the network's own perhaps under a replaced name |
| Worlds.LosesForeignDirectory | gnosis_vpn-migrate/src/migrate.rs:332-335 | a fault-free run in a concrete world fails and removes a directory it did not make, with the file in it |
| Worlds.CrashBetweenRenames | gnosis_vpn-migrate/src/migrate.rs:878-898 | a concrete fault-free run passes through the state between the renames; started from there, a run without `replace` reports Conflict with a safe file and AlreadyMigrated without one |
| Worlds.UnlockedReset | gnosis_vpn-migrate/src/migrate.rs:366-383 | a concrete run of start-clean is killed between the rename and the lock-down; a second one has nothing to do and leaves the backup unlocked |
| Worlds.UnlockedCrash | gnosis_vpn-migrate/src/migrate.rs:525-545 | a concrete run is killed between renaming the legacy directory and locking it down; the rerun finds nothing to migrate and leaves its owner and mode as they were |
| Worlds.FirstMigration | gnosis_vpn-migrate/src/migrate.rs:277-347 | in a world with an identity, and perhaps a safe file, the fault-free run ends Migrated, the bytes at the user's target and the legacy directory gone |
| Worlds.WorldReady | gnosis_vpn-migrate/src/migrate.rs:277-347 | the preconditions of a migration are met in concrete worlds, for any identity bytes, network and timestamp, and the staging name is free unless a directory was put there |
| Migrate.MigrateIdentity | gnosis_vpn-migrate/src/migrate.rs:277-347 | every state passed through is safe; Conflict, dry runs and NothingToMigrate change nothing. Migrated or AlreadyMigrated means that of the legacy files that were there `.config/gnosisvpn-hopr.id`, `.config/gnosisvpn-hopr.pass` and `curvy-pix.redb` are, byte for byte, `hopr.id`, `hopr.pass` and `pix/curvy-pix.redb` in the network's data directory and `.config/gnosisvpn-hopr.safe` is `hopr.safe` in its cache directory. Migrated means besides that both directories hold nothing else but the marker, everything in them the account's, 0o600 or 0o700, that the directories made on the way have the modes asked for, that what was there is under a replaced name with the timestamp, the legacy files under names with it and locked down, and that the report lists exactly these moves. If the history shows the new identity live, it stays at its target; a failed run that was never live leaves nothing but parents if no undo call met a fault and no directory went by the staging name, always so with at most one fault and that name free; without faults the answer is the one the starting state decides |
| Arrival.ArrivedBy | gnosis_vpn-migrate/src/migrate.rs:465-504 | everything planned at its target means each of the four legacy files that was there at its own place with its own bytes |
| Arrival.NothingElseBy | gnosis_vpn-migrate/src/migrate.rs:811-876 | a live identity is those files and the marker, and nothing else, private throughout |
| Arrival.FilesReported | gnosis_vpn-migrate/src/migrate.rs:287-293 | the report lists each of them with where it came from and where it went, in that order |
| Arrival.PlacesSpelled | gnosis_vpn-migrate/src/layout.rs:86-116 | the network's directories in both layouts, spelled out |
| Migrate.Carry | gnosis_vpn-migrate/src/migrate.rs:298-346 | the same, once the plan is made |
| Migrate.Proceed | gnosis_vpn-migrate/src/migrate.rs:325-346 | a migrated run passed through data side live, both sides live, and legacy aside but open; a failed one that was never live is undone unless an undo call met a fault, which takes a second one; without faults it succeeds if and only if nothing blocks the chain and the staging name is free |
| Migrate.Finish | gnosis_vpn-migrate/src/migrate.rs:337-339 | moving the legacy directory aside keeps every planned file at its target in every state |
| Migrate.Already | gnosis_vpn-migrate/src/migrate.rs:300-310 | an earlier run that stopped after publishing is finished, unless on a dry run |
| Migrate.LiveThroughLegacy | gnosis_vpn-migrate/src/migrate.rs:337-339 | the published directories do not notice the legacy move |
| Install.InstallIdentity | gnosis_vpn-migrate/src/migrate.rs:325-337 | from creating directories to publishing: every state safe; a run whose history shows both sides live has everything at its target even if it then fails; any other failed run leaves only created parents if no undo call met a fault and no directory went by the staging name; two faults are needed to defeat the undo; success means both sides are complete, the account's and private |
| Install.InstallAt | gnosis_vpn-migrate/src/migrate.rs:327-336 | the same from the open directories on, with the staging name's fate |
| Install.StageAndPublish | gnosis_vpn-migrate/src/migrate.rs:330-331 | staged completely before published; what is published is what was staged, the account's and private |
| Install.Undo | gnosis_vpn-migrate/src/migrate.rs:332-335 | removes the staging names and renames the aside entries back where the network name is free |
| Install.LiveUndone | gnosis_vpn-migrate/src/migrate.rs:779-787 | an undo after both renames took effect leaves every planned file at its target |
| Install.FailedRunUndone | gnosis_vpn-migrate/src/migrate.rs:326-336 | a failed run with the staging name free at the start leaves only created parents behind |
| Install.SourcesUnchanged | gnosis_vpn-migrate/src/migrate.rs:326-327 | creating parents and moving the present identity aside leave every planned source as it was hashed |
| Install.PublishedSettled | gnosis_vpn-migrate/src/migrate.rs:337-339 | once published, the state is one the legacy directory may be moved from |
| Rollback.RunUndone | gnosis_vpn-migrate/src/migrate.rs:326-336 | aside, staged, taken back, dropped, restored: every entry of every old directory is back under its name |
| Rollback.AsideUndone | gnosis_vpn-migrate/src/migrate.rs:752-761 | a move aside that was taken back disturbed nothing |
| Staging.FreshBelow | gnosis_vpn-migrate/src/migrate.rs:779-787 | below something new there is only what is new, so a cleanup of this run's staging removes only this run's work |
| Safety.GrownSafe | gnosis_vpn-migrate/src/migrate.rs:720-739 | creating missing parents keeps every promise |
| Safety.GrownKeeps | gnosis_vpn-migrate/src/migrate.rs:720-739 | it changes no entry of a networks directory, no tree below one, and nothing of the legacy home |
| Safety.AsidePhase | gnosis_vpn-migrate/src/migrate.rs:749-763 | moving aside keeps both sides whole or old, and the old tree under a kept name |
| Safety.StagedPhase | gnosis_vpn-migrate/src/migrate.rs:811-828 | filling staging directories changes no other entry |
| Safety.PublishPhase | gnosis_vpn-migrate/src/migrate.rs:878-898 | every state of publishing has each side absent, old or completely staged |
| Safety.DropPhase | gnosis_vpn-migrate/src/migrate.rs:779-787 | so has every state of removing staging trees |
| Safety.BackPhase | gnosis_vpn-migrate/src/migrate.rs:766-777 | and of restoring |
| Safety.PhaseSafe | gnosis_vpn-migrate/src/migrate.rs:325-337 | the two sides' invariants give all the promises: no half-written identity, nothing lost, bystanders untouched, legacy last |
| Safety.LegacySafe | gnosis_vpn-migrate/src/migrate.rs:525-538 | moving the legacy identity aside keeps them too, once everything is at its target |
| Safety.FoundFrame | gnosis_vpn-migrate/src/migrate.rs:435-523 | steps outside the legacy home leave every legacy file found, readable, single-linked and equal in content |
| Safety.VerdictIsFile | gnosis_vpn-migrate/src/migrate.rs:656-704 | the comparison finds no difference if and only if the very bytes are in a single-named regular file reached through directories only |
| Safety.VerdictExact | gnosis_vpn-migrate/src/migrate.rs:656-704 | missing means no such file is there, differing that one with other bytes is |
| Safety.MismatchesSay | gnosis_vpn-migrate/src/migrate.rs:656-679 | the list names exactly the planned files not at their targets, each with what is wrong with it |
| Safety.SafePlanned | gnosis_vpn-migrate/src/migrate.rs:484-491 | a cached file is planned if and only if the safe file exists |
| Identity.Find | gnosis_vpn-migrate/src/migrate.rs:435-504 | a successful answer is what the state decides, whatever failed elsewhere |
| Identity.Plan | gnosis_vpn-migrate/src/migrate.rs:507-523 | a plan holds the digest of every source and exists if and only if every source is a readable single-linked file |
| Identity.Exists | gnosis_vpn-migrate/src/migrate.rs:633-647 | anything bound at the network name of either side counts as present |
| Identity.Compare | gnosis_vpn-migrate/src/migrate.rs:656-679 | faults may add mismatches but an empty answer always means everything is at its target |
| Identity.NoMismatches | gnosis_vpn-migrate/src/migrate.rs:656-679 | the list is empty if and only if everything is at its target |
| Staging.StageBoth | gnosis_vpn-migrate/src/migrate.rs:811-828 | success means both sides complete byte for byte with nothing else in them, owned by the account and private; every state only adds below the staging name; without faults it succeeds if and only if the name is free on both sides |
| Staging.CopyVerified | gnosis_vpn-migrate/src/migrate.rs:830-858 | a copy that succeeds holds exactly the planned bytes even if writes lied, with the account's owner and private mode, as have the directories made on the way; below the directory only its path changes |
| Staging.WriteMarker | gnosis_vpn-migrate/src/migrate.rs:868-876 | the provenance marker is there, private to the account |
| Networks.CreateNetworks | gnosis_vpn-migrate/src/migrate.rs:720-739 | only directories of the chain appear, each the account's with the mode of the first request it leads to, and the handles are where their paths lead; without faults it succeeds if and only if nothing blocks the chain |
| Networks.ChainModes | gnosis_vpn-migrate/src/layout.rs:86-110 | in both real layouts these are 0o700 from the data and the cache directory on and for `Library`, 0o755 above |
| Networks.MoveAside | gnosis_vpn-migrate/src/migrate.rs:749-763 | all or nothing: both sides under aside names with the timestamp, or neither unless the taking back failed too, which takes two faults |
| Networks.MoveAsideIn | gnosis_vpn-migrate/src/migrate.rs:791-808 | the entry goes by a fresh aside name, nothing else changes |
| Networks.Restore | gnosis_vpn-migrate/src/migrate.rs:766-777 | an aside entry comes back wherever its name is free and no call fails, and can only oust something empty |
| Networks.Remove | gnosis_vpn-migrate/src/migrate.rs:779-787 | only entries of the staging trees go |
| Networks.Publish | gnosis_vpn-migrate/src/migrate.rs:878-898 | nothing, data only or both in every state; unless both, nothing is left if no undo call met a fault |
| LegacyHome.MoveLegacyAside | gnosis_vpn-migrate/src/migrate.rs:525-538 | `.config` before the PIX db, both under fresh names with the timestamp, the tree untouched; without faults the directory is locked and the home secured |
| LegacyHome.MoveConfigAside | gnosis_vpn-migrate/src/migrate.rs:527-530 | the moved directory is root's alone before anything else moves |
| LegacyHome.SecureLeftovers | gnosis_vpn-migrate/src/migrate.rs:549-570 | without faults every directory whose name starts with `.config` is root's with mode 0o700 and nothing below the home is owed to the old account |
| LegacyHome.SecureEntry | gnosis_vpn-migrate/src/migrate.rs:572-594 | one entry of that sweep; only owners and modes change |
| Reset.StartClean | gnosis_vpn-migrate/src/migrate.rs:350-363 | nothing is lost in any state; success leaves nothing for a second one, met no fault, and a directory ends locked if and only if it was or is the one backed up; the new names carry the timestamp; NothingToDo means there was nothing; without a user only the legacy home is touched |
| Reset.MoveUserAside | gnosis_vpn-migrate/src/migrate.rs:350-363 | the user's half after the legacy half: nothing lost in any state, and success leaves both halves with nothing to do |
| Reset.MoveConfigAside | gnosis_vpn-migrate/src/migrate.rs:366-383 | the legacy directory goes by a fresh backup name, was open under it, and once the call succeeds is the only one locked anew |
| Reset.MoveUserDirsAside | gnosis_vpn-migrate/src/migrate.rs:386-399 | each side's entry goes by a reset name, nothing is created, nothing else changes |
| Reset.ResetKeeps | gnosis_vpn-migrate/src/migrate.rs:386-399 | an entry moved by a reset keeps its whole tree under a reset name |
| Reset.BackedKeeps | gnosis_vpn-migrate/src/migrate.rs:366-383 | every entry of the legacy home keeps its whole tree under its name or a backup name |
| Names.UniqueName | gnosis_vpn-migrate/src/migrate.rs:919-931 | terminates, and returns the candidate if free, else the least free numbered one |
| Names.NumberedInjective | gnosis_vpn-migrate/src/migrate.rs:926 | different numbers make different names |
| Names.NamespacesDisjoint | gnosis_vpn-migrate/src/migrate.rs:328 | staging, replaced and reset names never coincide, across networks and timestamps, and none is a network name |
| Names.DerivedNames | gnosis_vpn-migrate/src/network.rs:20-22 | the text before the first dot of a derived name is its network |
| Names.NetworkSpelled | gnosis_vpn-migrate/src/network.rs:21-22 | network names are made of lower-case letters, digits and dashes, at least one |
| Names.NamesSpelled | gnosis_vpn-migrate/src/migrate.rs:749-808 | staging, replaced and reset names as they appear in a directory |
| Names.LinuxLinkRoundTrip | gnosis_vpn-migrate/src/network.rs:6-31 | the network written into the Linux link is read back |
| Names.MacLinkRoundTrip | gnosis_vpn-migrate/src/network.rs:6-31 | on macOS it is read back if and only if it does not start with the prefix |
| Names.MacLinkLosesPrefix | gnosis_vpn-migrate/src/network.rs:20 | a concrete network that is not |
| Layout.BothLayoutsWellLaid | gnosis_vpn-migrate/src/layout.rs:86-110 | in both layouts neither side lies inside the other and every parent leads to one |
| TreeWalks.RemoveTree | gnosis_vpn-migrate/src/nofollow.rs:151-167 | success removes exactly the subtree's entries, every state only some of them; without faults it fails only on what is no directory, changing nothing |
| TreeWalks.RemoveExact | gnosis_vpn-migrate/src/nofollow.rs:151-167 | a path resolves as before unless it leads through the removed entry |
| TreeWalks.ReownTree | gnosis_vpn-migrate/src/nofollow.rs:183-202 | for any account, root too: exactly what is owed changes owner, the answer is how many inodes that is, and failures leave part of it done |
| TreeWalks.ReownExact | gnosis_vpn-migrate/src/nofollow.rs:183-214 | afterwards nothing below is the account's but leaves with several names and a second walk owes nothing, unless the account is root itself, for which nothing changes; nobody else's owner changes |
| Nofollow.FindDir | gnosis_vpn-migrate/src/nofollow.rs:27-37 | walks directories only and changes nothing |
| Nofollow.EnsureDir | gnosis_vpn-migrate/src/nofollow.rs:40-55 | only missing components appear, with the owner and mode asked for; without faults it succeeds if and only if no component is something else |
| Growth.WalkBlocked | gnosis_vpn-migrate/src/nofollow.rs:27-37 | a walk fails if and only if a component resolves to something that is no directory |
| Growth.WalkGrown | gnosis_vpn-migrate/src/nofollow.rs:40-55 | creating directories neither blocks nor unblocks a walk |
| FileSystems.FileSystem.RenameAt | gnosis_vpn-migrate/src/nofollow.rs:118-125 | renameat succeeds exactly when the source is bound, is not moved into itself and what it replaces yields |
| FileSystems.RenameExact | gnosis_vpn-migrate/src/nofollow.rs:118-125 | an empty directory yields to a directory, a leaf to a leaf, anything to itself and nothing else; then the source goes by the new name only |
| Relocation.Run | gnosis_vpn-migrate/src/relocate.rs:116-147 | any list: it fails only if the root cannot be opened, every step runs, its report entry tells what it did, and only a failed entry can hide a failing call; an orderly one: in every state a destination found at the start is unchanged, a source is lost only to a destination that was there, and whatever no step is about keeps its tree; without faults every step answers by what is there, all end idle, and idle steps move and remove nothing |
| Relocation.RunTwice | gnosis_vpn-migrate/src/relocate.rs:116-147 | a second fault-free run of an orderly list moves and removes nothing |
| Relocation.OneEntryEach | gnosis_vpn-migrate/src/relocate.rs:119-145 | at most one entry per step, and none if and only if no step had anything to do |
| Relocation.ReportSays | gnosis_vpn-migrate/src/relocate.rs:119-145 | a move is listed as moved, with where it went, if and only if that was its result; so for what was removed and what failed |
| Relocation.ReportConcat | gnosis_vpn-migrate/src/relocate.rs:46-51 | the report of one list of steps after another is the two reports one after the other |
| Relocation.OwnStep | gnosis_vpn-migrate/src/relocate.rs:155-183 | a move's own states keep its destination and never drop its source before the destination is there |
| Relocation.OtherStep | gnosis_vpn-migrate/src/relocate.rs:116-128 | other steps keep what a move promises, before and after its turn |
| Relocation.IdleThrough | gnosis_vpn-migrate/src/relocate.rs:155-206 | a step with nothing left to do still has nothing to do after later steps |
| Relocation.SystemStepsOrderly | gnosis_vpn-migrate/src/relocate.rs:58-80 | the macOS list meets what these results need |
| Relocation.UserStepsOrderly | gnosis_vpn-migrate/src/relocate.rs:94-113 | so does the Linux list |
| LayoutRuns.RunLayout | gnosis_vpn-migrate/src/main.rs:117-130 | in every state the legacy home's `.config` and `curvy-pix.redb` (on Linux the user's identity) and all else that no step is about keep their trees. After a fault-free run with nothing in the way each choice file, `updates.log`, `settings.json` and the logs are at their new paths with their trees if those were free, gone from their old ones either way; `updates` is gone, the old log directory if nothing else was in it; directories that were made have owner and mode as asked; the report lists exactly that |
| LayoutRuns.MacKeeps | gnosis_vpn-migrate/src/relocate.rs:58-80 | on macOS no step is about anything in the legacy home but `installer` and `updates`, nor about another file of the old log directory |
| LayoutRuns.LinuxKeeps | gnosis_vpn-migrate/src/relocate.rs:94-113 | on Linux none is about the identity's two directories or anything beside the app's |
| LayoutRuns.MoveDelivers | gnosis_vpn-migrate/src/relocate.rs:155-183 | a fault-free move whose ways are open ends with its source at a destination that was free, or gone where it was not, in whatever orderly list |
| LayoutRuns.TreeGone | gnosis_vpn-migrate/src/relocate.rs:185-195 | such a removal ends with nothing there, and says whether something was |
| LayoutRuns.NewWithAt | gnosis_vpn-migrate/src/relocate.rs:167-169 | a directory that such a run made has the owner and mode that every step making it asks for |
| Relocate.RunMove | gnosis_vpn-migrate/src/relocate.rs:155-183 | any move: parents made, then the source cut because something is at the destination, or renamed onto a free one; without faults, a source that is there is dealt with unless a parent is blocked or missing or the destination lies inside it |
| Relocate.PassingWell | gnosis_vpn-migrate/src/relocate.rs:155-183 | a well-formed move cuts its source only if its destination was there from the start, and otherwise delivers it whole |
| Relocate.RunRemoveTree | gnosis_vpn-migrate/src/relocate.rs:185-195 | removes the tree if and only if a directory is there and no call fails |
| Relocate.RunRemoveEmptyDir | gnosis_vpn-migrate/src/relocate.rs:197-206 | removes a directory only when it is empty |
| Relocate.Remove | gnosis_vpn-migrate/src/nofollow.rs:128-135 | removes exactly the named entry or tree, without following links |
| Regions.KeptAt | gnosis_vpn-migrate/src/relocate.rs:116-147 | a path clear of a step's region keeps its entry and its whole tree |
| Regions.MovedPath | gnosis_vpn-migrate/src/nofollow.rs:118-125 | a rename changes the resolution of paths below its two ends only |
| Download.FetchWithResume | gnosis_vpn-update/src/update/download.rs:47-159 | stops; with an honest origin whose releases are told apart every content the file ever had is the start of one release, and success is a complete release or enough bytes; giving up comes after the budget and before budget plus pause plus read timeout, with no byte received in that time; the attempts that ended in a retry form a chain of the client's rounds, which the origin's script decides if it is one that can happen, and a script that ends a body cleanly ends the download with the whole release. Every other answer is the one the last thing the origin said calls for: an HTTP error only after an error status or a failure that is not retryable, a timeout only with the budget used up, success only after a body's end or with enough bytes |
| Download.Attempt | gnosis_vpn-update/src/update/download.rs:72-157 | each try is one round: client, clock and file afterwards are what the round makes of them; an answer ends the download exactly if it is a final one; a restart that nothing explains uses up an ignored range, and a try that is not the last lowers a rank |
| Download.RoundRank | gnosis_vpn-update/src/update/download.rs:55-159 | each such round lowers the rank of releases, ignored ranges, stale validator, bytes, instant failures and patience left |
| Retries.RoundsBounded | gnosis_vpn-update/src/update/download.rs:55-159 | the number of retried attempts is bounded by how often the client was made to start over, the longest release and the budget |
| Retries.HonestBounded | gnosis_vpn-update/src/update/download.rs:107-119 | with an honest origin, by how many ranges it ignored and how many releases it has, whatever their validators |
| Retries.Arrives | gnosis_vpn-update/src/update/download.rs:47-159 | a download succeeds with the whole release, whatever the release and the policy, and however the body is cut into pieces before its end |
| Retries.KeepsGoing | gnosis_vpn-update/src/update/download.rs:107-119 | a run against an honest origin that ignores every range goes through any given number of rounds, under any policy with some budget |
| Retries.Splices | gnosis_vpn-update/src/update/download.rs:169-175 | a run over two releases with a shared modification date or none ends successfully with a file that is the start of neither |
| Download.Answered | gnosis_vpn-update/src/update/download.rs:107-157 | file length, position and count agree after every response, and what the response leaves is the round it was |
| Download.Accept | gnosis_vpn-update/src/update/download.rs:107-133 | a full answer restarts with an empty file and its own validator, a partial one keeps both and is refused unless one was asked for |
| Download.ReadBody | gnosis_vpn-update/src/update/download.rs:135-157 | only body bytes end an outage; a silent path ends within the read timeout |
| Rounds.NeverMixed | gnosis_vpn-update/src/update/download.rs:72-80 | through any rounds of an honest origin with identified releases, the file is the start of the release the last response belonged to |
| Rounds.AlwaysSourced | gnosis_vpn-update/src/update/download.rs:107-133 | the validator is that of a release no newer than the last response's, and restarts without an ignored range are no more than newer releases |
| Rounds.StrongValidator | gnosis_vpn-update/src/update/download.rs:169-175 | never a weak ETag; the modification date stands in only without a strong one |
| Versions.CompareComponents | gnosis_vpn-update/src/update/mod.rs:77-96 | less means smaller at the first difference of the zero-padded components, equal means none differs |
| Versions.SignSymmetric | gnosis_vpn-update/src/update/mod.rs:77-96 | swapping the arguments flips the answer |
| Versions.Transitive | gnosis_vpn-update/src/update/mod.rs:77-96 | a total preorder across all lengths, strict where either step is |
| Versions.EqualIsTrimmed | gnosis_vpn-update/src/update/mod.rs:77-96 | equal if and only if the components agree up to trailing zeros |
| Spelling.JoinedPieces | gnosis_vpn-update/src/update/mod.rs:78-82 | every version is its pieces with separators between them, and splitting gives just those back |
| Spelling.ComponentDecimal | gnosis_vpn-update/src/update/mod.rs:80 | a piece that writes a number counts as it if it fits 64 bits, leading zeros or not, and as zero if not |
| Spelling.ComponentOther | gnosis_vpn-update/src/update/mod.rs:80 | so does every piece that writes none |
| Spelling.CompareJoined | gnosis_vpn-update/src/update/mod.rs:77-96 | any two versions compare as the lists of the numbers their pieces count as, the shorter followed by zeros |
| Spelling.CompareWritten | gnosis_vpn-update/src/update/mod.rs:77-96 | versions of nothing but numbers compare as those lists, whatever the separators |
| Spelling.ChannelExact | gnosis_vpn-update/src/update/mod.rs:100-114 | experimental if and only if a piece says so; else stable if and only if all pieces are numbers between dots; else snapshot |
| Spelling.WrittenIsStable | gnosis_vpn-update/src/update/mod.rs:100-114 | numbers between dots are a stable version, with another separator a snapshot |
| Spelling.GateInNumbers | gnosis_vpn-update/src/update/mod.rs:134-163 | the stable gate in numbers: too old first, then the same version, then a downgrade without permission, else let through |
| Spelling.OtherChannel | gnosis_vpn-update/src/update/mod.rs:141-143 | from another channel everything is let through |
| Spelling.CheckInNumbers | gnosis_vpn-update/src/update/mod.rs:330-347 | the stable check in numbers, for the stable release |
| Spelling.ChannelsApart | gnosis_vpn-update/src/update/mod.rs:330-347 | each channel is answered by its own release |
| Spelling.EndsInNumbers | gnosis_vpn-update/src/update/mod.rs:120-130 | of the entries no lower than the installed stable version the first of those that end earliest is chosen |
| Spelling.OwnEntry | gnosis_vpn-update/src/update/mod.rs:120-130 | an entry for the very installed version covers it, on any channel |
| Versions.SlugInvariant | gnosis_vpn-update/src/update/mod.rs:77-113 | writing any `+` as `-` changes neither the order nor the channel |
| Versions.EndOfLifeExact | gnosis_vpn-update/src/update/mod.rs:120-130 | the entry covers the version and ends first of all that do; none if and only if none does |
| Versions.EndOfLifeMonotone | gnosis_vpn-update/src/update/mod.rs:120-130 | a lower version of the channel is covered whenever a higher one is, and ends no later |
| Versions.GateExact | gnosis_vpn-update/src/update/mod.rs:134-163 | on its own channel a version may be replaced if and only if by something newer that accepts it, or older with permission |
| Versions.VersionsClimb | gnosis_vpn-update/src/update/mod.rs:134-163 | along any sequence of allowed updates versions strictly rise, so none comes twice |
| Versions.Settles | gnosis_vpn-update/src/update/mod.rs:330-347 | after installing what is offered the check is up to date if and only if the version is the channel's and the release accepts itself |
| Engine.RunEngine | gnosis_vpn-update/src/update/mod.rs:396-410 | exactly one terminal status closes whatever happened. It fails at Check if and only if there is no manifest, no release or a refusal by the gate for this very input; at Download if and only if the download failed; at Verify or Install only for a wrong digest, an installer without success or a failing call; and with no failing call it completes unless one of these holds. Without failing file calls the updater's path ends new if the installer lands one and else old, if and only if it lands one whenever it succeeds |
| Engine.Updates | gnosis_vpn-update/src/update/mod.rs:421-516 | a whole update that goes well, for any manifest the gate lets through and any pieces the release is served in: the events, the new updater, nothing left behind |
| Engine.DriveEngine | gnosis_vpn-update/src/update/mod.rs:421-516 | the whole trace by outcome, and each failure with its reason; the installer is reached only with a sound artifact, and only two failing removals go unnoticed after it |
| Engine.RunShape | gnosis_vpn-update/src/update/mod.rs:382-410 | the status word is well formed, loader and rename-aside are taken and given back equally often and at most once, installs are sound |
| Engine.InstallSpan | gnosis_vpn-update/src/update/mod.rs:480-505 | between showing the loader and settling the binary there is no way out; on a failure a working updater is left |
| Engine.LosesUpdater | gnosis_vpn-update/src/update/self_update.rs:85-95 | an installer that reports success without landing a binary leaves no updater at all |
| Engine.DownloadArtifact | gnosis_vpn-update/src/update/mod.rs:622-697 | only HTTPS, only a plain name, never through a link or onto a directory, only with the wrapped sum of size and headroom free; without failing calls the answer is the first objection, else what the transfer makes of it; the size is the manifest's if given; a failed download leaves no file; giving up comes 120 seconds after the last byte or later, and with the real read timeout within 150 seconds of the outage |
| Engine.SafeArtifactFilename | gnosis_vpn-update/src/update/mod.rs:604-620 | the last segment, and none if and only if it is missing, empty or a way out of the directory |
| Engine.Slot.VerifySha256 | gnosis_vpn-update/src/update/mod.rs:701-720 | success if and only if the whole file has the digest and no read failed |
| Engine.Updater.Engage | gnosis_vpn-update/src/update/self_update.rs:55-83 | the binary goes aside, or nothing changes |
| Engine.Updater.FinishFailure | gnosis_vpn-update/src/update/self_update.rs:100-123 | the old binary comes back unless a new one has landed |

## Left out

- The log upload, manifest download and retry, command line, output formats, exit codes, logging and account lookup.
- Error texts: a failure carries its stage only, a failed relocation step its path only.
- Another process changing the tree while a run is under way; handles therefore always lead to what they were opened on.
- What survives a power loss: fsync either succeeds or fails, and a crash keeps every completed call.
- Groups, the umask, device boundaries and timestamps of inodes; a directory listing is one snapshot that may fail.
- The timestamp and the marker's text are parameters. On a system whose writes may lie the marker is known to exist, but its text is not, since nothing reads it back.
- The account's home and the legacy home are separate trees; the callers refuse only equal ones.
- A home that is missing is modelled as an inode number that is no directory.
- The layout is any with the shape `Layout.WellLaid` asks for, which both real ones have.
- The sweep's list of secured entries, which only its own tests read.
- The loader window's process handling: showing and dismissing it are two events.
- The version probe after a self-update, the attempt record and the audit log.
- Redirects and HTTP client errors: a failing request is retryable or not, by choice of the environment.
- Download.FetchWithResume: the origin may ignore any finite number of ranges, and any finite number of failures may take no time; the latter matters to a policy without a pause only.
- The sum of size and headroom wraps around as in a release build, which does not check for overflow.
- The installer is a program that reports success or not and lands a new updater or not, as settled beforehand; it cannot overwrite a running updater that is still in place.
- Names.UniqueName: counts without bound, where the source's counter has 32 bits.
- Engine.DownloadArtifact: a file whose last flush fails stays behind, as in the source.
- Engine.SafeArtifactFilename: URL segments hold no slash, as the parser guarantees.
- Engine.InstallSpan: the pipeline is the macOS one; on Linux there is neither loader nor rename-aside.
