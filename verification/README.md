# Interview labs, verified

A Dafny model of the engine that launches and destroys interview sessions, and of
the gateway that guards them. The modules follow the program's own components:

| files | component |
|---|---|
| `sessions.dfy` | the state folder: metadata, archive names, archiving |
| `lifecycle.dfy`, `launch_runs.dfy`, `launch_facts.dfy`, `destroy_runs.dfy` | launch and destroy on values: commands, plans, what every run keeps, does and records |
| `engine.dfy` | the same commands as methods that change a session, its metadata file and the outside |
| `histories.dfy`, `records.dfy` | any launches and destroys on one machine, in any order, and the records they keep |
| `file_tree.dfy`, `pack_load.dfy`, `payloads.dfy`, `shipping.dfy`, `module_files.dfy`, `payload_tar.dfy` | packs: loading, staging, what ships, module files, the tar stream |
| `compose_override.dfy`, `compose_mounts.dfy` | the compose override, and loading, staging, pushing and phase order taken together |
| `shell_words.dfy`, `stack_commands.dfy` | the shell text sent to a VM and what a POSIX shell makes of it |
| `login_limiter.dfy`, `late_calls.dfy`, `gateway_token.dfy` | the gateway's login limiter, also under late clock readings, and its cookie |
| `terraform_runner.dfy`, `terraform_signals.dfy` | the terraform child process, its cancellation, and whom its signals reach |
| `columns.dfy`, `ansi_width.dfy`, `size_menu.dfy` | table layout, the width of styled text, the size menu |
| `options.dfy`, `decimal.dfy`, `text.dfy`, `ordering.dfy`, `dir_names.dfy`, `bundles.dfy`, `local_stack.dfy` | shared notions |

## How it is modelled

A launch or destroy is a list of commands: persist a phase or a field, or try an
external step. An `Oracle` decides, for one command line, which steps break,
whether a broken step had its effect anyway, and what the steps return. All
results hold for every oracle, so for every pattern of failures. `Outside`
records what runs for a session (VM, cluster, stack, keys) and a log of phases
persisted and steps attempted. `Engine.Session` holds the in-memory metadata and
has one method for each part of the pipelines; each method is proved to end in
exactly the state that `Lifecycle.Run` of its commands gives, and to leave every
other session alone. `Engine.LaunchCommand` and `Engine.DestroyCommand` end in the
states that `Histories` describes, and the theorems are about those.

Files are maps from paths to nodes; a walk is the sorted listing of the paths
below a root. `Payloads.Disk` copies entry by entry with the failures of the
system calls (a file where a directory must go, and the reverse).

## Hypotheses

- Metadata writes succeed, and nothing crashes in the middle of a step.
- A failing key mint created no key; a mint that works returns a handle
  (`internal/openrouter/openrouter.go:82-84` refuses an empty one).
- A terraform destroy, compose down or kind delete that reports success left
  nothing of its kind running, however often it ran before. A revoke succeeds
  whether the key was still there or the provider answers 404.
- A stage step that works staged the bundle without a clash.
- Commands on one machine do not overlap. Destroy's handle is loaded after the
  previous holder of the session lock released it; the program does not enforce
  this (it reads at `internal/cli/destroy.go:59` and locks at line 68), and
  `DestroyRuns.StaleReleaseExactly` says what happens otherwise.
- Providers picked for a launch are in the registry that destroy looks them up in.
- Where a limiter result says so, its clock does not go back.
  `docker/images/gateway/server.go:102` reads it before the lock is taken, so
  readings can arrive late. `LateCalls` and `LoginLimiter.AnyOrderBound` assume no
  order; `TouchInRange` says exactly when a bucket stays in range, and
  `ClockGoingBackOverdraws` that it can fail.
- The cells of a table are whole: one line each, with complete escape sequences.
  Of `lipgloss.Width` the layout needs that it adds up over whole texts and counts
  a blank as one; `AnsiWidth.EscapesAreDropped` shows it of the width that drops
  escape sequences and takes the widest line.

## Where code and documentation disagree

- The destroy command documents that failures keep the session as failed-destroy
  and that a rerun is safe. When the release works and archiving fails, the status
  stays `destroying` (`Histories.FailedDestroyExactly`). Once archiving has moved
  the metadata, a failure to move the logs or to remove the folder leaves a session
  that is no longer listed, so that no rerun finds it: `Histories.RerunExactly` is
  the exact condition, `LogsStayBehind` and `LeftoverFolderCannotBeDestroyed` are the
  inputs. Nothing is running by then, and the record is in the archive.
- Every `_go.mod` is documented to be written back as `go.mod`. Beside a `go.mod`
  file with other contents it is lost without a word, as that file is written over
  it (`ModuleFiles.ArrivesExactly`; `AcceptedPackLosesAFile` is an accepted pack).
- Beside a `go.mod` directory staging fails after the pack was accepted
  (`ModuleFiles.AcceptedPackCannotBeStaged`); `Shipping.StagingFailsExactly` says
  that nothing else makes it fail.

## What the program allows

- A cancellation that comes when terraform is already done can interrupt a process
  group whose leader was already waited for, and report a clean exit as a cancelled
  context; a late timer can do the same with a kill. `TerraformSignals` says exactly
  when.
- The limiter admits more than its bound when clock readings arrive more than half
  a window late and a sweep comes in between; up to half a window it never does
  (`LateCalls.HalfAWindowExactly`).

## Model

| member | source | states |
|---|---|---|
| Sessions.LoadedIsSaved | internal/session/session.go:154-176 | reading a session back gives what was saved exactly when roles were recorded and an old document names its ssh user; what is filled in is the provider digitalocean and the user root, and a second reading changes nothing |
| Sessions.ArchiveNameIsFirstFree | internal/session/session.go:235-238 | the archive name is the slug, or when that is taken the first of `slug-2`, `slug-3`, ... that does not exist |
| Sessions.ArchiveMoves | internal/session/session.go:230-252 | whatever step fails, metadata and logs end up unchanged in exactly one place, earlier entries and other sessions are untouched, and success means the folder is gone |
| Sessions.StateDir.NewSlug | internal/session/slug.go:6-13 | the slug returned is the first drawn that neither sessions nor archive use |
| Sessions.StateDir.Get | internal/session/session.go:154-176 | the listed metadata with the defaults for old documents |
| Sessions.StateDir.FreeName | internal/session/session.go:235-238 | the suffix search ends for every finite archive, with that first free name |
| Sessions.StateDir.Archive | internal/session/session.go:230-252 | the two-folder state after archiving, for every failing step |
| LaunchRuns.LaunchFollowsPlan | internal/cli/launch.go:683-843 | the log of a launch is its plan up to and including the first step that breaks; it succeeds exactly when none does |
| LaunchRuns.PersistedPhasesArePlanned | internal/cli/launch.go:733-843 | the persisted phases are a prefix of the plan computed from cloud or local, bundle, kind, setup and AI alone, and all of it exactly on success |
| LaunchRuns.LaunchOutcome | internal/cli/launch.go:1042-1163 | ready exactly when the whole plan ran, else failed; the reported phase is the last begun; a key exists and is recorded exactly when minting worked |
| LaunchRuns.FailedLaunchBlamesItsPhase | internal/cli/launch.go:1157-1163 | the phase a failed launch reports is the one the broken step belongs to |
| LaunchRuns.EveryMomentOfALaunch | internal/cli/launch.go:1042-1053 | between any two commands the session accounts for everything that runs, and the metadata file is behind only between a mint and the save of its hash |
| LaunchRuns.StepsWaitForTheirNeeds | internal/cli/launch.go:774-843 | when the cluster, the key, the stack or the hook is attempted, every step it depends on was attempted before and worked |
| LaunchRuns.KeyComesLast | internal/cli/launch.go:771-806 | a key is handed out exactly when one was asked for, minting worked, and so did everything before it: image pull and cluster included |
| LaunchFacts.LaunchInOrder | internal/cli/launch.go:683-843 | the log of a launch is this list of phases and steps, written out for every combination of options, up to the first step that breaks |
| LaunchFacts.LaunchRecordsTheRequest | internal/cli/launch.go:433-449 | what the metadata says of a launch that was asked for, field by field, whatever became of it; on this machine no region, size, image, user or terraform, and the fixed password |
| LaunchFacts.LaunchRecordsTheRoles | internal/cli/launch.go:570-579 | the roles recorded: the VM always, AI when picked, access exactly for a cloud launch with an access provider |
| LaunchFacts.LaunchRecordsTheResult | internal/cli/launch.go:1107-1121 | address and DNS name are terraform's once its outputs were read, the URL is the local one or that of the DNS name or address once the stack is up, handle and cap are those of the minted key; until then nothing |
| LaunchFacts.LaunchingUntilTheEnd | internal/cli/launch.go:1143-1154 | at every moment before its last command a launch is marked launching and reports the last phase entered |
| LaunchFacts.LaunchCases | internal/cli/local.go:46-113 | when a launch is refused, and what is there after one that could not complete its folder, got no password, or ran; nothing else on the machine changes |
| DestroyRuns.ReleaseInOrder | internal/cli/destroy.go:159-232 | whatever breaks: terraform init, destroy and then the key, or cluster, stack and then the key, each tried up to the first that breaks; once the teardown worked nothing but keys is left, also when the revoke failed; until it has, the keys are as before |
| DestroyRuns.ReleasedExactly | internal/cli/destroy.go:159-240 | a release works exactly when each of its steps does and a recorded key has a known provider; it changes the status alone; what survives one that works is described exactly |
| DestroyRuns.ReleaseLeavesNothing | internal/cli/destroy.go:159-215 | from every consistent session a successful release leaves nothing running |
| DestroyRuns.FailedReleaseStaysConsistent | internal/cli/destroy.go:235-240 | after a failed release the session still accounts for everything running |
| DestroyRuns.EveryMomentOfARelease | internal/cli/destroy.go:159-232 | between any two commands of a release of a session read afresh, it accounts for everything that runs, is marked destroying, and the metadata file says what the object says, key hash included |
| DestroyRuns.StaleReleaseExactly | internal/cli/destroy.go:52-91 | a release through a stale handle leaves nothing running exactly when the handle records the live key and knows of a local cluster |
| DestroyRuns.StaleHandleLosesTheKey | internal/cli/destroy.go:59-71 | a handle read during a launch that minted a key makes a destroy succeed and leave the key live and unrecorded |
| Histories.EveryHistoryIsSafe | internal/cli/destroy.go:159-232 | over every history: nothing runs for an archived session, whatever runs belongs to a listed session, every listed session records what runs for it and once ready has the ai role exactly when it has a key, one local session at most |
| Histories.ApplyKeepsInv | internal/cli/launch.go:372-412 | every launch or destroy, with any failures, keeps the invariant behind that |
| Histories.DestroyOutcome | internal/cli/destroy.go:52-215 | the complete outcome of a destroy: refused and unchanged; failed and listed with everything it recorded; released and still listed when archiving stopped before the metadata moved; released and unlisted with the record in the archive and the logs there or left behind; or archived with its logs |
| Histories.FailedDestroyExactly | internal/cli/destroy.go:156-180 | a started destroy leaves the session listed as failed-destroy exactly when a release step broke |
| Histories.RerunExactly | internal/cli/destroy.go:154-215 | after a destroy that started the session is still listed, and a clean rerun finishes it, exactly when a release step broke, or creating the archive folder or moving the metadata failed; else every rerun finds nothing to destroy |
| Histories.LeftoverFolderCannotBeDestroyed | internal/session/session.go:243-251 | when only removing the folder fails, a rerun finds nothing to destroy |
| Histories.LogsStayBehind | internal/session/session.go:243-251 | when only moving the logs fails, the record is archived without them, they stay in an unlisted folder, and no rerun moves them |
| Histories.ReleasedInTheEnd | internal/cli/destroy.go:155-215 | after any failed attempts, one in which everything works leaves nothing running and what the session recorded in the archive; it succeeds when the session was still listed |
| Records.EveryRecordIsKept | internal/session/session.go:230-252 | over every history: of each session whose metadata a launch wrote, the record is listed or in the archive at the end |
| Histories.OthersAreUntouched | internal/cli/destroy.go:52-91 | a command leaves other sessions, what runs for them and earlier archive entries as they were |
| Engine.Session.SetPhase | internal/session/session.go:187-188 | the phase is saved before its step runs |
| Engine.Session.MintAiKey | internal/cli/launch.go:1042-1053 | mint, then the hash in the metadata file; the run of its three commands |
| Engine.Session.ApplyPhases | internal/cli/launch.go:733-757 | runs the stage and terraform commands, stopping at the first failure; `LaunchFacts.LaunchRecordsTheResult` says what address that saves |
| Engine.Session.BundlePhases | internal/cli/launch.go:818-843 | runs exactly the bundle's commands, none for a bare launch |
| Engine.Session.StackPhases | internal/cli/launch.go:774-812 | runs exactly the stack commands, pull before mint |
| Engine.Session.RunLaunch | internal/cli/launch.go:683-728 | runs exactly the cloud pipeline |
| Engine.Session.RunLocalStack | internal/cli/local.go:117-156 | runs exactly the local pipeline |
| Engine.Session.Release | internal/cli/destroy.go:159-232 | ends in the released state, or marks the failure; `DestroyRuns.ReleaseInOrder` says which step comes when and what is left |
| Engine.LiveLocalSession | internal/cli/local.go:31-42 | finds a listed local session exactly when there is one |
| Engine.LaunchCommand | internal/cli/local.go:46-82 | the machine after a launch, refusals and a taken name included, as `LaunchFacts.LaunchCases` spells it out |
| Engine.DestroyCommand | internal/cli/destroy.go:52-91 | the machine and the outcome after a destroy, as `DestroyRuns.ReleaseInOrder` and `Histories.DestroyOutcome` spell it out |
| PackLoad.Load | internal/pack/load.go:110-127 | a pack loads exactly when it is acceptable, and as what it holds; a refusal names a violation that is there |
| PackLoad.AcceptedExactly | internal/pack/load.go:110-215 | a pack is acceptable exactly with its manifests, safe names, a task in every scenario, at least one bundle and scenario, and a cluster file beside kind manifests, spelled out in paths |
| PackLoad.LoadBundles | internal/pack/load.go:129-150 | every folder of `bundles` in name order, or a violation |
| PackLoad.LoadBundle | internal/pack/load.go:152-179 | accepted exactly with a valid name, manifest, kind pairing and scenarios |
| PackLoad.LoadScenarios | internal/pack/load.go:181-215 | accepted exactly when there is a scenario folder and each has a valid name, a task folder and a manifest |
| PackLoad.LoadedBundleShips | internal/pack/load.go:169-178 | a loaded bundle has the folders its flags promise, distinct safe names, and a setup hook only with a lab |
| PackLoad.BundlesOfPackShip | internal/pack/load.go:129-150 | each bundle of an accepted and loaded pack is acceptable and as described |
| DirNames.DirNameIsHyphenatedWords | internal/pack/validate.go:13-23 | the name pattern accepts exactly non-empty lower-case words joined by hyphens |
| Payloads.CopiedExactly | internal/pack/payload.go:42-69 | a copy fails exactly on a clash, and otherwise gives exactly the renamed image of the source, with everything else unchanged |
| Shipping.PayloadIsShared | internal/pack/payload.go:10-35 | after a first staging that works, what is at each path below `payload`, in the pack's own paths: tasks, lab and kind folder under their names, and nothing else |
| Shipping.StagedFileIsMadeFrom | internal/pack/payload.go:42-69 | every staged file has the contents of the file at its own place in a task, the lab or the kind folder, or for a `go.mod` of the `_go.mod` there, and is executable exactly when named `*.sh` |
| Shipping.StagingFailsExactly | internal/pack/payload.go:42-69 | a first staging fails exactly when one of these folders has a directory `go.mod` beside a file `_go.mod` |
| Shipping.HookAndClusterAreStaged | internal/pack/payload.go:23-33 | of a bundle of an accepted pack the setup hook and the cluster file are staged with the pack's contents, the hook executable |
| Shipping.RestOfTheDiskStays | internal/pack/payload.go:14-35 | everything outside `payload` stays as it was |
| ModuleFiles.ArrivesExactly | internal/pack/payload.go:51-67 | after a staging that works a shipped file is at its target exactly unless it is a `_go.mod` beside a `go.mod` with other contents; nothing is staged as `_go.mod` from a placeholder |
| ModuleFiles.AcceptedPackLosesAFile | internal/pack/payload.go:55-67 | for all schemas and manifests they take: a pack that loads and is staged with success, whose `_go.mod` arrives exactly when the `go.mod` beside it says the same |
| ModuleFiles.AcceptedPackCannotBeStaged | internal/pack/payload.go:52-67 | for all schemas and manifests they take: a pack that loads and whose staging fails, on every disk nothing was staged on |
| Payloads.PartsAreApart | internal/pack/payload.go:15-20 | distinct scenarios, lab and kind configuration never overlap |
| Payloads.RestagingChangesNothing | internal/pack/payload.go:14-35 | staging again succeeds and changes nothing |
| Payloads.Disk.CopyTree | internal/pack/payload.go:42-69 | the disk after copying, entry by entry |
| Payloads.Disk.StagePayload | internal/pack/payload.go:14-35 | the disk after staging, part by part; `Shipping.PayloadIsShared` says what that is |
| PayloadTar.WriteTar | internal/pack/tar.go:14-43 | the stream has one entry per node, in walking order |
| PayloadTar.UnpackingRebuildsTheTree | internal/pack/tar.go:14-67 | unpacking the stream rebuilds exactly the tree below `payload`, next to what was there |
| PayloadTar.StreamShape | internal/pack/tar.go:47-67 | names differ, a directory's name ends in a slash, a file's entry has its contents and mode, owner and group are 1000 |
| PayloadTar.DirectoriesComeFirst | internal/pack/tar.go:14-43 | a directory's entry precedes everything in it |
| ComposeOverride.Override | internal/stack/override.go:9-35 | the text is the listed lines, for every flag combination |
| ComposeOverride.OverrideIs | internal/stack/override.go:9-35 | the text, line by line, for every flag combination |
| ComposeOverride.OverrideReads | internal/stack/override.go:9-35 | compose reads from it exactly the flagged mounts, in order, with their targets and modes, and the kind network exactly for kind |
| ComposeMounts.UpFindsItsMounts | internal/cli/launch.go:887-898 | for every bundle of an accepted pack: when its stack is started, every host path its override mounts exists |
| ComposeMounts.OverrideIsNamedWhenPresent | internal/cli/launch.go:999-1019 | for every such bundle, and without one: the up command names the override file exactly when it is there |
| ComposeMounts.HookFindsItsScript | internal/cli/launch.go:855-866 | for every such bundle: when the setup phase runs, the script is below the lab mount, where the hook command looks for it, and executable |
| StackCommands.SetupCmdMatchesLocalRun | internal/stack/commands.go:50-58 | a shell reads the remote setup command as a `cd` and exactly the local docker run |
| StackCommands.ComposeUpCmdMatchesLocalRun | internal/stack/commands.go:16-24 | a shell reads the remote up command as entering, exporting and exactly the local docker run |
| StackCommands.PullCmdAssignsImages | internal/stack/commands.go:42-45 | both references reach compose verbatim when they hold no single quote |
| StackCommands.ImageRefIsVerbatim | internal/cli/images.go:60-73 | references that pass validation do |
| StackCommands.ScenarioList | internal/cli/launch.go:846-852 | splitting the scenario list on commas gives the names in order |
| StackCommands.ScenarioCsv | internal/cli/launch.go:846-852 | the joined names, which split back |
| StackCommands.EnvBlob | internal/stack/commands.go:62-75 | the text does not depend on the order the map is iterated in |
| StackCommands.SourcedEnvIsTheMap | internal/stack/commands.go:60-75 | sourcing the text gives back exactly the variables, whatever the values hold, exactly when the keys are shell names |
| StackCommands.EnvTextIsInjective | internal/stack/commands.go:60-75 | two different environments with shell names for keys never print the same text |
| StackCommands.UpInput | internal/cli/launch.go:999-1019 | the shell that sources the input has exactly the bind address, the session's password, both images and the key if there is one, and runs exactly this docker call |
| StackCommands.LocalUp | internal/cli/local.go:208-233 | docker is called with these arguments, as the last command of the remote text calls it, and beside the host's own variables, whatever they are, sees the fixed password, the images and the key, and no address to bind to |
| LoginLimiter.Limiter.Allow | docker/images/gateway/limiter.go:34-52 | answer and new map of one call |
| LoginLimiter.Limiter.Sweep | docker/images/gateway/limiter.go:54-62 | keeps exactly the buckets used within two windows |
| LoginLimiter.EachKeyHasItsOwnBucket | docker/images/gateway/limiter.go:34-62 | each key is answered as by a private bucket that is never swept |
| LoginLimiter.OnlyOwnCallsMatter | docker/images/gateway/limiter.go:34-62 | other keys and sweeps make no difference |
| LoginLimiter.AdmissionBound | docker/images/gateway/limiter.go:25-52 | at most burst + rate * (u - s) calls are admitted between s and u |
| LoginLimiter.AnyOrderBound | docker/images/gateway/limiter.go:34-52 | the same bound from any state of the map and in any order of clock readings, while no sweep drops the key's bucket |
| LoginLimiter.SweepBetweenLateCalls | docker/images/gateway/limiter.go:54-62 | with such a sweep twice the burst passes at one instant, for every burst |
| LateCalls.LateAdmissionBound | docker/images/gateway/limiter.go:34-62 | the same bound with every sweep and in any order, after any earlier history, while no clock reading is more than half a window behind an earlier one |
| LateCalls.LaterBreaksTheBound | docker/images/gateway/limiter.go:34-62 | for every burst and every lateness above half a window, a history that breaks it |
| LateCalls.HalfAWindowExactly | docker/images/gateway/limiter.go:34-62 | the bound holds of all histories with readings at most d late exactly when d is at most half a window |
| LoginLimiter.PatientCallerIsAdmitted | docker/images/gateway/limiter.go:34-52 | a key idle for window / burst is admitted |
| LoginLimiter.FullWindowRestoresBurst | docker/images/gateway/limiter.go:34-52 | after a full idle window exactly burst calls at one instant are admitted |
| LoginLimiter.TouchInRange | docker/images/gateway/limiter.go:44-51 | a bucket stays within zero and burst exactly while the clock does not go back too far |
| LoginLimiter.SweepKeepsRecentCallers | docker/images/gateway/limiter.go:54-62 | what a sweep leaves was used within two windows |
| GatewayToken.SignedTokenAccepted | docker/images/gateway/token.go:16-48 | a signed 64-bit expiry is accepted exactly while it lies ahead |
| GatewayToken.AcceptedTokens | docker/images/gateway/token.go:28-48 | the accepted values are exactly an unexpired expiry, a dot and the encoded hash of that text |
| GatewayToken.DecodeEncode | docker/images/gateway/token.go:19-26 | the encoding of signatures can be undone |
| GatewayToken.EncodedLetter | docker/images/gateway/token.go:19-26 | letter `k` is the one that section 5 of RFC 4648 gives the `k`-th group of six bits, without padding |
| GatewayToken.TransplantedSignature | docker/images/gateway/token.go:28-48 | a signature moved to another expiry or secret works only when the hashes collide |
| Decimal.ParseFormat | docker/images/gateway/token.go:16-17 | parsing undoes formatting for exactly the 64-bit integers |
| Decimal.DigitAt | docker/images/gateway/token.go:16-17 | each digit is that of its place, units last, and none is superfluous |
| TerraformRunner.EveryInterleaving | internal/terraform/runner.go:84-123 | once the child started, run returns after its wait, whose result it received once; the log closes after that; SIGKILL follows SIGINT and a timeout |
| TerraformRunner.WaiterNeverBlocks | internal/terraform/runner.go:105-106 | the waiter can always hand its result over |
| TerraformRunner.RunsComeToRest | internal/terraform/runner.go:84-123 | at most ten steps of the program's own, and once the child is gone it returns and the waiter is finished |
| TerraformRunner.StuckMeansResting | internal/terraform/runner.go:105-121 | the program cannot move exactly when it is done or waits for a live child |
| TerraformSignals.StraySignalsExactly | internal/terraform/runner.go:107-121 | after any run, the program alone can send an interrupt to a group whose leader was waited for exactly when the child is gone and the caller, cancelled, is at its select or about to signal; a kill exactly when the child is gone and the caller is past its timer in the grace period or about to signal |
| TerraformSignals.StrayRunEnds | internal/terraform/runner.go:107-121 | and each such run can go on to return the context's error |
| TerraformSignals.NoSignalWithoutCancel | internal/terraform/runner.go:107-121 | a run not cancelled before the exit status is taken sends no signal and reports how the child ended |
| TerraformSignals.WhomASignalReaches | internal/terraform/runner.go:107-121 | before the child exits a signal reaches it; after that the caller still reports the context's error; an interrupt is the first signal, a kill follows one |
| TerraformSignals.KilledAfterInterrupt | internal/terraform/runner.go:113-121 | a child that ends after its interrupt, in any way, may still draw a stray kill |
| TerraformSignals.LateCancelIsStray | internal/terraform/runner.go:105-121 | a run with a stray interrupt that reports a clean exit as cancelled |
| Columns.ColumnWidths | internal/ui/columns.go:34-44 | the width of the widest cell of each column |
| Columns.RenderRow | internal/ui/columns.go:47-61 | the untrimmed layout minus trailing blanks only |
| Columns.Columns | internal/ui/columns.go:16-31 | every row laid out with one list of widths that every cell fits |
| Columns.CellsLineUp | internal/ui/columns.go:47-61 | for every width that adds up over the row's cells: left-aligned cells start, and right-aligned cells end, where the columns to their left and a gutter of two after each put them; the last column always starts there |
| AnsiWidth.EscapesAreDropped | internal/ui/columns.go:34-61 | the width that drops escape sequences and takes the widest line is such a width, for one-line cells |
| AnsiWidth.StyledCell | internal/ui/columns.go:34-61 | a cell put in a style is as wide as the plain cell |
| SizeMenu.MenuIgnoresInputOrder | internal/cli/launch.go:96-109 | two orders of the same sizes with distinct slugs sort to the same menu |
| SizeMenu.CheapestFirst | internal/cli/launch.go:104-109 | of any two rows of the menu the upper one is cheaper, or costs the same and its slug does not sort later |
| SizeMenu.SortSizes | internal/cli/launch.go:104-109 | the sizes in that order, nothing lost |
| SizeMenu.PriceShown | internal/ui/columns.go:63-75 | the price cell, read back from its text, is at least the hourly rate and less than a cent above it |
| SizeMenu.LabelLinesUp | internal/ui/columns.go:63-78 | in every label of a menu the numbers and the price end, and category and slug start, at the same offsets |
| SizeMenu.SizeRows | internal/ui/columns.go:63-78 | one aligned row per size, in columns as wide as their widest cell |
| SizeMenu.SizeOptions | internal/cli/launch.go:98-119 | the sorted menu, each with its own row as label, and a lookup that covers it |
| SizeMenu.LookupGivesTheRowShown | internal/cli/launch.go:111-118 | the lookup gives the row shown, for every row, exactly when no two different sizes share a slug |
| SizeMenu.PriceIsTight | internal/ui/columns.go:63-75 | the price shown is at least the hourly rate and less than a cent above it |
| SizeMenu.PriceIsLowest | internal/ui/columns.go:63-75 | no lower whole-cent price does not understate |

## Left out

- What terraform, docker, kind, ssh, HTTP and the provider SDKs do; each is a step that works or breaks.
- Log contents, and file writes inside a step; a failing log write is a way for its step to break.
- YAML, JSON, schema validation and the byte layout of tar: manifests are decoded by functions, streams are entry lists.
- The wording of error messages.
- HMAC-SHA256 and constant-time comparison: the hash is any function with non-empty results, compared for equality.
- Floating point: limiter and prices use exact reals.
- The termination of the slug draw, and slug generation itself.
- The session lock, and runs of two commands at once.
- What a cloud launch checks before its session exists (images, terraform, region, size, confirmation): a refusal there changes nothing.
- Choosing a session from the list, and the order of that list.
- A retry by hand of a half-removed session folder; `Histories` shows that the program offers none.
- Symbolic links in directory packs, and file modes other than 0644 and 0755.
- NUL characters in environment values, which no shell can carry.
- `PushCmd`, the kind and kubectl command texts, `RunEnv`, user data and tfvars: single-branch text builders.
- Terminal forms, colours, spinners, the handover box and help texts.
- Configuration files, provider selection, version pins and the doctor command.
