# The container supervisor, modelled and proved

`mica-containerd` keeps declared containers in the state they were declared in. This project
models its supervisor, the specs it hashes and validates, the arguments it gives podman, its
store and its translation of Compose services, in Dafny, and proves what the parts promise
together.

* `Sections.dfy` holds what the supervisor knows and the stretches of its code that run under
  its lock. `Machine.dfy` makes a machine of atomic steps of them (API calls, the steps of a
  pass, crashes, starts of the daemon): its runs are the interleavings. `Interference.dfy`,
  `Stops.dfy`, `Starts.dfy`, `RestartCalls.dfy`, `Restarts.dfy`, `Foreign.dfy`, `Events.dfy`,
  `HealthChecks.dfy` and `Transparency.dfy` state what holds over all runs; `Listings.dfy` is what a
  pass knows of one name by its listing. `Looks.dfy` tells in plain figures what each look at a
  container decides, `Readiness.dfy` when its dependencies are ready, and `Calls.dfy` what each API
  call leaves.
* `Passes.dfy` makes one function of a whole pass, given what happens in each stretch without
  the lock, and shows it is a run of the machine; `Convergence.dfy` builds on it.
* `Supervisor.dfy` is the supervisor as a class whose methods change its fields in place, each
  proved equal to those functions; `Projects.dfy` is what declaring projects means.
* `Specs.dfy`: defaults, validation, hash, stored form; `Rules.dfy` says by regular expressions
  and bounds which specs are valid. `Podman.dfy` prints the arguments,
  `PodmanReader.dfy` reads them back. `Directories.dfy` is a directory with what a crash may
  leave of it, `Stores.dfy` the store on it. `Compose.dfy` and `Paths.dfy` are the translation
  after the parser.

## What the proofs turned up

* A stop can be lost, in two ways. `setDesired` writes only when the desired state changes in
  memory. A Start whose record was renamed into place but whose directory could not be synced is
  refused with memory still saying stopped and the disk saying running; a removal refused after
  its file was gone leaves memory saying stopped and the disk saying nothing. A later Stop then
  returns no error and writes nothing. In the first case a restart of the daemon in the same boot
  starts the container, which the package comment (supervisor.go:5-7) rules out; in the second a
  restart and a redeclaration do (`Stops.AStopCanBeLost`, `Stops.ARefusedRemovalLosesAStop`).
  `Stops.AStopLastsIff` says exactly when a stop lasts.
* An explicit start is not always carried out. The wish to start at once is kept in memory only,
  and the first look takes it whether or not the container can be started then. A container that
  exited in this boot, and whose policy leaves its exit, therefore stays down although nothing
  stands in its way any more when the start had to wait for a dependency
  (`Starts.AWaitLosesAStart`), and when the daemon crashed between the Start and the pass
  (`Starts.ACrashLosesAStart`). `Starts.AStartSurvivesIff` says exactly when a start survives, and
  `Starts.AStartIsRememberedIff` when a restarted daemon still wants the container running. A
  Restart is lost to a crash in the same way (`RestartCalls.ARestartSurvivesIff`).
* A removal reported done can come back. `remove` and `Delete` take a missing file for success
  and then do not sync the directory; when an earlier try failed only in syncing, the retry
  reports success although a crash can bring the file back. `Directories.RemovedForGood` says
  exactly when a removal is for good.
* The hash changes over a reload not for an empty `Command` alone, but for an empty, non-nil
  `Volumes` or `Environment` too (`Specs.HashSurvivesReload`). Only the command can be so through
  the API: the translation of a Compose file makes the other two on their first element.
* A network named `host` or `none` passes validation and cannot be told from the network mode in
  the arguments (`PodmanReader.ModeReadBack`). Compose projects never use such a name.
* A project directory that ends in white space is a clean absolute path, so a project is accepted with
  it; the store writes it as a line and trims what it reads, so the daemon reports another directory
  after a restart (`Stores.ADirectoryIsLost`; `Stores.AProjectReadsBack` has the exact condition).
* The gap before attempt 9223372037 is negative in 64-bit arithmetic (`Timing.GapsBoundedUpTo`).
* Default container names of two projects can be the same (`Compose.DefaultNamesCollide`), exactly
  when one project continues the other's name by what the other's service begins with
  (`Compose.DefaultNamesCollideIff`); the supervisor refuses the second.

## What is taken for granted

* Engine calls, the clock, the listing, and what the Compose parser makes of a file are inputs;
  the outcome of every store call is an input of the supervisor's methods, and the faults of
  every file operation one of the store's.
* The hash and the canonical JSON of a document stand for the document: they are taken as
  injective. In the argument list they are functions, with an inverse of the JSON given where
  one is needed.
* Reconcile reads the clock once for each name of a pass, as in the source; times are
  unbounded integers of nanoseconds, except the gap and the spans that are subtracted, which
  wrap and saturate as in Go.
* A crash keeps, for each name of a directory on its own, any state it had since the directory
  was last synced, and of an unsynced file any content. The machine of `Machine.dfy` crashes with
  the directory as it is visible, as when the daemon is killed. A loss of power is the end of one
  of its runs and the start of another, in a new boot, from a disk that such a crash left: every
  statement about runs holds of any disk to begin with, and `Stores.CrashAfterCrash` says which
  disks those are.
* The directory of the logs is a clean path that is not empty, so that joining a name to it is
  all that `filepath.Join` does.

## Model

| member | source | states |
|---|---|---|
| `Interference.SectionsHoldTheCurrentRecord` | mica-containerd/internal/supervisor/supervisor.go:216-231 | In every run of API calls, passes, crashes and starts of the daemon, an engine call for a declared name begins while the record reconcile holds is the current one, and a start only while it is desired running |
| `Interference.ApiCallIsNotOverwritten` | mica-containerd/internal/supervisor/supervisor.go:222-231 | What an accepted API call stored of a name (desired state, forced start, reset tallies) is still there, whatever pass was in flight, until reconcile looks at the name again or another call changes it |
| `Interference.OvertakenStoresNothing` | mica-containerd/internal/supervisor/supervisor.go:694-878 | A section overtaken by an API call stores nothing of the name, over any further interleaving |
| `Interference.ApplyTouches` | mica-containerd/internal/supervisor/supervisor.go:214-220 | Every accepted change of a name advances its sequence number, and no call changes anything of another name |
| `Interference.RunKeepsInv` | mica-containerd/internal/supervisor/supervisor.go:206-231 | The invariant behind it: records under their own names, sequence numbers bounded, the record held equal to the current one unless the name was touched |
| `Interference.PassKeepsDeclarations` | mica-containerd/internal/supervisor/supervisor.go:621-666 | A pass writes nothing to the store and changes no declaration |
| `Stops.AStopHolds` | mica-containerd/internal/supervisor/supervisor.go:535-557 | After a Stop that returned without error (and was written, or found the disk saying stopped) no start of the container begins in any run until a start, a removal or a new boot |
| `Stops.AStopLastsIff` | mica-containerd/internal/supervisor/supervisor.go:538-557 | An accepted stop lasts, over every run in which no start, removal or new boot ends it, exactly when it was written, because the supervisor held the container as running, or the disk already said stopped in a record that loads; otherwise a run that loses it is constructed |
| `Stops.ARefusedRemovalLosesAStop` | mica-containerd/internal/supervisor/supervisor.go:463-471 | From an empty disk, a state in which a removal was refused with its file already gone: a stop is accepted there and does not last |
| `Calls.ADesireIsServed` | mica-containerd/internal/supervisor/supervisor.go:535-557 | A Start or Stop is accepted exactly where the name is declared and a change of its desired state was stored; a Start forgets the tracking and forces, a Stop leaves it; the file changes only where the state did |
| `Calls.APutIsServed` | mica-containerd/internal/supervisor/supervisor.go:248-263 | A declaration is accepted exactly when valid and stored; a new one is desired running, another as before; only the tracking of a fatal one is reset, to forced |
| `Calls.ARemovalIsServed` | mica-containerd/internal/supervisor/supervisor.go:463-486 | A removal takes record, tracking and file; a restart sets its mark and nothing else |
| `Starts.APutRevives` | mica-containerd/internal/supervisor/supervisor.go:248-263 | Over every run without a crash, after an accepted redeclaration of a container that is fatal and desired running, the first pass that comes to it, down or not there, starts it exactly when its name is free and its dependencies are ready |
| `Starts.APutKeeps` | mica-containerd/internal/supervisor/supervisor.go:248-263 | An accepted declaration of a container that is not fatal leaves its tracking as it was |
| `Stops.AStopCanBeLost` | mica-containerd/internal/supervisor/supervisor.go:538-557 | A concrete run that loses one: a refused start whose write took effect, a stop that returns nil, a crash, the same boot, and the first pass starts the container |
| `Stops.ABootIsCompleted` | mica-containerd/internal/supervisor/supervisor.go:187-202 | However often the first start of the daemon in a boot fails or is cut short, the start that succeeds has every loaded record desired running, every project and the boot recorded, so it is never raised again |
| `Stops.RestartLoads` | mica-containerd/internal/supervisor/supervisor.go:173-190 | A start in the same boot, or in one that is not known, writes nothing and takes exactly the stored records that carry their name and are valid, and the projects, with no tracking |
| `Starts.AStartIsCarriedOut` | mica-containerd/internal/supervisor/supervisor.go:473-486 | In every run without a crash, after an accepted Start the first pass that comes to the container, down and of its declaration or not there, starts it exactly when its name is free and its dependencies are ready |
| `Starts.AStartSurvivesIff` | mica-containerd/internal/supervisor/supervisor.go:769-846 | In every run, crashes in the same boot included, that leaves the container, down or not there, to the passes and has not started it yet: a look at it starts it exactly when its name is free, its dependencies are ready, and there is none that ran in this boot, or no look and no crash took the start before, or its exit was decided on at least a second ago by a look after that; where the policy leaves the exit, exactly when nothing is in its way and nothing took the start |
| `Starts.ALostStartStaysLost` | mica-containerd/internal/supervisor/supervisor.go:794-805 | A start taken by a look or a crash, of a container that exited in this boot and whose policy leaves it, is never carried out in any run that leaves it to the passes |
| `Starts.AStartIsRememberedIff` | mica-containerd/internal/supervisor/supervisor.go:538-557 | A daemon restarted in the same boot has the container desired running after an accepted Start exactly when the start was written, because the supervisor held it as stopped, or the disk already said running |
| `Starts.ACrashLosesAStart` | mica-containerd/internal/supervisor/supervisor.go:769-781 | From an empty disk, a run with a crash between the Start and the pass: the container stays down with nothing to wait for, and the same pass without the crash starts it |
| `Starts.AWaitLosesAStart` | mica-containerd/internal/supervisor/supervisor.go:779-803 | From an empty disk, a run in which the started container waits for a dependency that is not declared yet: looked at again with the dependency running, it is left down |
| `RestartCalls.ARestartSurvivesIff` | mica-containerd/internal/supervisor/supervisor.go:734-745 | In every run, crashes in the same boot included, that leaves a running container to the passes after an accepted Restart, until a stop of it is done: nothing starts it, a look stops it exactly when no crash came before, failed stops notwithstanding, and the stop that is done is followed by the start exactly when its dependencies are ready |
| `RestartCalls.ARestartThatWaits` | mica-containerd/internal/supervisor/supervisor.go:734-781 | A Restart that has to wait after its stop is from there on an accepted Start of what the container has become: a look starts it exactly when a Start that nothing has taken yet would |
| `Restarts.RestartsAreBounded` | mica-containerd/internal/supervisor/supervisor.go:769-830 | From fresh tracking or an accepted Start, with no API call on the name and no run longer than the cap, a container with a limit is started at most 1 + StartRetries + limit times; at that count it has been seen started, is given up or is in its last launch, and a look at it that finds it not running leaves it exited or fatal |
| `Restarts.RestartsAreSpaced` | mica-containerd/internal/supervisor/supervisor.go:769-878 | From fresh tracking or an accepted Start, however long its runs last: a start begins only where a pass comes to the container, two are at least a second apart, and one in backoff does not precede its next attempt |
| `Restarts.AStartBegins` | mica-containerd/internal/supervisor/supervisor.go:538-557 | An accepted Start begins such a stretch, whatever a pass in flight was doing |
| `Restarts.FatalIsNeverStarted` | mica-containerd/internal/supervisor/supervisor.go:769-784 | Once fatal, no start in any run until an API call on the name or the container is seen running |
| `Timing.GapExact` | mica-containerd/internal/supervisor/supervisor.go:613-616 | The gap in 64-bit arithmetic is n seconds below the cap and the cap from there on |
| `Timing.GapMonotone` | mica-containerd/internal/supervisor/supervisor.go:613-616 | Gaps never shrink and stay between one and sixty seconds |
| `Timing.AnExitIsNeverRestartedAtOnce` | mica-containerd/internal/supervisor/supervisor.go:806-830 | An exit that is restarted waits one to sixty seconds: the branch that starts at once is never taken, short of the tally whose gap wraps |
| `Timing.GapsBoundedUpTo` | mica-containerd/internal/supervisor/supervisor.go:613-616 | That bound holds for all attempts up to n exactly when n is at most 9223372036; the next one wraps to a negative gap |
| `Looks.AnExitIsDecided` | mica-containerd/internal/supervisor/supervisor.go:794-830 | An exit nothing was decided on, of this boot and unforced: left exited exactly when the policy is neither always nor, for a code other than 0, on-failure; otherwise the attempts grow after a run under a second and the restarts after a longer one, both from 0 after a run over 60 s; fatal exactly when that tally passes 3 or the declared limit, and otherwise due in as many seconds as the tally, at most 60 |
| `Looks.ANewStartIsDecided` | mica-containerd/internal/supervisor/supervisor.go:769-781 | A container told to start, missing, or not run in this boot: left when fatal, waited with until its next attempt, and otherwise tried, with everything forgotten of it when it was told to start or was not tried before |
| `Looks.ADecidedExitIsKept` | mica-containerd/internal/supervisor/supervisor.go:782-792 | An exit decided on: left as exited or fatal, waited with until its next attempt, then tried again |
| `Looks.ALaunchIsNoted` | mica-containerd/internal/supervisor/supervisor.go:861-877 | A failed launch is an attempt, fatal after the third and otherwise in backoff for as many seconds; a good one is starting and looked at in a second |
| `Looks.ARunIsObserved` | mica-containerd/internal/supervisor/supervisor.go:747-766 | A running container is starting for its first second and running after; its check is asked for when due, and the nearer of the two deadlines is left |
| `Looks.AStopIsAsked` | mica-containerd/internal/supervisor/supervisor.go:699-745 | A container of another hash is removed, one not to run stopped, one to be restarted stopped, and one already down settled by its exit |
| `Looks.AStopReturns` | mica-containerd/internal/supervisor/supervisor.go:706-745 | A failed call leaves its error alone; a stop done settles the container or goes on to its start; after a removal it is tried as one that is not there |
| `Looks.ACheckReturns` | mica-containerd/internal/supervisor/supervisor.go:917-935 | A check that comes back: the next an interval later, its error kept; one that passes is healthy, and one that fails outside the start period counts, unhealthy at the declared number in a row; the pass returns at the next check or when the run is confirmed, if that is sooner |
| `Looks.ARemovalIsSeen` | mica-containerd/internal/supervisor/supervisor.go:703-713 | After a removal that was not overtaken the container is no longer among those observed; no other outcome changes what was observed |
| `Looks.HowItIsAsked` | mica-containerd/internal/supervisor/supervisor.go:847-860 | A container that is there is started, but one with devices is run, as one that is not there |
| `Readiness.UnreadyIff` | mica-containerd/internal/supervisor/supervisor.go:880-897 | Nothing is unready exactly when every dependency is declared, tracked running, and healthy where it asks for healthy; otherwise the first that is not is named with what it lacks |
| `Readiness.NothingStartsBeforeItsDependencies` | mica-containerd/internal/supervisor/supervisor.go:836-846 | Over every run from any disk, a launch begins only while all of that holds of every dependency of the record |
| `Convergence.Convergence` | mica-containerd/internal/supervisor/supervisor.go:621-895 | From fresh tracking with no container there, after 2(d+1) undisturbed passes, d the longest chain of dependencies, every container is up and stays up, and each pass after its turn asks the engine for nothing but checks |
| `Convergence.APass` | mica-containerd/internal/supervisor/supervisor.go:621-666 | One undisturbed pass leaves every container that was there up, and runs each other one whose dependencies were up when it began |
| `Passes.APassIsARun` | mica-containerd/internal/supervisor/supervisor.go:621-666 | A whole pass, whatever API calls fall into the stretches without the lock, is a run of the machine of steps, with the same memory, store, publication and engine calls |
| `Transparency.FactsDecide` | mica-containerd/internal/supervisor/supervisor.go:694-804 | With nothing known but the facts, reconcile leaves a container that stands as declared alone exactly when its label is the hash of the spec |
| `Transparency.RestartIsTransparent` | mica-containerd/internal/supervisor/supervisor.go:157-204 | After a crash and a start in the same boot the pass issues no Run, Start, Stop or Remove for a container that stands as declared, exactly when its hash survives the store |
| `Foreign.ForeignIsNeverTouched` | mica-containerd/internal/supervisor/supervisor.go:632-646 | In every run with unique listed names, no engine call targets a name the listing gives to a container without the managed label |
| `HealthChecks.HealthFollowsTheChecks` | mica-containerd/internal/supervisor/supervisor.go:901-935 | Over every run of the machine in which one run of a container goes on, API calls, crashes and starts of the daemon included: once a pass has seen it since the last reset, its health is unhealthy exactly when the counted failures since the last pass of a stored check reach the retries, healthy exactly when they do not and some check passed; every check issued, overtaken or not, comes once the run is confirmed and an interval after the last stored one, and nothing else is asked about the name |
| `HealthChecks.LooksAttach` | mica-containerd/internal/supervisor/supervisor.go:734-766 | A pass that comes to it has seen it, and asks for a check exactly when one is due by that history |
| `HealthChecks.FreshTells` | mica-containerd/internal/supervisor/supervisor.go:903-906 | Fresh tracking tells the empty history exactly when the engine reports a start time |
| `Events.EventsReplay` | mica-containerd/internal/supervisor/supervisor.go:505-533 | Over every run, replaying all published changes gives the phases of the last publication, and no name is published twice in the same phase |
| `Events.ChangesAre` | mica-containerd/internal/supervisor/supervisor.go:506-522 | A publication holds, in the order of the names, exactly one change for each declared name whose phase is not the one last published, with its desired state and exit code, and one for each name no longer declared |
| `Events.KeepingUpLosesNothing` | mica-containerd/internal/supervisor/supervisor.go:525-532 | A subscriber with room for every publication in its 64 places receives all of them |
| `Events.PublicationReplays` | mica-containerd/internal/supervisor/supervisor.go:506-522 | One publication turns the phases last published into those of now |
| `Events.Send` | mica-containerd/internal/supervisor/supervisor.go:525-532 | The loop takes, in order, as many changes as there is room for among 64, and drops the others |
| `Events.SubscriberGetsASubsequence` | mica-containerd/internal/supervisor/supervisor.go:525-532 | A slow subscriber receives a subsequence of what was published, in order |
| `Supervision.Supervisor.Pass` | mica-containerd/internal/supervisor/supervisor.go:621-666 | The pass as code: a listing that fails changes nothing; otherwise listing sorted out, every name reconciled in order, publication, equal to the pass function for every script of API calls and outcomes, and due at the least deadline that any name of it left, or at none |
| `Supervision.Supervisor.Reconcile` | mica-containerd/internal/supervisor/supervisor.go:694-831 | Reconcile as code, with its early returns, ends as the sections it is made of |
| `Supervision.Supervisor.Recreate` | mica-containerd/internal/supervisor/supervisor.go:699-714 | A container of another hash is removed, then judged as absent, forced when desired running |
| `Supervision.Supervisor.StopDeclared` | mica-containerd/internal/supervisor/supervisor.go:716-732 | Desired stopped: stopped if it runs, its exit taken as decided |
| `Supervision.Supervisor.Restart` | mica-containerd/internal/supervisor/supervisor.go:734-745 | An explicit restart: stopped, then started |
| `Supervision.Supervisor.ObserveRunning` | mica-containerd/internal/supervisor/supervisor.go:747-766 | A running container: confirmed or not, checked when due, and the nearer deadline |
| `Supervision.Supervisor.Decide` | mica-containerd/internal/supervisor/supervisor.go:769-792 | A container that is not running: started, waited with or left |
| `Supervision.Supervisor.DecideExit` | mica-containerd/internal/supervisor/supervisor.go:794-830 | An exit not yet decided on |
| `Supervision.TallyExit` | mica-containerd/internal/supervisor/supervisor.go:795-823 | The tallies after an exit and the attempt due, which `Looks.AnExitIsDecided` tells from the policy, the code and the length of the run |
| `Supervision.Supervisor.Start` | mica-containerd/internal/supervisor/supervisor.go:836-846 | A start is refused for a foreign holder of the name, waits for dependencies that `Readiness.UnreadyIff` tells, or launches |
| `Supervision.Supervisor.DoLaunch` | mica-containerd/internal/supervisor/supervisor.go:847-878 | The launch, and what it leaves when it was not overtaken |
| `Supervision.RecordLaunch` | mica-containerd/internal/supervisor/supervisor.go:861-877 | A failed launch is an attempt that never reached running |
| `Supervision.Supervisor.Health` | mica-containerd/internal/supervisor/supervisor.go:901-935 | The health check when due, stored only if not overtaken |
| `Supervision.RecordCheck` | mica-containerd/internal/supervisor/supervisor.go:917-934 | What one check makes of the health state |
| `Supervision.Supervisor.Unlocked` | mica-containerd/internal/supervisor/supervisor.go:225-231 | An engine call without the lock reports whether the name was left alone |
| `Supervision.Supervisor.Publish` | mica-containerd/internal/supervisor/supervisor.go:506-522 | The changes, sorted by name, and the phases remembered |
| `Supervision.Supervisor.New` | mica-containerd/internal/supervisor/supervisor.go:173-203 | The start of the daemon, in this boot or a new one, for any outcome of the store; one that cannot read the records, the projects or the boot id is refused and writes nothing |
| `Supervision.Supervisor.SetDesired` | mica-containerd/internal/supervisor/supervisor.go:538-557 | Start and Stop: what is written, and the reset tracking |
| `Supervision.Supervisor.MarkRestart` | mica-containerd/internal/supervisor/supervisor.go:481-484 | The second half of Restart |
| `Supervision.Supervisor.Put` | mica-containerd/internal/supervisor/supervisor.go:248-263 | A name declared for the first time comes up running, one declared again stays as it was wanted, and one given up is forced (`Starts.APutRevives` over runs); a refused write changes no memory |
| `Supervision.Supervisor.Delete` | mica-containerd/internal/supervisor/supervisor.go:463-471 | A removed declaration takes its tracking with it; a refused one changes no memory |
| `Supervision.Supervisor.Act` | mica-containerd/internal/supervisor/supervisor.go:716-767 | Reconcile once the container is known to be of the declaration: stopped, restarted, observed or decided on |
| `Supervision.Supervisor.SortOut` | mica-containerd/internal/supervisor/supervisor.go:630-646 | The listing sorted out: foreign containers kept apart, undeclared ones removed, the others observed |
| `Supervision.Supervisor.ReconcileEach` | mica-containerd/internal/supervisor/supervisor.go:653-662 | Every name of the pass in turn, skipping one no longer declared, and the nearest deadline |
| `Supervision.Supervisor.PublishDeclared` | mica-containerd/internal/supervisor/supervisor.go:508-515 | The declared containers whose phase moved |
| `Supervision.Supervisor.PublishDeleted` | mica-containerd/internal/supervisor/supervisor.go:516-521 | The names no longer declared |
| `Supervision.ListChanges` | mica-containerd/internal/supervisor/supervisor.go:522 | The changes in the order of their names, nothing lost |
| `Supervision.RaiseAll` | mica-containerd/internal/supervisor/supervisor.go:191-202 | The loop of a new boot, stopping at the first refusal, in any order of the records |
| `Supervision.Supervisor.Touch` | mica-containerd/internal/supervisor/supervisor.go:216-220 | A name marked changed under a new sequence number |
| `Supervision.Supervisor.DeleteAll` | mica-containerd/internal/supervisor/supervisor.go:342-348 | Removing the declarations a loop picks out, with the frame when the store refuses |
| `Supervision.Supervisor.PutAll` | mica-containerd/internal/supervisor/supervisor.go:395-401 | Storing the specs of a project, with the frame when the store refuses |
| `Supervision.Supervisor.DropAll` | mica-containerd/internal/supervisor/supervisor.go:349-356 | Dropping the projects a set no longer has |
| `Projects.OwnAll` | mica-containerd/internal/supervisor/supervisor.go:328-333 | A container of two projects is found |
| `Projects.HeldByName` | mica-containerd/internal/supervisor/supervisor.go:337-339 | A foreign holder of any name of the set is found |
| `Supervision.Supervisor.PutProjects` | mica-containerd/internal/supervisor/supervisor.go:308-363 | Exactly the specs and projects of the set, desired states kept only within a project, the store agreeing on every name; refused exactly for a file that does not load, a container in two projects, a failed listing or a foreign holder, and then nothing changes |
| `Supervision.Supervisor.PutProject` | mica-containerd/internal/supervisor/supervisor.go:267-283 | Exactly the project's records are replaced and all others equal, in memory and on disk, whatever the store answers; a refused call changes nothing |
| `Supervision.Supervisor.DeleteProject` | mica-containerd/internal/supervisor/supervisor.go:366-386 | The project's records and files go, all others stay |
| `Supervision.Supervisor.Declare` | mica-containerd/internal/supervisor/supervisor.go:390-410 | Stores a project and its specs and prunes what it no longer has, with the frame on failure too |
| `Supervision.Supervisor.DeclareAll` | mica-containerd/internal/supervisor/supervisor.go:357-362 | Declaring the projects of a set one by one reaches the whole set |
| `Supervision.Unmanaged` | mica-containerd/internal/supervisor/supervisor.go:287-304 | A name is refused exactly when a container without the managed label holds it |
| `Projects.Collect` | mica-containerd/internal/supervisor/supervisor.go:317-336 | The specs of a set and the owner of each, or a refusal |
| `Projects.DeclareNext` | mica-containerd/internal/supervisor/supervisor.go:357-362 | Declaring one more project keeps those done and leaves the others untouched |
| `Projects.PutThenPruned` | mica-containerd/internal/supervisor/supervisor.go:395-408 | Putting the specs and pruning the rest replaces exactly the project |
| `Specs.Normalize` | mica-containerd/internal/spec/spec.go:194-228 | The loops fill in the defaults |
| `Rules.DefaultsAre` | mica-containerd/internal/spec/spec.go:194-228 | What is left out becomes no restart, tcp, a check every 30 s that may take 10 and fail 3 times, and dependencies that run; everything else is kept |
| `Rules.ValidIff` | mica-containerd/internal/spec/spec.go:181-374 | A spec as it is given is valid exactly when it keeps every rule: its texts match the seven regular expressions, its paths are absolute and as path.Clean leaves them, its numbers keep their bounds with the defaults counted in; and a refusal names a rule that is broken |
| `Rules.CleanAbsIff` | mica-containerd/internal/spec/spec.go:253-254 | A path whose components are names alone is one that walking the components, dots and pairs of dots and empty ones taken away, gives back |
| `Rules.RuleIff` | mica-containerd/internal/spec/spec.go:187 | The texts split at spaces and colons that are accepted as device rules are those the expression matches |
| `Specs.NormalizedIdempotent` | mica-containerd/internal/spec/spec.go:194-228 | Defaults are filled once; neither the verdict nor the hash sees whether they were |
| `Specs.CheckPublish` | mica-containerd/internal/spec/spec.go:292-305 | The loop accepts exactly ports without 0, of tcp or udp, no host port and protocol twice |
| `Specs.CheckDependsOn` | mica-containerd/internal/spec/spec.go:364-373 | The loop accepts exactly dependencies on other names, each once, with a known readiness |
| `Specs.DigestIgnoresRestartAndDependencies` | mica-containerd/internal/spec/spec.go:377-399 | The restart policy and the dependencies leave the hash |
| `Specs.ReloadedKeeps` | mica-containerd/internal/store/store.go:61-98 | Storing and loading keeps the verdict and, once done, changes nothing more |
| `Specs.HashSurvivesReload` | mica-containerd/internal/spec/spec.go:380-411 | The hash survives the store exactly when command, volumes and environment are each absent or not empty |
| `PodmanReader.ArgsReadBack` | mica-containerd/internal/engine/podman.go:38-124 | For every valid spec a reader with podman's option words and value forms as its own literals recovers from the argument list which declared field each word carries: names, network, aliases, capabilities added and dropped, user, directories, variables, ports, volumes, devices, limits, the health check, labels, log file, the image and the command |
| `PodmanReader.HashIsACompleteKey` | mica-containerd/internal/engine/podman.go:35-50 | Any two specs of the same name and hash have the same arguments; two with the same arguments, whose images are no options, have the same name and hash |
| `PodmanReader.ParsesPrinted` | mica-containerd/internal/engine/podman.go:123-124 | No option value, image or command word is taken for an option |
| `PodmanReader.ReadsEnv` | mica-containerd/internal/engine/podman.go:78-85 | The variables read back as the same map |
| `PodmanReader.ReadsMount` | mica-containerd/internal/engine/podman.go:89-95 | A volume reads back with its read-only flag |
| `PodmanReader.ReadsPort` | mica-containerd/internal/engine/podman.go:86-88 | A port reads back |
| `PodmanReader.ANetworkNamedHost` | mica-containerd/internal/engine/podman.go:50-54 | A valid network named host gives the arguments of host mode, but for the label of the hash |
| `PodmanReader.ModeReadBack` | mica-containerd/internal/engine/podman.go:50-54 | The network mode is read back exactly when no network is named after one |
| `Podman.BuildArgs` | mica-containerd/internal/engine/podman.go:38-124 | The list grown option by option is the printed one, which `PodmanReader.ArgsReadBack` reads back by words of its own |
| `Podman.AddHead` | mica-containerd/internal/engine/podman.go:40-54 | The arguments every container has, the log path joined from its directory |
| `Podman.AddContainer` | mica-containerd/internal/engine/podman.go:55-85 | The options of the container itself |
| `Podman.AddResources` | mica-containerd/internal/engine/podman.go:86-110 | Ports, volumes, devices and limits |
| `Podman.AddHealth` | mica-containerd/internal/engine/podman.go:111-122 | The options of a health check |
| `Podman.AddPorts` | mica-containerd/internal/engine/podman.go:86-88 | The loop over the ports |
| `Podman.AddDevices` | mica-containerd/internal/engine/podman.go:96-98 | The loop over the devices |
| `Podman.AddEnv` | mica-containerd/internal/engine/podman.go:78-85 | The loop over the sorted variables |
| `Podman.AddVolumes` | mica-containerd/internal/engine/podman.go:89-95 | The loop over the volumes |
| `Decimals.ReadsDecimal` | mica-containerd/internal/engine/podman.go:86-121 | Printed numbers read back |
| `Stores.Store.Put` | mica-containerd/internal/store/store.go:100-110 | Where no crash would change what loads, a crash after any step of a write leaves a map that loads whole, from before or after it, and every fault but a failed sync of the directory leaves that so; every fault leaves the disk as the supervisor takes it to be |
| `Stores.Store.Delete` | mica-containerd/internal/store/store.go:112-125 | The same of a removal; a missing file is no error and nothing is synced |
| `Stores.Store.PutProject` | mica-containerd/internal/store/store.go:167-181 | Each of a project's two files is what it was or what was written, whatever step is the last, and the second is untouched until the first is what was written and no crash makes it anything else (but for a directory file that was missing already when it was to be removed) |
| `Stores.CrashIsOldOrNew` | mica-containerd/internal/store/store.go:207-229 | On a directory where no crash would change what loads, a crash after any step: nothing bad, and the map before or after |
| `Stores.AnySequenceIsAtomic` | mica-containerd/internal/store/store.go:100-125 | Any sequence of writes and removals of valid records and of boot ids, each done or failed at any step, and a crash before, in or after the last: nothing bad; every other record not left unsynced is what it was; every record is a version it has had since an operation that synced the directory, or what the last makes of it; and with none left unsynced the map from before the last operation or after it |
| `Stores.CrashAfterCrash` | mica-containerd/internal/store/store.go:61-125 | However many such lives follow each other, each on what a crash left of the last, the same holds of each, and the daemon loads exactly that map |
| `Stores.SoundLoads` | mica-containerd/internal/store/store.go:61-98 | No crash of a sound directory makes a record bad, leftover temporary files included |
| `Stores.RecoveredIsSound` | mica-containerd/internal/store/store.go:61-98 | What a crash left, once on disk, is sound again |
| `Stores.LoadRecords` | mica-containerd/internal/store/store.go:63-98 | The loop over the directory, its subdirectories left out, loads exactly the record files that parse, carry their name and validate, and reports the others; one that cannot be read fails the load |
| `Stores.LoadsIff` | mica-containerd/internal/store/store.go:78-95 | A file loads under a name exactly when it is a document of that name with a valid spec and one of the words running and stopped, as that record |
| `Stores.WhatIsKept` | mica-containerd/internal/store/store.go:100-139 | The file each operation is about and what it writes there: name.json with the desired word, and boot-id with the id and a newline |
| `Stores.AProjectReadsBack` | mica-containerd/internal/store/store.go:142-181 | What PutProject stored of a project is read back as that project exactly when its directory has no white space at either end |
| `Stores.ADirectoryIsLost` | mica-containerd/internal/store/store.go:160 | A directory that is clean and absolute, so accepted, and read back as another |
| `Stores.ABootIsRead` | mica-containerd/internal/store/store.go:127-139 | A boot id stored, with no white space around it, is the one on record; one refused before the rename leaves the record |
| `Stores.LoadReadsFiles` | mica-containerd/internal/store/store.go:63-98 | The daemon loads the records of the files |
| `Stores.DocumentLoads` | mica-containerd/internal/store/store.go:105-109 | The document of a valid record loads as that record |
| `Directories.Directory.Write` | mica-containerd/internal/store/store.go:207-229 | After every step of a write no other file has changed or may have, and this one is the old or the new content, whole |
| `Directories.Directory.Stage` | mica-containerd/internal/store/store.go:208-224 | Up to the rename no visible file has changed or may have; a failure discards the temporary file |
| `Directories.Directory.Remove` | mica-containerd/internal/store/store.go:195-205 | After every step of a removal this file is there or gone and no other has changed |
| `Directories.RemovedForGood` | mica-containerd/internal/store/store.go:195-205 | After any sequence of operations, done or failed, a file reported removed is gone for good exactly when it was there to be removed, or no operation on it has failed in syncing the directory since the last one that synced it |
| `Directories.ARemovalCanComeBack` | mica-containerd/internal/store/store.go:112-125 | A removal that failed in syncing, tried again, reports no error, and a crash can bring the file back |
| `Compose.Checker.Load` | mica-containerd/internal/compose/compose.go:114-188 | Accepted exactly when project and directory are proper, every service is given and asks for nothing refused, and the specs that render them are valid and of distinct names; then sorted strictly by name, each service rendered: named by choice or default, on its network under its alias or in its mode, one dependency for each key of depends_on, healthy exactly where the condition is, limits the greater of the service's and its deployment's |
| `Compose.Checker.NameServices` | mica-containerd/internal/compose/compose.go:153-171 | The names of the containers, and a problem for each one chosen badly or twice |
| `Compose.Checker.CollectSpecs` | mica-containerd/internal/compose/compose.go:172-182 | The specs of the services when none has a problem |
| `Compose.Checker.CheckService` | mica-containerd/internal/compose/compose.go:367-455 | One service as a spec exactly when nothing of it is refused and the spec is valid |
| `Compose.Checker.CheckDepends` | mica-containerd/internal/compose/compose.go:417-439 | Dependencies in sorted order, named by their containers |
| `Compose.Checker.CheckDepend` | mica-containerd/internal/compose/compose.go:423-437 | One dependency: healthy exactly when that is its condition and running otherwise, and a problem for another condition, one not required or one that restarts |
| `Compose.Checker.CheckName` | mica-containerd/internal/compose/compose.go:161-169 | One name: valid when chosen, and not taken |
| `Compose.Checker.CheckLimits` | mica-containerd/internal/compose/compose.go:656-681 | The limits, or the problems with them |
| `Compose.RendersSpec` | mica-containerd/internal/compose/compose.go:367-455 | The spec a service is translated to is the only one that renders it, told without the translation |
| `Compose.LabelsIff` | mica-containerd/internal/compose/compose.go:65-71 | Projects and services are named by exactly the texts of the two expressions |
| `Compose.TranslationIsClosed` | mica-containerd/internal/compose/compose.go:437-454 | A dependency that is no service has no name and is refused, so every one left names another spec |
| `Compose.SortByName` | mica-containerd/internal/compose/compose.go:186-187 | The result sorted strictly by name, nothing lost |
| `Compose.DefaultNamesAreValid` | mica-containerd/internal/compose/compose.go:65-77 | Default container and network names are valid |
| `Compose.DefaultNamesCollideIff` | mica-containerd/internal/compose/compose.go:73-74 | Two services have the same default name exactly when they are one service of one project, or one project's name continues the other's after a dash and what it adds, a dash after it, begins the other's service |
| `Compose.DefaultNamesDiffer` | mica-containerd/internal/compose/compose.go:73-74 | Within a project two services never share a default name |
| `Compose.DefaultNamesCollide` | mica-containerd/internal/compose/compose.go:73-74 | Two valid projects with a service each that meet that condition |
| `Compose.MemoryIsExact` | mica-containerd/internal/compose/compose.go:671-681 | Every positive whole number of KiB is written in the largest unit that divides it, reads back the same and is a valid limit; every other positive count is refused |
| `Paths.Resolve` | mica-containerd/internal/compose/compose.go:533-546 | Terminates with the longest part of the path that resolves, every longer part missing, the rest put back; equal to the existing part exactly when the path itself resolves |
| `Paths.DirIsClean` | mica-containerd/internal/compose/compose.go:535-544 | Climbing one component keeps the path clean and loses nothing |

## Left out

* The tracking of a container is a value stored under its name, where the source keeps a pointer
  to it across an engine call; the two agree because a name whose tracking was replaced or
  removed was touched.
- Stores.Store.PutProject: the two files are not atomic as a pair; a crash between them leaves the new
  directory with the old Compose file.
- Stops.AStopHolds: requires a written stop or a disk that says stopped, because without it the property
  is false; `Stops.AStopLastsIff` has the exact condition.
- Starts.AStartIsCarriedOut: leaves out runs with a crash of the daemon before the pass, because there the
  property is false; `Starts.AStartSurvivesIff` has them, and the exact condition.
- Starts.AStartSurvivesIff: is about a name under which every listing shows the same container, down and
  created from the declaration, or none, with a clock that does not go back; a crash is one at which the
  store holds the declaration, with a stable hash where there is a container.
- RestartCalls.ARestartSurvivesIff: is about a container that every listing shows running until it is
  stopped; a crash is one at which the store holds the declaration with a stable hash.
- Directories.RemovedForGood: begins with a directory that no crash would change, and follows every
  operation from there.
- Restarts.RestartsAreSpaced: for a container without a restart limit it needs fewer than 9223372037 steps,
  because the restart tally is where the gap wraps.
* The wrap-around of the sequence number after 2^64 API calls.
* The overflow of a time to which a duration is added.
* The loop over the project files; what is read of one project is `Stores.AProjectReadsBack`.
* Creating and removing networks, logs, the event stream, and the timers and channels of `Run`;
  that a pass happens is a step.
* The HTTP API, the command line client and the status documents it reports.
* YAML, interpolation, and the single checks of the Compose subset (capabilities, ports, volumes,
  devices, restart, health): what they found is an input of a service.
* Turning a number of CPUs into the text of a limit, which is floating point; the text is validated.
* Strings are sequences of characters; invalid UTF-8 is not modelled.
