# appx: a verified model of the installer and lifecycle coordinator

appx (Go) bootstraps a program out of named applications. Each
application names the applications it requires. The registry installs
them in dependency order, detects circular requirements, records the
start and stop hooks their init functions append to a lifecycle ledger,
starts and stops that ledger, and uninstalls in reverse install order.
This project models those three parts as imperative Dafny and proves what
the code promises about them:

- `lifecycle.dfy` (module `LifecycleLedger`) is the ledger, `lifecycleImpl`.
  It is a class with an append-only `hooks` sequence and the `numStarted`
  cursor. A ghost `calls` log records every OnStart/OnStop invocation.
  Pure functions (`FirstFailure`, `StartCalls`, `StopCalls`, `StopErrors`)
  state what Start and Stop do, and lemmas give their ordering
  properties.
- `appx.dfy` (module `Appx`) holds the `App`, `Registry` and `Options`
  classes. App and Registry refer to each other: an application finds
  its requirements through the registry it was registered into. So they
  share a module.
  - The recursive `App.Install` is split into methods along its steps:
    the guards, marking installing, resolving, the loop over the
    required applications, the before hook, init, the after hook.
  - The ghost set `U` holds the applications a run can reach.
    Termination uses the number of Fresh or Uninstalled applications in `U`.
  - `Tied` connects a run's events to the applications: every Init or
    Done event carries the application's own resolved requirements and
    its own init function. `App.Install` keeps the run so far tied, so
    the dependency order of the events is the dependency order of the
    applications themselves (`InstalledInDependencyOrder`).
  - `Closed(U)` says that `U` holds every application its members can
    reach, and that every requirement an application has resolved is the
    application its registry has under that name.
  - `Shaped` says what a run has done to the fields of every application
    of `U`, against a snapshot taken before it: an application the run has
    initialised or marked Done has the common middlewares prepended and,
    when it has an init function, that function's value and clean-up
    (otherwise its own); any other application keeps its middlewares,
    value and clean-up; and an application the run has not marked Begun
    keeps its resolved requirements.
- `install_order.dfy` (module `InstallOrder`) is the theory of one install
  run. A run is a ghost sequence of events: `Begun` (marked Installing),
  `Init` (the init function called with the resolved requirements) and
  `Done` (marked Installed). `Run` relates the installed, pending (Fresh or
  Uninstalled) and Uninstalled sets before a run to those after it:
  - only pending applications are marked Begun, and exactly those leave the
    pending and Uninstalled sets;
  - the new installed set is the old one plus the applications marked Done;
  - every application initialised or marked Done was marked Begun;
  - every event's required applications were installed before or marked
    Done earlier (`DepOrdered`);
  - nothing is done twice (`Once`, which covers diamond requirements);
  - each Done mark of an application with an init function comes right
    after the call of that function, made with the same requirements, and
    an init call is followed by its Done mark unless it ends the run
    (`Paired`). A run that does not end with an unfinished init call is
    `Complete`.
  Read per application, a run leaves each one in `StateAfter` its old
  state: Installed if marked Done, Installing if only marked Begun,
  unchanged otherwise (`RunStates`).
- `uninstall_order.dfy` (module `UninstallOrder`) is the registry's reverse
  uninstall pass, written as a pure function `Pass` over each installed
  application's (state, clean-up) view.
- `base.dfy` (module `Base`) holds the shared values: errors, callbacks,
  hooks, init functions, states and trace events.

User callbacks (`InitFunc`, `CleanFunc`, `OnStart`, `OnStop`) are opaque
values. Each has an identity and a fixed outcome, and an init function
also has the hooks it appends. The model records every invocation in a
ghost trace: the lifecycle's `calls` and the registry's `Trace`. Ordering
properties are stated over those traces.

Reconciliations made where the code does not agree with itself, or with
its own comments:

- The recursive install takes an after hook only (app.go:80), but the
  registry passes both a before and an after hook (registry.go:99, 114).
  The before hook sets `app.middlewares` (registry.go:88-90), and `App`
  has no such field (app.go:30-42). The model gives `App` a `middlewares`
  field. It calls the before hook, `Registry.Before`, just before the
  init step (app.go:101-102): the hook runs before the application itself
  is installed, after its requirements.
- The zero `state` of a new application is none of the three named
  states (app.go:8-12, 41). The model has a fourth state, `Fresh`.
- The rollback after an install failure calls the package-level
  `Uninstall()` (registry.go:101, 111, 116), which acts on the global
  registry and not on `r`. The model passes that registry as the
  parameter `global`. The comments call this a roll back of the failed
  install (registry.go:100, 110, 115). The model follows the code.
- The comments say that only hooks whose OnStart succeeded are stopped
  (lifecycle.go:15-18, 47-48). The code adds to the current cursor, counts hooks
  with a nil OnStart, and always iterates from index 0 (lifecycle.go:36,
  42). `Lifecycle.Start` follows the code and has no precondition: its
  cursor ends at `old(numStarted) + FirstFailure(hooks)`.
  - `Lifecycle.Stop` requires `numStarted <= |hooks|`, because the source
    would index out of range otherwise (lifecycle.go:52).
  - `Registry.Start` requires that a failed Start leaves the cursor
    within range for its rollback Stop. This always holds from a zero
    cursor.
- Go's map iteration order is unspecified (app.go:95, 140,
  registry.go:98). Those loops pick their next element with `:|`, and no
  property depends on sibling order.
- `Use` panics once `installed` is non-empty (registry.go:72-74). That
  is its precondition.

## Model

| member | source | states |
|---|---|---|
| LifecycleLedger.Lifecycle.constructor | lifecycle.go:24-27 | a new ledger has no hooks, a zero cursor and no calls |
| LifecycleLedger.Lifecycle.Append | lifecycle.go:29-31 | the hook is placed at the end; earlier hooks, the cursor and the calls are unchanged |
| LifecycleLedger.Lifecycle.Start | lifecycle.go:35-45 | hooks unchanged. The cursor grows by the number of hooks before the first failing OnStart; nil OnStart hooks count, the failing hook does not. Returns an error iff some OnStart fails, namely the first failing one's. Invokes exactly the OnStart callbacks up to and including that hook, in insertion order; with no failure, all of them and nil |
| LifecycleLedger.FirstFailure | lifecycle.go:36-41 | the index of the first hook whose OnStart fails (or the hook count): no hook before it fails, the hook at it fails |
| LifecycleLedger.Lifecycle.Stop | lifecycle.go:49-62 | hooks unchanged, cursor 0. Invokes the OnStop of the hooks below the cursor from the cursor down, skipping nil ones. Returns the errors of every failing one in invocation order and keeps going after an error |
| LifecycleLedger.StopCallsReversed | lifecycle.go:47-55 | the OnStop invocations of Stop are exactly the reverse of the started hooks' OnStop callbacks in insertion order |
| LifecycleLedger.StopOnlyStarted | lifecycle.go:15-18 | hooks at or beyond the cursor have no influence on Stop's calls or errors: only hooks that started are stopped |
| LifecycleLedger.StopErrorsAreFailures | lifecycle.go:56-59 | Stop's errors are the results of exactly the failing OnStop callbacks it invoked, in order |
| LifecycleLedger.RollbackAfterFailedStart | lifecycle.go:15-18 | after Start fails at hook k from a zero cursor, the rollback Stop invokes the OnStop of hooks 0..k-1 only, in reverse insertion order |
| LifecycleLedger.ThreeHookRollback | lifecycle.go:35-62 | three hooks whose second OnStart fails: Start invokes S1 and S2 and fails at hook 1; the rollback invokes only the first hook's OnStop |
| Appx.App.constructor | app.go:45-54 | a new application has its name, no requirements, the default lookup, no init or clean-up function, state Fresh |
| Appx.App.Require | app.go:57-62 | the required names grow by exactly the names given; re-adding names already required changes nothing |
| Appx.App.Init2 | app.go:74-77 | sets the init function |
| Appx.App.Lookup | app.go:50-52 | the getAppFunc lookup: succeeds iff a registry is attached and has the name, returning its application; else nil and the not-registered error for that name |
| Appx.App.PrepareRequiredApps | app.go:135-149 | no lookups, nothing changed, when as many applications as names are resolved. Otherwise succeeds iff every required name resolves, and then the resolved map covers exactly the required names. On failure, the error is the not-registered error of a required name that does not resolve. Every entry is the old one or the registry's application |
| Appx.App.Install | app.go:80-116 | Installed: nil with an empty run. Installing: the circular-dependency error naming it, with an empty run. In both cases nothing at all changes: the applications, the ledger and the installed list are untouched. Every resolved requirement of every application of `U` is the application its registry has under that name, before and after (`Closed`). From Fresh or Uninstalled the run begins with this application's Begun mark and is a `Run`: only pending applications are moved, the installed set grows by exactly the applications marked Done, in dependency order, nothing twice, and each Done mark right after its own init call (`Paired`). Every init call and Done mark carries the application's own resolved requirements and init function (`Tied`). Each resolved requirement is the one already resolved or the registry's application of that name. Success iff the application ends Installed; then the run is `Complete` and ends with its Done mark, every requirement is Installed, the common middlewares are prepended and the init function's value and clean-up kept. On failure it stays Installing and the error is a not-registered or circular-dependency error, or the result of an init call of the run. The ledger gains exactly the hooks of the run's init calls and the installed list exactly its Done applications, in order. Every application of `U`, not only this one, ends with the fields the run tells from its fields before (`Shaped`): one the run has not marked Begun keeps its resolved requirements; one the run initialised or marked Done has the common middlewares prepended and, with an init function, that function's value and clean-up; every other one keeps its middlewares, value and clean-up |
| Appx.App.InstallFresh | app.go:88-116 | Install past its guards, from a Fresh or Uninstalled application: the run begins with its Begun mark, with the same run, tie, resolution, field (`Shaped`) and outcome contract |
| Appx.App.Begin | app.go:88-94 | marks the application Installing (it leaves the pending set), then resolves; on success the resolved map covers the required names, on failure the error is not-registered. Each resolved requirement is the old one or the registry's, so the run so far stays tied, every resolved requirement in `U` is still its registry's application of that name, and the fields of `U` are still those the run, now with the Begun mark, tells (`Shaped`) |
| Appx.App.MarkInstalling | app.go:88-89 | the state becomes Installing: the application leaves the pending and Uninstalled sets, and the installed set is unchanged |
| Appx.App.InstallRest | app.go:95-116 | from Installing with the requirements resolved: the events after the Begun mark are the run `R` of the requirements alone when one of them failed, and otherwise `R` (complete) followed by the application's init call, when it has an init function, and then its Done mark exactly on success. The whole run is tied, keeps the fields of `U` shaped by it, and has the same outcome contract; the resolved requirements are not changed |
| Appx.App.InstallRequired | app.go:95-99 | installs each resolved requirement in turn and stops at the first error. The run composes the requirements' runs and stays tied; on success every requirement is Installed; this application stays Installing with its resolved requirements, and the fields of `U` stay shaped by the run |
| Appx.App.InstallOne | app.go:96-98 | one round of the loop: the required application's install run extends the loop's run, which stays a tied `Run`; on success that application is Installed and the run complete, on failure the error comes from the run; the fields of `U` stay shaped by the extended run |
| Appx.App.InstallTail | app.go:101-116 | once every requirement is installed: the run is the requirements' complete run followed by the application's init call (when it has an init function) and then its Done mark exactly when it ends Installed, so the Done mark comes right after the init call. The run stays tied and the fields of `U` shaped by it. The error is exactly the init function's result (nil without one), and the application ends Installed iff that is nil |
| Appx.App.InstallSelf | app.go:101-115 | before hook, init, then (only on success) the after hook appends the application to the installed list and the state becomes Installed. Its events are the init and Done events with its own requirements and init function. A failure leaves it Installing and returns the init function's error. The fields of `U` stay shaped by the run with these events |
| Appx.App.InitStep | app.go:102-107 | the init function's hooks are appended to the ledger and its value and clean-up kept even on failure; a nil init function succeeds and changes nothing. The other applications' fields are not touched, so the fields of `U` are shaped by the run with the init call |
| Appx.App.MarkInstalled | app.go:109-114 | the after hook appends the application to the registry's installed list (no registry: no hook); the state becomes Installed, so it joins the installed set and the pending and Uninstalled sets are unchanged |
| Appx.App.Uninstall | app.go:119-132 | already Uninstalled: nothing. A failing clean-up: its error, state kept. Otherwise, with or without a clean-up function: Uninstalled. The clean-up call is recorded |
| UninstallOrder.AfterUninstallIdempotent | app.go:120-122 | a second Uninstall changes nothing more and reports the same error |
| InstallOrder.RunTrans | app.go:95-99 | the runs of consecutive required installs compose into one run: dependency order and once-only are kept |
| InstallOrder.RunFinish | app.go:101-114 | a run of the requirements followed by the application's init and Done mark is a run of the application |
| InstallOrder.RunOn | app.go:88-116 | the Begun mark of a pending application, the complete run of its requirements and its init call and Done mark form a run of the application, which installs it exactly when the Done mark is there |
| InstallOrder.RunBegun | app.go:88-98 | the Begun mark followed by a run of the requirements that stopped at a failure is still a run |
| InstallOrder.PairedLists | app.go:102-114 | in a paired run the hooks appended are those of the init functions the Done marks carry, in order, then those of a last init call not yet marked Done; the applications initialised are those marked Done with an init function, then that last one |
| InstallOrder.PairedConcat | app.go:95-99 | a complete run followed by a paired one is paired, and complete when the second is |
| InstallOrder.RunStates | app.go:81-114 | a run leaves each application Installed if it marked it Done, Installing if it only marked it Begun, and in its old state otherwise |
| InstallOrder.DoneOrdered | app.go:95-114 | read off the list of applications marked Done: each requires only applications installed before the run or marked Done before it |
| InstallOrder.DoneOnce | app.go:81-89 | no application is marked Done twice in a run: the Done list has no repeats |
| Appx.InstalledInDependencyOrder | app.go:95-114 | the applications a tied run marks Done, in the order the after hook appends them, come after every application they require unless it was installed beforehand, and none comes twice |
| Appx.TiedLists | app.go:102-111 | in a tied run the hooks the Done marks' init functions stand for are those of the init functions of the applications marked Done, in their order, and the applications marked Done with an init function are those of them that have one |
| Appx.HooksAppended | registry.go:93-99 | a tied, paired run appends to the ledger the hooks of the init functions of the applications it appends to the installed list, in that order, then those of an unfinished last init call; when there is none, the applications it initialised are exactly those appended that have an init function |
| Appx.InitializedInDependencyOrder | app.go:95-107 | when a list of applications is in dependency order, the init function of each runs after that of every application it requires that has one, unless that one was installed beforehand |
| Appx.StatesAfter | app.go:89-114 | after a run every application of `U` is in the state the run leaves it in from its state before |
| Appx.ViewsAfterRun | registry.go:100-101 | the views the rollback starts from hold the states the run left the installed applications in |
| Appx.RequiredRegistered | app.go:135-149 | in a tied run, every application marked Done has resolved each name it requires to the application its registry has under that name |
| Appx.RegisteredFirst | registry.go:81-95 | appended to the installed list in dependency order, each application a tied run marks Done comes after the applications registered under the names it requires, unless those were installed beforehand |
| Appx.NewlyInstalled | app.go:88-114 | the applications a run marks Done are exactly those that were Fresh or Uninstalled before it and are Installed after it |
| Appx.RegisteredInstalled | app.go:95-114 | after a run in dependency order, the applications registered under the names required by those it marked Done are Installed |
| Appx.MovedApps | app.go:101-114 | the applications a tied, paired run initialised or marked Done are exactly those it marked Done, plus the one whose init call ends it |
| Appx.AppendedInDependencyOrder | registry.go:81 | a list in dependency order appended to the installed list leaves every appended application after each application it requires that was not installed beforehand |
| Appx.RequiredComesFirst | registry.go:81 | in such a list, an application another one requires, and not installed beforehand, comes before it |
| Appx.NoMutualRequirement | app.go:84-85 | no two applications of such a list require each other and none requires itself: a requirement cycle not broken by earlier installs never ends Installed |
| Appx.Registry.constructor | registry.go:29-35 | nothing registered or installed, an empty ledger, options with both timeouts 15s and the no-op handler |
| Appx.Registry.Register | registry.go:38-55 | rejects nil, an empty name and a name already taken, changing nothing. Succeeds iff none of these holds, and then adds exactly the entry under the application's name and points its lookup at this registry |
| Appx.Registry.SetOptions | registry.go:65-67 | the registry takes the given options, their zero fields defaulted |
| Appx.Registry.Use | registry.go:71-76 | appends the middlewares in order; allowed only while nothing is installed |
| Appx.Registry.Before | registry.go:83-92 | the application's middlewares become the registry's followed by its own (unchanged when the registry has none) |
| Appx.Registry.After | registry.go:93-95 | appends the application to the installed list |
| Appx.Registry.Install | registry.go:82-122 | the run is tied and paired. The installed list gains exactly the run's Done applications, and the ledger's hooks gain the hooks of their init functions in installed-list order, followed on failure by those of the failing init call. The applications appended come in dependency order and once each: each comes after every application it requires unless that one was already installed, and their init functions run in dependency order too. Every application appended has resolved each name it requires to the application registered under that name, which was installed before or appended earlier. Every application of `U` ends with the fields the run tells from its fields before: the applications the run moved are exactly those appended plus, on failure, the one whose init call failed; they have the common middlewares prepended and, with an init function, its value and clean-up; applications not marked Begun keep their resolved requirements; the others keep their middlewares, value and clean-up. On success the run is complete, ends with no init call pending, the applications appended are exactly those of `U` that were Fresh or Uninstalled and end Installed (so a named application installed by this call is on the list, after the applications registered under the names it requires), the applications initialised are exactly the appended ones with an init function, every application of `U` is in the state the run leaves it in, with no names every registered application is Installed, with names every name is registered and Installed, every application registered under a name an appended application requires is Installed, and the error handler is not called. On failure the error names the application (with names: one of the names; an unregistered name carries the not-registered cause), its cause comes from the run, and the global registry is rolled back from `V`: `V` holds each application on its installed list with the state the run left it in and its own clean-up function, every such application ends as the reverse uninstall pass from `V` leaves it, and the trace gains exactly that pass's clean-up and error-handler calls |
| Appx.Registry.InstallAll | registry.go:97-105 | installs every registered application in an arbitrary order. The run is tied and paired, moves only applications of `U`, leaves every application of `U` with the fields it tells from their fields before (`Shaped`), is in dependency order overall, and the ledger and installed list gain exactly its hooks and Done applications. On success the run is complete and every registered application is Installed. The first failure rolls back the global registry from views holding the states the run left, and returns an error naming a registered application |
| Appx.Registry.InstallNames | registry.go:107-119 | installs the named applications in turn. The run is tied and paired, moves only applications of `U`, leaves every application of `U` with the fields it tells from their fields before (`Shaped`), is in dependency order overall, and the ledger and installed list gain exactly its hooks and Done applications. On success every name is registered and Installed. An unregistered name or a failed install rolls back the global registry from views holding the states the run left, and reports that name |
| Appx.Registry.InstallStep | registry.go:114 | `app.Install` with this registry's ledger and hooks: the complete run so far, extended by its run, is still a tied run whose hooks and Done applications the ledger and installed list hold; on success the application is Installed and the run complete, on failure the error comes from the run |
| Appx.Registry.InstallNext | registry.go:99-103 | one install of the loops. On success the run goes on, complete and tied, the application is Installed, no installed application is moved back, and nothing is handed to the error handler. On failure: the ledger and installed list hold the run's hooks and Done applications, the run is tied and paired in dependency order, the global registry is rolled back from views holding the states the run left, and the error names the application with a cause from the run |
| Appx.Registry.Abort | registry.go:108-113 | the lookup failure of the names loop: rolls back the global registry from the views its installed applications had, which hold the states the run left them in, and returns the install-failed error with the name and cause; the run so far is in dependency order |
| Appx.RollBack | registry.go:100-102 | uninstalls the global registry from the views `V` its installed applications had, clean-up functions included: each ends as the reverse pass from `V` leaves it (Uninstalled unless its clean-up fails), the trace gains exactly the pass's clean-up and error-handler calls, and the install-failed error with the name and cause is returned |
| Appx.Registry.Uninstall | registry.go:126-132 | the applications end as the reverse pass over the installed list leaves them, and the trace gains its clean-up and error-handler calls; no error is returned |
| Appx.Registry.UninstallAt | registry.go:127-131 | one step of the pass: uninstall one application and hand its error to the handler |
| UninstallOrder.PassFinal | registry.go:126-132 | after the pass each visited application is Uninstalled unless its clean-up failed (then unchanged); others untouched; an error does not stop the pass |
| UninstallOrder.PassIsSteps | registry.go:127-131 | with distinct applications the pass performs each one's step, last installed first |
| UninstallOrder.PassLeavesUninstalled | registry.go:126-132 | after a full pass every installed application is Uninstalled unless its clean-up fails |
| UninstallOrder.ThreeAppUninstall | registry.go:126-132 | X, Y, Z installed in order with only Y's clean-up failing: cleans Z, then Y, hands Y's error to the handler, then still cleans X |
| Appx.Registry.GetApp | registry.go:134-141 | succeeds iff the name is registered, with its application; otherwise nil and the not-registered error for that name |
| Appx.Registry.Start | registry.go:180-187 | when an OnStart fails: its error, after a rollback Stop of the hooks started, whose errors go to the handler in order, cursor 0. Otherwise nil with every OnStart invoked in order and nothing handled |
| Appx.Registry.Stop | registry.go:189-194 | the ledger's Stop, with each of its errors handed to the error handler in order; cursor 0 |
| Appx.HandledAll | registry.go:190-192 | one error-handler call per error, in order |
| Appx.Options.Init | registry.go:236-247 | a zero start or stop timeout becomes 15s, a nil handler the no-op one; other values are kept; afterwards no field is left zero |
| Appx.FailureAsWritten | registry.go:112 | the error built from the application getApp returned; a nil application panics (None) |
| Appx.Registry.UnregisteredNamePanics | registry.go:107-113 | for every unregistered name, the lookup fails with a nil application and the error as written panics |

## Left out

- `withTimeout` and the exported `Start(ctx)` and `Stop(ctx)` wrappers (registry.go:169-178, 209-219): a goroutine racing a deadline. The model's `Registry.Start` and `Registry.Stop` are the unexported `start` and `stop`. Timeouts and abandonment are concurrency.
- `Run` (registry.go:149-165): signal handling and blocking.
- `Graph` (registry.go:201-207): it needs `App.Requirements`, which is not defined in the files shown.
- `MustRegister` (registry.go:58-62): a panic wrapper over `Register`.
- Appx.Registry.Register: does not model the `getConfigFunc` assignment (registry.go:53), which only passes configuration through and refers to a field `App` does not declare.
- The deprecated `Init` adapter (app.go:66-71): a wrapper over `Init2`.
- globalregistry.go is not part of this model. The package-level registry that rollback acts on is the `global` parameter.
- config.go is not part of this model. Its defaulting duplicates `Options.init`.
- `context.Context`, and what callbacks, middlewares and the error handler do besides returning. Callbacks are values with a fixed outcome, so a callback returns the same result every time it is invoked. Middlewares and handlers are identities. The handler's calls are recorded as trace events.
- `Options.AppConfigs`: configuration pass-through.
- Appx.Registry.Install: states which applications end Installed and that only Fresh or Uninstalled ones are moved. It does not state that with names only the named applications and their transitive requirements are installed (the run's Done marks are bounded by the reachable set `U`, not by the requirement closure).
- Appx.Registry.Start: requires that a failed Start leaves the cursor within the hooks. Otherwise the source's rollback Stop indexes out of range.
- Appx.App.constructor: keeps `name` as a constant, while Go's exported `App.Name` (app.go:31) could be reassigned after registration; the source never does so, and the registry is keyed by the name given at registration.
- Appx.Registry.Start, Appx.Registry.Stop, Appx.Registry.Uninstall, Appx.Registry.Install: require an error handler, which `NewRegistry` and `SetOptions` always set (registry.go:29-35, 65-67, 243-245); a zero-value `Registry` would call a nil handler.
- Appx.Registry.Install: on failure it does not state the states of applications outside the global registry's installed list; the failed run leaves the applications it marked Begun but not Done Installing.
- Appx.Registry.Install: requires the global registry's installed applications to lie in `U`, the ghost set of applications the run can reach. Without it the rollback's frame could not be stated.
- Appx.App.Install: on failure, a not-registered or circular-dependency error is not tied to the name that caused it, and the run does not record which lookup failed.
- Appx.App.Install: requires `Closed(U)`, under which every requirement an application of `U` has already resolved is the application its current registry has under that name. An application that resolved its requirements in one registry and was then registered into another (registry.go:52 repoints its lookup) falls outside the model.
- Appx.App.Install: the before and after hooks are those of the registry passed (or none). Arbitrary hook functions are not modelled.
- The two loops of registry.go:97-119 are an if/else in the model. The names loop does nothing when no names are given, so the behaviour is the same.

## Findings

| source | as written | input that shows it | evidently intended | confidence | as-written member | corrected member |
|---|---|---|---|---|---|---|
| registry.go:112 | after the rollback, the failure is built from `app.Name`, but `app` is the nil that `getApp` returned with its error | `Install(ctx, "x")` on a registry where `x` is not registered | report the name looked up, with the not-registered cause | high, not executed | Appx.Registry.UnregisteredNamePanics | Appx.Registry.InstallNames |
