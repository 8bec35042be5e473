# Auto-destroy control panel for an on-demand game server

The admin panel keeps one cloud-hosted game server alive only while people
play on it. It creates the server from the newest snapshot image labelled
`active`. A monitor timer checks the game for players every ten minutes. If
nobody is online, or the game does not answer, it starts a teardown timer.
That timer fires every twenty minutes: it shuts the server down, snapshots
it with its type, datacenter and the `active` label, and deletes it. An
operator can switch the monitoring off and on, and a status page shows the
server and the two timers.

This project models that core in Dafny and proves its rules.

- `wrappers.dfy`, module `Wrappers`: `Option` and `Result`.
- `cloud.dfy`, module `Cloud`: the provider's control plane as an in-memory
  store. It holds images (an id, which also gives creation order, and
  labels), the one managed server, and a log of the calls made to it. The
  class `Provider` has the API calls the panel makes as methods.
  `Listing` is the "active images, newest first" query.
- `host.dfy`, module `Host`: `GetHostStatus`, the `(status, ip)` projection.
  It also has `PyValue`, a small model of Python values, used to state what
  the comparison in the monitor tick really does.
- `scheduler.dfy`, module `Scheduler`: the state machine. `SchedulerState`
  holds the two flags (`monitoringEnabled`, `teardownArmed`). Pure step
  functions (`Tick`, `Toggle`, `DestroyCompleted`, `StartUp`) and the
  `Step`/`Run`/`Launches` functions over event sequences sit beside them.
  The classes `Timer` (a periodic callback) and `AutoDestroy` (the two
  module-level callbacks) have one method per event. Each method's
  postcondition ties the new state to the matching step function.
- `lifecycle.dfy`, module `Lifecycle`: `create()` and `destroy()`.
  `CreateSpec` and `DestroySpec` say what each does to the provider state.
  The methods `Create`, `DeleteEach` and `Destroy` make the provider calls
  one at a time and are proved against those functions. The label round
  trip between the two is proved here.
- `status_page.dfy`, module `StatusPage`: which view `MainHandler.get`
  renders.

The model follows the code as written, including in these places a reader
may not expect:

- The teardown timer is periodic, not one-shot. Besides a tick that sees
  players and the operator's toggle, it is stopped only by a destroy that
  reaches its last line (`admin/app.py:75`). A destroy that fails part way
  leaves it armed, and it fires again every twenty minutes.
- When the game query fails and the server is gone, the code still arms
  teardown. This is the guard at `admin/app.py:99`; see Findings.
- If the host lookup itself raises during a tick, the exception leaves
  `idle()` before any timer is touched. The code gets the "do not arm" rule
  this way, not through a handler.
- The status page catches only `OSError` from the game query. Any other
  exception becomes a server error, not the degraded view.

Inputs that the real system gets from I/O are parameters here. The game
status query is the tick's `Observation` and the page's `GameQuery`. The
host lookup done during a failed tick is the observation's `Lookup`. The
new server's IPv4 address is a parameter of `Create`.

Each event is assumed to happen only when its timer could fire. So
`AutoDestroy.Idle` requires the monitor to be running: a stopped periodic
callback does not fire. `Timer.Start` requires a stopped timer. The panel
only ever starts a stopped callback, and the verifier checks this at every
call site. That is why an armed countdown is never restarted.

## Model

| member | source | states |
|---|---|---|
| `Cloud.Listing` | admin/app.py:30-32 | definition of the "active images, newest first" listing; its properties are in `Cloud.ListingMembers`, `Cloud.ListingHeadIsNewest`, `Cloud.ListingNewestFirst`, `Cloud.ListingIds` and `Cloud.ListingOfInactive` |
| `Cloud.ListingNewestFirst` | admin/app.py:30-32 | on a store kept in creation order, the listed ids strictly decrease: the listing is sorted newest first |
| `Cloud.RemoveIds` | admin/app.py:48-50 | definition of the store after deleting a set of ids; its properties are in `Cloud.RemoveIdsMembers`, `Cloud.RemoveIdsKeepsOrder`, `Cloud.RemoveIdsIsIdentity` and `Cloud.RemoveIdsUnion` |
| `Cloud.ListingMembers` | admin/app.py:30-32 | the active-image listing holds exactly the images that carry the `active` label |
| `Cloud.ListingHeadIsNewest` | admin/app.py:30-32 | on a store kept in creation order, the first listed image is active and at least as new as every active image |
| `Cloud.ListingIds` | admin/app.py:30-32 | an image's id is among the listed ids exactly when the image is active |
| `Cloud.ListingOfInactive` | admin/app.py:30-32 | a store without active images lists nothing |
| `Cloud.RemoveIdsMembers` | admin/app.py:48-50 | deleting a set of ids keeps exactly the images whose id is not in it |
| `Cloud.RemoveIdsKeepsOrder` | admin/app.py:48-50 | deleting images keeps the remaining store in creation order |
| `Cloud.RemoveIdsUnion` | admin/app.py:48-50 | deleting one set of ids and then another is the same as deleting their union |
| `Cloud.Provider.ListActive` | admin/app.py:30-32 | the listing call returns `Listing` of the store (the active images, newest first by `Cloud.ListingNewestFirst`) and changes nothing |
| `Cloud.Provider.GetServer` | admin/app.py:56 | the lookup returns the managed server, or none |
| `Cloud.Provider.CreateServer` | admin/app.py:35-46 | a server is created, running, with the given type, datacenter and address exactly when none exists; otherwise nothing changes |
| `Cloud.Provider.DeleteImage` | admin/app.py:48 | the image with that id leaves the store and the deletion is logged; nothing else changes |
| `Cloud.Provider.Shutdown` | admin/app.py:59 | the server is switched off and the shutdown is logged |
| `Cloud.Provider.CreateImage` | admin/app.py:62-69 | one image with the given labels and the next id is appended, and the id counter advances |
| `Cloud.Provider.DeleteServer` | admin/app.py:72 | the server is gone and the deletion is logged |
| `Host.GetHostStatus` | admin/app.py:78-82 | the result is `("destroyed", None)` exactly when no server exists; otherwise it is the server's status and IPv4 address |
| `Host.AsPython` | admin/app.py:78-82 | the projection's value at run time is a pair (a Python tuple) |
| `Host.TupleIsNeverAString` | admin/app.py:98-99 | the tuple the projection returns is never equal to a string, so the comparison at line 99 cannot fail |
| `Scheduler.StartUp` | admin/app.py:187 | definition of process start; its properties are in `Scheduler.BootState` and `Scheduler.StepsKeepInv` |
| `Scheduler.Tick` | admin/app.py:85-100 | definition of one monitor tick as written; its properties are in `Scheduler.TickWithPlayersDisarms`, `Scheduler.TickWithoutPlayersArms`, `Scheduler.FailedQueryArmsWithoutServer`, `Scheduler.FailedLookupChangesNothing`, `Scheduler.TickKeepsMonitoring`, `Scheduler.TickIdempotent` and `Scheduler.StepsKeepInv` |
| `Scheduler.TickIntended` | admin/app.py:99 | definition of the tick with the status-string comparison evidently intended at line 99; its properties are in `Scheduler.TickIntendedSparesAbsentServer`, `Scheduler.TickKeepsMonitoring` and `Scheduler.StepsKeepInv` |
| `Scheduler.Toggle` | admin/app.py:161-168 | definition of the operator's toggle; its properties are in `Scheduler.ToggleRules`, `Scheduler.ToggleTwice` and `Scheduler.StepsKeepInv` |
| `Scheduler.DestroyCompleted` | admin/app.py:75 | definition of the end of a destroy that got that far; its properties are in `Scheduler.StepsKeepInv` |
| `Scheduler.Step` | admin/app.py:85-107 | definition of one event: a tick only while the monitor runs, a teardown firing or manual destroy that only launches a destroy, a successful destroy that stops teardown; its properties are in `Scheduler.RunKeepsInv` and `Scheduler.NoArmingNoLaunch` |
| `Scheduler.Run` | admin/app.py:85-107 | definition of the state after a sequence of events; its properties are in `Scheduler.RunKeepsInv`, `Scheduler.NoArmingNoLaunch`, `Scheduler.PlayersPreventTeardown` and `Scheduler.TeardownRepeatsWhileDestroyFails` |
| `Scheduler.Launches` | admin/app.py:104-107 | definition of the number of destroys the teardown callback launches over a sequence of events; its properties are in `Scheduler.NoArmingNoLaunch`, `Scheduler.TeardownRepeatsWhileDestroyFails`, `Scheduler.IdleServerIsTornDown` and `Scheduler.AbsentServerStillArms` |
| `Scheduler.BootState` | admin/app.py:103-187 | at process start only the monitor runs, which satisfies the invariant "armed implies monitoring" |
| `Scheduler.TickWithPlayersDisarms` | admin/app.py:89-90 | a tick that sees players leaves teardown stopped, whatever the prior state, and does not touch the monitor |
| `Scheduler.TickWithoutPlayersArms` | admin/app.py:91-95 | a tick that sees no players leaves teardown armed; if it was already armed, nothing changes |
| `Scheduler.FailedQueryArmsWithoutServer` | admin/app.py:96-100 | as written, a tick whose query fails arms teardown whatever the host lookup found, a missing server included |
| `Scheduler.FailedLookupChangesNothing` | admin/app.py:96-98 | a tick whose host lookup raises changes neither timer |
| `Scheduler.TickKeepsMonitoring` | admin/app.py:85-100 | no tick starts or stops the monitor |
| `Scheduler.TickIdempotent` | admin/app.py:85-100 | observing the same thing twice in a row changes nothing the second time |
| `Scheduler.TickIntendedSparesAbsentServer` | admin/app.py:99 | with the intended string comparison, a failed query never arms teardown for a missing server, and does arm it for an existing one |
| `Scheduler.ToggleRules` | admin/app.py:161-168 | toggling with the monitor on stops both timers; with it off, it starts only the monitor and teardown stays stopped |
| `Scheduler.ToggleTwice` | admin/app.py:161-168 | toggling twice comes back to the same monitoring setting with teardown stopped |
| `Scheduler.StepsKeepInv` | admin/app.py:75-187 | "armed implies monitoring" is kept by every tick of a running monitor, by the toggle, by destroy completion and by start-up |
| `Scheduler.RunKeepsInv` | admin/app.py:85-107 | "armed implies monitoring" holds after any sequence of events |
| `Scheduler.NoArmingNoLaunch` | admin/app.py:85-107 | with teardown stopped and no event that could arm it, teardown stays stopped and launches no destroy |
| `Scheduler.PlayersPreventTeardown` | admin/app.py:89-90 | after a tick that sees players, no destroy is launched until a later tick arms teardown again |
| `Scheduler.TeardownRepeatsWhileDestroyFails` | admin/app.py:104-107 | while destroys fail, teardown stays armed and launches one destroy on every firing |
| `Scheduler.OrphanRounds` | admin/app.py:96-107 | definition of teardown periods with the server gone: two failed-query ticks (the teardown's period is twice the monitor's), a teardown firing and its failed destroy; its properties are in `Scheduler.OrphanRoundsKeepTeardown` and `Lifecycle.OrphanedTeardown` |
| `Scheduler.OrphanRoundsKeepTeardown` | admin/app.py:96-107 | with the server gone and teardown armed, any number of such periods leaves both timers as they were and launches exactly one destroy per period |
| `Scheduler.IdleServerIsTornDown` | admin/app.py:91-95 | after start-up, two ticks without players and one teardown firing launch exactly one destroy |
| `Scheduler.AbsentServerStillArms` | admin/app.py:96-100 | as written, a failed query with no server arms teardown, which then launches a destroy |
| `Scheduler.Timer.constructor` | admin/app.py:103-107 | a new periodic callback has the given period and is not running |
| `Scheduler.Timer.Start` | admin/app.py:95 | starting a stopped callback makes it run |
| `Scheduler.Timer.Stop` | admin/app.py:90 | stopping makes the callback stop, whether it ran or not |
| `Scheduler.AutoDestroy.constructor` | admin/app.py:103-107 | two distinct callbacks, the teardown's period twice the monitor's, neither running |
| `Scheduler.AutoDestroy.Boot` | admin/app.py:187 | start-up starts the monitor only |
| `Scheduler.AutoDestroy.Idle` | admin/app.py:85-100 | the monitor callback changes the timers as `Tick` says and keeps the invariant |
| `Scheduler.AutoDestroy.ToggleAutoDestroy` | admin/app.py:161-168 | the toggle handler changes the timers as `Toggle` says and keeps the invariant |
| `Scheduler.AutoDestroy.DestroyDone` | admin/app.py:75 | the end of a destroy stops teardown and leaves the monitor as it was |
| `Scheduler.StartPanel` | admin/app.py:23-187 | the process creates both callbacks with the ten-minute interval (twenty for teardown) and starts only the monitor, in a state that keeps the invariant |
| `Lifecycle.SnapshotLabels` | admin/app.py:63-67 | definition of the labels a snapshot is given; its properties are in `Lifecycle.DestroySnapshots` and `Lifecycle.DestroyThenCreate` |
| `Lifecycle.CreateSpec` | admin/app.py:29-50 | definition of what create does to the provider state, checks in the source's order; its properties are in `Lifecycle.CreateErrors`, `Lifecycle.CreateUsesNewest`, `Lifecycle.CreateConsumesActive` and `Lifecycle.DestroyThenCreate`, and `Lifecycle.Create` is proved against it |
| `Lifecycle.DestroySpec` | admin/app.py:55-72 | definition of what destroy does to the provider state; its properties are in `Lifecycle.DestroySnapshots` and `Lifecycle.DestroyThenCreate`, and `Lifecycle.Destroy` is proved against it |
| `Lifecycle.CreateErrors` | admin/app.py:29-41 | create fails for lack of an image exactly when no image is active; it always fails while a server exists |
| `Lifecycle.CreateUsesNewest` | admin/app.py:30-41 | a successful create starts a running server whose type and datacenter are the labels of the newest active image |
| `Lifecycle.CreateConsumesActive` | admin/app.py:47-50 | after a successful create no active image remains, every other image does, and the store stays in order |
| `Lifecycle.CreateSucceeds` | admin/app.py:47-50 | deleting the chosen image and then the rest of the listing gives the state the create specification describes |
| `Lifecycle.DestroySnapshots` | admin/app.py:55-72 | destroy fails exactly when there is no server; otherwise it adds one image, newer than all others, whose labels are exactly the server's type, its datacenter and `active`, and then removes the server, after a shutdown, the snapshot and the deletion, in that order |
| `Lifecycle.DestroyThenCreate` | admin/app.py:29-72 | destroying a server and then creating it again gives a server of the same type in the same datacenter, with no active image left |
| `Lifecycle.Create` | admin/app.py:29-52 | the create workflow leaves the provider exactly as the create specification says, or unchanged with the specified error |
| `Lifecycle.DeleteEach` | admin/app.py:49-50 | deleting each listed image removes exactly their ids and logs one deletion per image, in order |
| `Lifecycle.DeletePrefixStep` | admin/app.py:49-50 | deleting the next image of a list extends the deleted prefix, and its log, by that one image |
| `Lifecycle.Destroy` | admin/app.py:55-75 | the destroy workflow leaves the provider as the destroy specification says and then stops teardown; on error, both the provider and the timers are unchanged |
| `Lifecycle.OrphanedTeardown` | admin/app.py:55-107 | with no server, a failed query still arms teardown; every destroy it launches fails, and the two failed ticks of each period leave it armed, so over any number of teardown periods it stays armed and launches one destroy per period |
| `StatusPage.OfflinePage` | admin/app.py:115-135 | definition of the offline view; its properties are in `StatusPage.View`, `StatusPage.NotRunningIgnoresQuery` and `StatusPage.MissingServerIsOffline` |
| `StatusPage.View` | admin/app.py:111-146 | the online view is shown exactly when the host is running and the query answered. Offline views are never idle and show no address. `auto_destroy` is always the monitor flag. The online `is_idle` is the teardown flag. A query exception other than `OSError` gives a server error |
| `StatusPage.NotRunningIgnoresQuery` | admin/app.py:114-123 | when the host is not running, the page is the offline view whatever the query would give |
| `StatusPage.MissingServerIsOffline` | admin/app.py:78-82 | a missing server is shown offline with status "destroyed" |
| `StatusPage.OnlineShowsAddress` | admin/app.py:138-146 | the online view implies a running server, and it shows that server's IPv4 address |

## Left out

- The provider's waits and polling (`wait_until_finished`, `poll_interval`) are left out. Every provider call is modelled as finishing before the next one starts.
- An SSH key lookup (`admin/app.py:33`) finds the key passed to the new server. It is not modelled, because it does not affect the images or the timers.
- The provider holds other servers, and it can fail in other ways (network errors, a missing image on delete). None of this is modelled. The only provider refusal in the model is a second server with a taken name.
- A create or destroy can fail part way and leave the provider half way through. The model does not capture this. In the event traces, a failed destroy is `DestroyFinished(false)`: it leaves the timers as they were.
- The game status network query is not modelled. It becomes the tick's `Observation` and the page's `GameQuery`.
- Tornado routing, redirects, template rendering, `listen` and the create/destroy request handlers are left out, because they are HTTP plumbing. The page is reduced to the values passed to the template. The game status object is reduced to its player count.
- Background execution (`run_in_executor`) is left out, and so is `destroy_callback.stop()` being called from a worker thread. So is a manual destroy racing a scheduled teardown. Each destroy is one atomic event.
- Wall-clock time is not modelled. The model keeps only the integer relation "teardown period = 2 × monitor period" and the ten-minute interval in milliseconds, which `Scheduler.StartPanel` uses. The debug interval of 0.2 minutes, a float, is left out.
- Environment configuration and `print` logging are left out.
- `Scheduler.Timer.Start`: it is weaker than tornado's `PeriodicCallback.start`, which on a running callback would schedule a second chain of calls. Instead the model requires a stopped timer. The verifier proves that the panel never starts a running timer.
- `Scheduler.AutoDestroy.Idle`: it requires the monitor to be running, because a stopped periodic callback is never invoked.

## Findings

| source | as written | input that shows it | evidently intended | confidence | as-written member | corrected member |
|---|---|---|---|---|---|---|
| admin/app.py:98-99 | `status` is the `(status, ip)` tuple from `get_host_status()`, so `status != "destroyed"` is always true and the guard never stops teardown from arming | monitor on, teardown stopped, the game query fails, and no server exists: teardown is armed, and each destroy it launches then fails at `server.shutdown()`, so teardown fires for ever | compare the status string, so that a missing server never arms teardown | high; not executed | `Scheduler.FailedQueryArmsWithoutServer` | `Scheduler.TickIntendedSparesAbsentServer` |

The as-written tick is `Scheduler.Tick`; `Scheduler.AbsentServerStillArms`
and `Lifecycle.OrphanedTeardown` show where it leads. The corrected tick is
`Scheduler.TickIntended`, and `Scheduler.StepsKeepInv` shows that it keeps
the invariant too. The `AutoDestroy` class follows the code as written,
because it models the running system.
