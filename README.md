# ghostpipe alarm core in Dafny

This project models the alarm core of ghostpipe, a simulator of a small IT
estate. The estate has servers, databases, backends, frontends and DNS
servers. Each one carries alarm flags (`Enabled`, `Triggered`, `ACK`). A
periodic check acknowledges each triggered flag and reports it once to a
monitoring system. The monitoring system records one event per report and
gives every `server + alarm` key a stable random id.

Some alarms are derived from a dependency:
- A backend's `DBConnection` follows its database's availability and the
  `DNS` flag pushed into it by a DNS server.
- A frontend's `BackendConnection` follows its backend's availability.

The model has these parts:

- `Alarms` (alarms.dfy): the pure rules. It defines the statuses, the flag
  record of a base server, and what one check does to a locally owned flag
  (`Observe`, `Emit`). It also defines the base server's check (`CheckBase`,
  `BaseReports`), the derived-alarm rule of frontends (`DerivedConn`), and
  the backend's `DBConnection` rule as written (`ConnCheck`) and as
  intended (`IntendedConnCheck`).
- `Monitoring` (monitoring.dfy): class `Sink` holds the id table, the set of
  used ids and the event list, with `GenerateEventID` and `HandleAlarm`.
  `Extends` says a sink has only grown since an earlier snapshot: events
  appended, stored ids kept, a bounded number of new ids drawn. Every
  entity check promises it.
- `Servers`, `Databases`, `Backends`, `Frontends`, `Dns`: one class per
  entity.
  - Fields are updated in place.
  - Go embedding becomes a `const base: Server` field.
  - Each `CheckAlarms` method is proved against the pure rules: its new
    flags and the events it appends are stated as functions of the old
    state.
- `Topology` (architecture.dfy): class `Architecture` is the registry. It
  builds and registers entities and produces the node and edge lists of the
  exported dependency graph.
- `Cascades`: the scenarios of the repository's tests. Each one builds
  entities on a fresh monitoring system, injects faults by writing flags,
  runs checks in a given order, and states the exact event sequence. The
  same module holds the scenarios behind the findings below.

## Model

| member | source | states |
|---|---|---|
| Alarms.Observe | server.go:52-55 | a check leaves no owned flag triggered: triggered becomes ACK, Enabled and ACK stay as they are |
| Alarms.Emit | server.go:52-55 | checking one flag reports at most one event, exactly when the flag was triggered, and it names that server and kind |
| Alarms.CheckBase | server.go:51-71 | after a base check, CPU, Memory, Disk and Ping are each observed, and the DNS flag is untouched |
| Alarms.BaseReports | server.go:51-71 | a base check reports at most four events, all for this server at this time, and none at all exactly when no checked flag was triggered |
| Alarms.BaseReportsExactlyOnce | server.go:51-71 | each triggered base flag is reported exactly once per check; an untriggered one is never reported |
| Alarms.BaseReportsInCheckOrder | server.go:51-71 | the events of one base check come in the order CPU, Memory, Disk, Ping |
| Alarms.SecondBaseCheckIsSilent | server.go:51-71 | with no outside change, a second base check reports nothing and changes nothing |
| Alarms.SetFlag | dns.go:59-65 | forcing one flag sets exactly that flag and leaves every other flag unchanged |
| Alarms.KindNamed | backend.go:82-91 | every name accepted by the base server's SetAlarm maps back to its kind |
| Alarms.DerivedConn | frontend.go:39-46 | an available dependency re-enables the derived alarm silently; an unavailable one reports only when the alarm was Enabled (it becomes ACK), otherwise leaves it |
| Alarms.DerivedReportsOnlyOnEdge | frontend.go:39-46 | a derived alarm reported at one check implies the dependency was available at the check before |
| Alarms.ConnCheck | backend.go:51-71 | DBConnection as written, with its new status and remembered DNS bit fixed in every case: reported iff (database up and DNS triggered) or (database down and alarm Enabled); database up with DNS triggered gives ACK and clears the bit; database up with DNS Enabled gives Enabled silently and keeps the bit; database down with the alarm Enabled gives ACK; a Triggered alarm against a down database stays as it is; with the database down and DNS Enabled the bit is set and the alarm ends Enabled when the bit was clear (the reset at lines 67-71), ACK otherwise |
| Alarms.StillDownDatabaseReportedTwice | backend.go:51-71 | from the constructor's state, a database that stays down is reported on the first two checks |
| Alarms.DnsOutageReportedEveryCheck | backend.go:51-66 | while DNS stays triggered and the database is up, two consecutive checks both report DBConnection |
| Alarms.IntendedConnCheck | backend.go:49-71 | intended DBConnection: reported iff the connection is down (database down or DNS not Enabled) and the alarm was Enabled |
| Alarms.IntendedReportsOncePerOutage | backend.go:60-71 | under the intended rule, a second check within the same outage reports nothing |
| Alarms.IntendedRecoveryRearms | backend.go:67-71 | under the intended rule, a check with the connection up re-arms the alarm, so the next outage is reported |
| Monitoring.FreeIdExists | monitoring.go:40-46 | while fewer than 1000000 ids are used, the drawing loop has an unused id in [0, 1000000) to find |
| Monitoring.EventIdsMatchKeys | monitoring.go:35-45 | in a consistent sink, two events carry the same id iff their `server + alarm` keys are equal |
| Monitoring.ReportedKeysUnambiguous | monitoring.go:35-44 | for the kinds the system reports, equal concatenated keys imply the same server and the same kind |
| Monitoring.ConcatenatedKeysShareId | monitoring.go:35-44 | keys are plain concatenations, so ("ab", "c") and ("a", "bc") get one id |
| Monitoring.FreshSinkIds | monitoring.go:23-47 | on a fresh sink, ids are in range, repeated keys get the same id, and two keys share an id iff they are equal |
| Monitoring.AppendedPrefix | monitoring.go:57 | a sink whose events were only appended to keeps every earlier event, id included, at its position |
| Monitoring.AppendedTrans | monitoring.go:57 | appending after appending is appending |
| Monitoring.GrownTrans | monitoring.go:23-58 | two runs that each only grow the sink make one that only grows it, with the new ids added up |
| Monitoring.Sink.constructor | monitoring.go:16-21 | a new sink is consistent, with no events, ids or keys |
| Monitoring.Sink.GenerateEventID | monitoring.go:23-47 | a known key returns its id and changes nothing; a new key gets an id in range not used before, and exactly that key and id are added |
| Monitoring.Sink.HandleAlarm | monitoring.go:50-58 | appends exactly one event with the key's id; the id table changes at most at that key, and not at all when the key is known (then no room for a new id is needed); earlier events are kept; consistency is preserved |
| Servers.Server.constructor | server.go:11-20 | a new server has its name and sink and every flag Enabled |
| Servers.Server.GetAlarms | architecture_test.go:42-69 | a base server lists CPU, Memory, Disk, Ping in check order |
| Servers.Server.Available | server.go:74-76 | available iff Ping is neither triggered nor acknowledged |
| Servers.Server.SetAlarm | dns.go:45-47 | forcing a named flag sets exactly that flag |
| Servers.Server.CheckAndReport | server.go:52-55 | one base block: the flag is observed and its event, if any, appended; the sink only grows (`Extends`): events are appended, every stored id is kept, and at most 1 new id is drawn |
| Servers.Server.CheckAlarms | server.go:51-71 | the new flags are `CheckBase` of the old ones and the sink gains exactly `BaseReports`; the sink only grows (`Extends`): events are appended, every stored id is kept, and at most 4 new ids are drawn |
| Databases.Database.constructor | database.go:10-17 | a new database has every flag and its engine Enabled |
| Databases.Database.Available | database.go:36-38 | available iff the server answers Ping and the engine is neither triggered nor acknowledged |
| Databases.Database.CheckEngine | database.go:26-29 | DBEngine is observed and reported once if triggered; the sink only grows (`Extends`): events are appended, every stored id is kept, and at most 1 new id is drawn |
| Databases.Database.CheckAlarms | database.go:25-32 | DBEngine is observed and reported first, then the base check; the sink only grows (`Extends`): events are appended, every stored id is kept, and at most 5 new ids are drawn |
| Backends.Backend.constructor | backend.go:17-25 | a new backend has every flag Enabled and remembers DNS as unavailable |
| Backends.Backend.GetAlarms | backend.go:31-34 | the base kinds followed by Proc and DBConnection, all accepted by SetAlarm |
| Backends.Backend.Available | backend.go:78-80 | available iff the server answers Ping and Proc is Enabled; the database is not consulted |
| Backends.Backend.SetAlarm | backend.go:82-91 | Proc and DBConnection set the backend's own flags; any other name goes to the base server; nothing else changes |
| Backends.Backend.CheckProc | backend.go:44-47 | Proc is observed and reported once if triggered; the sink only grows (`Extends`): events are appended, every stored id is kept, and at most 1 new id is drawn |
| Backends.Backend.CheckConnection | backend.go:51-71 | DBConnection, the remembered DNS bit and the appended event follow `ConnCheck`; the sink only grows (`Extends`): events are appended, every stored id is kept, and at most 1 new id is drawn |
| Backends.Backend.CheckAlarms | backend.go:43-74 | events are Proc, then DBConnection, then the base events; flags follow `Observe`, `ConnCheck` and `CheckBase`; the sink only grows (`Extends`): events are appended, every stored id is kept, and at most 6 new ids are drawn |
| Backends.Backend.CheckConnectionIntended | backend.go:49-71 | the corrected DBConnection block follows `IntendedConnCheck`; the sink only grows (`Extends`): events are appended, every stored id is kept, and at most 1 new id is drawn |
| Backends.Backend.CheckAlarmsIntended | backend.go:43-74 | a full check with the corrected DBConnection block; the sink only grows (`Extends`): events are appended, every stored id is kept, and at most 6 new ids are drawn |
| Frontends.Frontend.constructor | frontend.go:14-22 | a new frontend has every flag Enabled and its backend set |
| Frontends.Frontend.Available | frontend.go:53-55 | available iff the server answers Ping and Proc is Enabled |
| Frontends.Frontend.CheckProc | frontend.go:32-35 | Proc is observed and reported once if triggered; the sink only grows (`Extends`): events are appended, every stored id is kept, and at most 1 new id is drawn |
| Frontends.Frontend.CheckConnection | frontend.go:39-46 | BackendConnection and its event follow `DerivedConn` on the backend's availability; the sink only grows (`Extends`): events are appended, every stored id is kept, and at most 1 new id is drawn |
| Frontends.Frontend.CheckAlarms | frontend.go:31-49 | events are Proc, then BackendConnection, then the base events; the sink only grows (`Extends`): events are appended, every stored id is kept, and at most 6 new ids are drawn |
| Dns.Pushed | dns.go:45-47 | the push sets a client's DNS flag to triggered and no other flag |
| Dns.DNS.constructor | dns.go:11-18 | a new DNS server has no clients and every flag Enabled |
| Dns.DNS.AddClient | dns.go:21-23 | the client is appended after the existing ones |
| Dns.DNS.GetAlarms | dns.go:29-32 | the base kinds followed by Proc, all accepted by SetAlarm |
| Dns.DNS.Available | dns.go:55-57 | available iff the server answers Ping and Proc is Enabled |
| Dns.DNS.SetAlarm | dns.go:59-65 | Proc sets the DNS server's own flag; any other name goes to the base server |
| Dns.DNS.PushToClients | dns.go:45-47 | every client's flags become `Pushed` of their old value |
| Dns.DNS.CheckProc | dns.go:41-48 | a triggered Proc is acknowledged, reported once and pushed to every client; otherwise nothing changes; the sink only grows (`Extends`): events are appended, every stored id is kept, and at most 1 new id is drawn |
| Dns.DNS.CheckAlarms | dns.go:40-51 | events are Proc, then the base events; clients are pushed iff Proc was triggered; the sink only grows (`Extends`): events are appended, every stored id is kept, and at most 5 new ids are drawn |
| Topology.NodeList | architecture.go:126-156 | one node per database, then backend, then frontend, in registration order, with id, value and name set to the entity's name |
| Topology.EdgeList | architecture.go:158-176 | one edge per backend to its database, then one per frontend to its backend, in registration order |
| Topology.EdgesWithinNodes | architecture.go:126-176 | when every dependency is registered, both ends of every edge are node ids |
| Topology.Architecture.constructor | architecture.go:11-23 | a new registry is empty and shares the given sink |
| Topology.Architecture.AddDB | architecture.go:111-113 | appends the database |
| Topology.Architecture.AddBackend | architecture.go:115-117 | appends the backend |
| Topology.Architecture.AddFrontend | architecture.go:119-121 | appends the frontend |
| Topology.Architecture.NewDatabase | architecture.go:93-97 | builds a fresh database on the shared sink and appends it |
| Topology.Architecture.NewBackend | architecture.go:99-103 | builds a fresh backend on the shared sink, depending on the given database, with every flag Enabled and DNS remembered as unavailable (backend.go:17-25), and appends it |
| Topology.Architecture.NewFrontend | architecture.go:105-109 | builds a fresh frontend on the shared sink, depending on the given backend, and appends it |
| Topology.Architecture.AppendNodes | architecture.go:128-136 | the append loop adds one node per entity name, in order |
| Topology.Architecture.GraphNodes | architecture.go:126-156 | the node list built by the three loops is `NodeList` |
| Topology.Architecture.GraphEdges | architecture.go:158-176 | the edge list built by the two loops is `EdgeList` |
| Topology.Architecture.Graph | architecture.go:125-193 | the graph's nodes and edges are `NodeList` and `EdgeList` |
| Cascades.BuildPair | backend_test.go:11-13 | a fresh sink, database and backend as their constructors leave them |
| Cascades.BuildChain | frontend_test.go:10-14 | the pair plus a frontend on the backend |
| Cascades.QuietPair | backend_test.go:19-24 | checking a fresh pair reports nothing |
| Cascades.DBDownAffectsBackend | backend_test.go:10-36 | quiet, then [db Ping], then [db Ping, backend DBConnection] |
| Cascades.DatabasePingOnly | backend_test.go:26-31 | a fresh database reports nothing; with Ping triggered it reports exactly Ping |
| Cascades.BuildBackends | backend_test.go:43-48 | one fresh, distinct backend per name, all on the same database |
| Cascades.CheckUntouchedBackend | backend_test.go:34-35 | a fresh backend checked against a down database appends exactly its DBConnection event |
| Cascades.CheckNextBackend | backend_test.go:55-57 | one step of the loop over the backends: one DBConnection event; later backends untouched |
| Cascades.CheckBackendsAgainstDownDatabase | backend_test.go:54-57 | checking the backends in order appends their DBConnection events in order |
| Cascades.DownDatabase | backend_test.go:50-54 | a database whose Ping fails reports Ping and becomes unavailable |
| Cascades.DBDownAffectsMultipleBackends | backend_test.go:39-65 | [db Ping] followed by one DBConnection per backend, in check order |
| Cascades.DownPair | backend_test.go:84-86 | the pair after the database fails and is checked: only Ping |
| Cascades.TriggeredPair | backend_test.go:84-87 | after the trigger, Ping and DBConnection, with the backend's alarm already re-enabled |
| Cascades.TriggerAndRecover | backend_test.go:84-91 | the recovery reports nothing and leaves both quiet |
| Cascades.RetriggeredDatabase | backend_test.go:93-99 | after recovery, a second failure of the database reports Ping again |
| Cascades.DBRetriggerAffectsBackend | backend_test.go:67-103 | the events after the recovery are again [db Ping, backend DBConnection] |
| Cascades.DownDatabaseChain | frontend_test.go:16-20 | a chain whose database has failed and been checked |
| Cascades.DBDownNotAffectFrontend | frontend_test.go:9-25 | the frontend adds nothing: [db Ping, backend DBConnection] |
| Cascades.BackendDownChain | frontend_test.go:34-39 | a chain whose backend's Ping has failed: only the backend's Ping is reported |
| Cascades.BackendDownAffectsFrontend | frontend_test.go:27-43 | [backend Ping, frontend BackendConnection] |
| Cascades.StillDownDatabaseReportedTwiceByBackend | backend.go:51-71 | as written, two checks against a database that stays down give [db Ping, DBConnection, DBConnection] |
| Cascades.TriggeredPairIntended | backend.go:49-58 | under the intended rule, the first check against the down database reports and keeps the alarm ACK |
| Cascades.StillDownDatabaseReportedOnce | backend.go:49-58 | under the intended rule, the same two checks give [db Ping, DBConnection] |
| Cascades.DnsDownPair | dns.go:40-51 | a DNS server whose Proc fails reports Proc and triggers the backend's DNS flag |
| Cascades.DnsOutageReportedEveryCheckByBackend | backend.go:51-66 | as written, two backend checks during the DNS outage give [dns Proc, DBConnection, DBConnection] |
| Cascades.DnsOutageReportedOnce | backend.go:60-71 | under the intended rule, the same checks give [dns Proc, DBConnection] |

## Left out

- Concurrency and scheduling are not modelled. This covers `Run`, `Start`, `Stop`, the context and wait group, the simulation scheduler and the fault injectors ("monkeys"). Each check runs as one atomic method call.
- Time is a natural number given to every check. The source multiplies it by 60 and prints it with `%.0f`; the model records it as given.
- `WriteEvents`, the event text format, the GraphML writer and the JSON encoding at architecture.go:178-192 are not modelled. This is I/O and formatting, so the graph stops at its node and edge lists.
- The sink's mutex is not modelled; each `HandleAlarm` is atomic.
- Monitoring.Sink.GenerateEventID: the `rand.Intn` retry loop is modelled by its outcome, an arbitrary unused id in [0, 1000000), which `FreeIdExists` shows to exist.
  - Callers must leave room for the ids they may draw (`HasRoom`). The Go loop would spin forever once every id is used.
  - Each check asks for room for all of its blocks, a bound that is higher than needed.
- The lazy creation of nil maps (monitoring.go:25-32) is not modelled. A fresh sink starts with empty maps, which behaves the same.
- `GetName`, `GetType` and the node type tags are not modelled; they only feed the graph writers.
- server.go in this revision of the repository lacks several things the rest of the code uses:
  - a `DNSAlarm` field;
  - a `SetAlarm` method;
  - a `GetAlarms` method;
  - a time parameter on `CheckAlarms`.
- The model follows their uses in backend.go, dns.go and architecture_test.go:
  - the DNS flag is the base server's fifth flag;
  - `SetAlarm` accepts CPU, Memory, Disk, Ping and DNS;
  - `GetAlarms` lists the four checked kinds;
  - every `CheckAlarms` takes the time.
- The base server's `SetAlarm` is not in the source, so nothing defines what it does with an unknown alarm name. The model chooses to make an unknown name a precondition violation.
- Nil dependencies are not modelled. Go accepts a nil database in `NewBackend` (backend.go:17) and a nil backend in `NewFrontend` (frontend.go:14), and then panics on the first check (backend.go:51, frontend.go:39) or graph export (architecture.go:164, architecture.go:173). `Backends.Backend.constructor`, `Frontends.Frontend.constructor`, `Topology.Architecture.NewBackend` and `Topology.Architecture.NewFrontend` take non-null references, so the model does not capture these panics.
- The DNS server's clients are held as their embedded base servers. Every client's `SetAlarm("DNS", …)` ends in the base server's flag, so the push is exact.
- Frontends and databases define no `SetAlarm` or `GetAlarms` in frontend.go and database.go, so the model gives them none.
- The test double of the monitoring system (helpers_test.go) records "name,alarm" strings. The scenarios use the real sink and compare its events without ids.
- `Backend.Available`'s comment says the database is consulted, but the code does not consult it. The model follows the code.
- Graph nodes drawn per alarm kind and the topology generators (main.go, dbCluster.go and the mini topologies) are not modelled.

## Findings

| source | as written | input that shows it | evidently intended | confidence | as-written member | corrected member |
|---|---|---|---|---|---|---|
| backend.go:17-25 | a new backend remembers DNS as unavailable; on the first check against a down database, lines 54-56 report DBConnection and set it to ACK, then lines 68-71 reset it to Enabled | fresh database and backend, database Ping triggered, both checked twice: [Ping, DBConnection, DBConnection] | a database outage is reported once, until the connection comes back | not executed | Cascades.StillDownDatabaseReportedTwiceByBackend | Cascades.StillDownDatabaseReportedOnce |
| backend.go:51-66 | with the database up, line 52 resets DBConnection to Enabled on every check, so line 62 reports it again while DNS stays triggered | DNS server with the backend as client, DNS Proc triggered, DNS checked, backend checked twice: [Proc, DBConnection, DBConnection] | a DNS outage is reported once, and the alarm clears when DNS recovers | not executed | Cascades.DnsOutageReportedEveryCheckByBackend | Cascades.DnsOutageReportedOnce |

Both findings rest on the pure rules:
- `Alarms.StillDownDatabaseReportedTwice` and `Alarms.DnsOutageReportedEveryCheck` exhibit the repeats in `Alarms.ConnCheck`.
- `Alarms.IntendedConnCheck` is the corrected rule: the connection is up when the database is available and DNS reads Enabled, and only the edge to down is reported.
- `Alarms.IntendedReportsOncePerOutage` and `Alarms.IntendedRecoveryRearms` prove the intended behaviour of that rule.
- `Backends.Backend.CheckAlarmsIntended` implements the corrected rule.

The test scenarios keep the code as written (`Backends.Backend.CheckAlarms`), because the repository's tests are stated against it.
