/**
  Cascades: entities built from scratch on a fresh monitoring system,
  faults injected by writing a flag, and entities checked in a given order.
  Each method states the exact event sequence the monitoring system ends up
  with.  The time of every check is the parameter `t`: the checks under
  study do not depend on it.
 */
module Cascades {
  import opened Alarms
  import opened Monitoring
  import opened Servers
  import opened Databases
  import opened Backends
  import opened Frontends
  import opened Dns

  /** A fresh monitoring system with a database and a backend on it, as the
      constructors leave them. */
  method BuildPair(db: string, be: string) returns (mon: Sink, db1: Database, backend1: Backend)
    ensures fresh(mon) && fresh(db1) && fresh(db1.base) && fresh(backend1) && fresh(backend1.base)
    ensures db1.base != backend1.base
    ensures mon.Valid() && mon.usedIDs == {} && mon.Reports() == []
    ensures db1.base.name == db && db1.base.mon == mon
    ensures db1.base.Flags() == AllEnabled && db1.dbEngineAlarm == Enabled
    ensures backend1.base.name == be && backend1.base.mon == mon && backend1.dbEngine == db1
    ensures backend1.base.Flags() == AllEnabled && backend1.procAlarm == Enabled
    ensures backend1.dbConnectionAlarm == Enabled && !backend1.dnsAvailable
  {
    mon := new Sink();
    db1 := new Database(db, mon);
    backend1 := new Backend(be, db1, mon);
  }

  /** The pair of `BuildPair` plus a frontend depending on the backend. */
  method BuildChain(db: string, be: string, fe: string)
    returns (mon: Sink, db1: Database, backend1: Backend, frontend1: Frontend)
    ensures fresh(mon) && fresh(db1) && fresh(db1.base) && fresh(backend1) && fresh(backend1.base)
    ensures fresh(frontend1) && fresh(frontend1.base)
    ensures db1.base != backend1.base && db1.base != frontend1.base && backend1.base != frontend1.base
    ensures mon.Valid() && mon.usedIDs == {} && mon.Reports() == []
    ensures db1.base.name == db && db1.base.mon == mon
    ensures db1.base.Flags() == AllEnabled && db1.dbEngineAlarm == Enabled
    ensures backend1.base.name == be && backend1.base.mon == mon && backend1.dbEngine == db1
    ensures backend1.base.Flags() == AllEnabled && backend1.procAlarm == Enabled
    ensures backend1.dbConnectionAlarm == Enabled && !backend1.dnsAvailable
    ensures frontend1.base.name == fe && frontend1.base.mon == mon && frontend1.backend == backend1
    ensures frontend1.base.Flags() == AllEnabled && frontend1.procAlarm == Enabled
    ensures frontend1.backendConnectionAlarm == Enabled
  {
    mon, db1, backend1 := BuildPair(db, be);
    frontend1 := new Frontend(fe, backend1, mon);
  }

  /** A fresh pair after one check of each: nothing is reported and both
      are as the constructors left them. */
  method QuietPair(db: string, be: string, t: nat) returns (mon: Sink, db1: Database, backend1: Backend)
    ensures fresh(mon) && fresh(db1) && fresh(db1.base) && fresh(backend1) && fresh(backend1.base)
    ensures db1.base != backend1.base
    ensures mon.Valid() && |mon.usedIDs| <= 11 && mon.Reports() == []
    ensures db1.base.name == db && db1.base.mon == mon
    ensures db1.base.Flags() == AllEnabled && db1.dbEngineAlarm == Enabled
    ensures backend1.base.name == be && backend1.base.mon == mon && backend1.dbEngine == db1
    ensures Untouched(backend1)
  {
    mon, db1, backend1 := BuildPair(db, be);
    db1.CheckAlarms(t);
    backend1.CheckAlarms(t);
  }

  /** Database and backend start quiet; once the database's Ping fails, the
      database reports Ping and the backend then reports DBConnection. */
  method DBDownAffectsBackend(db: string, be: string, t: nat) returns (quiet: seq<Report>, afterDb: seq<Report>, afterBackend: seq<Report>)
    ensures quiet == []
    ensures afterDb == [Report(t, db, "Ping")]
    ensures afterBackend == [Report(t, db, "Ping"), Report(t, be, "DBConnection")]
  {
    var mon, db1, backend1 := QuietPair(db, be, t);
    quiet := mon.Reports();
    db1.base.pingAlarm := Triggered;
    db1.CheckAlarms(t);
    afterDb := mon.Reports();
    CheckUntouchedBackend(db1, mon, backend1, t);
    afterBackend := mon.Reports();
  }

  /** A freshly built database reports nothing; with only Ping triggered, a
      check reports exactly Ping. */
  method DatabasePingOnly(db: string, t: nat) returns (quiet: seq<Report>, r: seq<Report>)
    ensures quiet == []
    ensures r == [Report(t, db, "Ping")]
  {
    var mon := new Sink();
    var db1 := new Database(db, mon);
    db1.CheckAlarms(t);
    quiet := mon.Reports();
    db1.base.pingAlarm := Triggered;
    db1.CheckAlarms(t);
    r := mon.Reports();
  }

  /** One backend per name, all depending on `db1`, as the constructor
      leaves them. */
  method BuildBackends(db1: Database, mon: Sink, names: seq<string>) returns (backends: seq<Backend>)
    ensures |backends| == |names|
    ensures forall j :: 0 <= j < |names| ==>
              && fresh(backends[j]) && fresh(backends[j].base) && backends[j].base.name == names[j]
              && backends[j].base.mon == mon && backends[j].dbEngine == db1
              && Untouched(backends[j])
    ensures forall j, k :: 0 <= j < k < |names| ==> backends[j] != backends[k] && backends[j].base != backends[k].base
  {
    backends := [];
    for i := 0 to |names|
      invariant |backends| == i
      invariant forall j :: 0 <= j < i ==>
                  && fresh(backends[j]) && fresh(backends[j].base) && backends[j].base.name == names[j]
                  && backends[j].base.mon == mon && backends[j].dbEngine == db1
                  && Untouched(backends[j])
      invariant forall j, k :: 0 <= j < k < i ==> backends[j] != backends[k] && backends[j].base != backends[k].base
    {
      var b := new Backend(names[i], db1, mon);
      backends := backends + [b];
    }
  }

  /** The DBConnection events of `bs`, in order. */
  function ConnReports(t: nat, bs: seq<Backend>): (r: seq<Report>)
    ensures |r| == |bs|
    ensures forall j :: 0 <= j < |bs| ==> r[j] == Report(t, bs[j].base.name, "DBConnection")
  {
    if bs == [] then []
    else ConnReports(t, bs[..|bs| - 1]) + [Report(t, bs[|bs| - 1].base.name, "DBConnection")]
  }

  /** A backend as its constructor leaves it, as far as a check can tell. */
  predicate Untouched(b: Backend)
    reads b, b.base
  {
    b.procAlarm == Enabled && b.dbConnectionAlarm == Enabled && b.base.Flags() == AllEnabled
  }

  /** An untouched backend checked against an unavailable database reports
      DBConnection and nothing else; unless it already remembered DNS as
      available, its DBConnection alarm ends up enabled again. */
  method CheckUntouchedBackend(db1: Database, mon: Sink, b: Backend, t: nat)
    requires mon.Valid() && mon.HasRoom(6)
    requires !db1.Available() && Untouched(b)
    requires b.base.mon == mon && b.dbEngine == db1 && b.base != db1.base
    modifies mon, b, b.base
    ensures mon.Valid() && |mon.usedIDs| <= old(|mon.usedIDs|) + 6
    ensures mon.Reports() == old(mon.Reports()) + [Report(t, b.base.name, "DBConnection")]
    ensures b.procAlarm == Enabled && b.base.Flags() == AllEnabled && b.dnsAvailable
    ensures b.dbConnectionAlarm == if old(b.dnsAvailable) then ACK else Enabled
  {
    b.CheckAlarms(t);
    assert Emit(t, b.base.name, "Proc", Enabled) == [] && BaseReports(t, b.base.name, AllEnabled) == [];
  }

  /** Checks the `i`-th backend against an unavailable database: it adds
      its DBConnection event, and the database and the backends after it
      are left as they were. */
  method CheckNextBackend(db1: Database, mon: Sink, backends: seq<Backend>, i: nat, t: nat)
    requires i < |backends|
    requires mon.Valid() && mon.HasRoom(6)
    requires !db1.Available()
    requires backends[i].base.mon == mon && backends[i].dbEngine == db1 && backends[i].base != db1.base
    requires forall j :: i <= j < |backends| ==> Untouched(backends[j])
    requires forall j, k :: 0 <= j < k < |backends| ==> backends[j] != backends[k] && backends[j].base != backends[k].base
    modifies mon, backends[i], backends[i].base
    ensures mon.Valid() && |mon.usedIDs| <= old(|mon.usedIDs|) + 6
    ensures mon.Reports() == old(mon.Reports()) + [Report(t, backends[i].base.name, "DBConnection")]
    ensures !db1.Available()
    ensures forall j :: i < j < |backends| ==> Untouched(backends[j])
  {
    CheckUntouchedBackend(db1, mon, backends[i], t);
  }

  /** Checks the backends in order against an unavailable database: each
      untouched backend adds exactly its DBConnection event. */
  method CheckBackendsAgainstDownDatabase(db1: Database, mon: Sink, backends: seq<Backend>, t: nat)
    requires mon.Valid() && |mon.usedIDs| + 6 * |backends| <= IdRange
    requires !db1.Available()
    requires forall j :: 0 <= j < |backends| ==>
               && backends[j].base.mon == mon && backends[j].dbEngine == db1
               && backends[j].base != db1.base && Untouched(backends[j])
    requires forall j, k :: 0 <= j < k < |backends| ==> backends[j] != backends[k] && backends[j].base != backends[k].base
    modifies mon, set b | b in backends, set b | b in backends :: b.base
    ensures mon.Reports() == old(mon.Reports()) + ConnReports(t, backends)
  {
    for i := 0 to |backends|
      invariant mon.Valid() && |mon.usedIDs| <= old(|mon.usedIDs|) + 6 * i
      invariant !db1.Available()
      invariant mon.Reports() == old(mon.Reports()) + ConnReports(t, backends[..i])
      invariant forall j :: i <= j < |backends| ==> Untouched(backends[j])
    {
      CheckNextBackend(db1, mon, backends, i, t);
      assert backends[..i + 1][..i] == backends[..i];
    }
    assert backends[..|backends|] == backends;
  }

  /** A fresh monitoring system with a database on it whose Ping has
      failed and been checked: Ping is reported and the database is
      unavailable. */
  method DownDatabase(db: string, t: nat) returns (mon: Sink, db1: Database)
    ensures fresh(mon) && fresh(db1) && fresh(db1.base)
    ensures mon.Valid() && |mon.usedIDs| <= 5
    ensures mon.Reports() == [Report(t, db, "Ping")]
    ensures db1.base.mon == mon && !db1.Available()
  {
    mon := new Sink();
    db1 := new Database(db, mon);
    db1.base.pingAlarm := Triggered;
    db1.CheckAlarms(t);
  }

  /** One failed database and one backend per name, checked database first
      and then the backends in order: one Ping event, then one DBConnection
      event per backend in check order.  The backends are built after the
      database check, which changes nothing: building reports nothing. */
  method DBDownAffectsMultipleBackends(db: string, names: seq<string>, t: nat) returns (r: seq<Report>)
    requires 5 + 6 * |names| <= IdRange
    ensures |r| == 1 + |names|
    ensures r[0] == Report(t, db, "Ping")
    ensures forall j :: 0 <= j < |names| ==> r[1 + j] == Report(t, names[j], "DBConnection")
  {
    var mon, db1 := DownDatabase(db, t);
    var backends := BuildBackends(db1, mon, names);
    CheckBackendsAgainstDownDatabase(db1, mon, backends, t);
    r := mon.Reports();
  }

  /** A fresh pair after the database's Ping fails and the database is
      checked: Ping is reported and the backend is untouched. */
  method DownPair(db: string, be: string, t: nat) returns (mon: Sink, db1: Database, backend1: Backend)
    ensures fresh(mon) && fresh(db1) && fresh(db1.base) && fresh(backend1) && fresh(backend1.base)
    ensures db1.base != backend1.base
    ensures mon.Valid() && |mon.usedIDs| <= 5
    ensures mon.Reports() == [Report(t, db, "Ping")]
    ensures db1.base.name == db && db1.base.mon == mon
    ensures db1.base.Flags() == AllEnabled.(ping := ACK) && db1.dbEngineAlarm == Enabled
    ensures backend1.base.name == be && backend1.base.mon == mon && backend1.dbEngine == db1
    ensures Untouched(backend1) && !backend1.dnsAvailable
  {
    mon, db1, backend1 := BuildPair(db, be);
    db1.base.pingAlarm := Triggered;
    db1.CheckAlarms(t);
  }

  /** A fresh pair after the database's Ping fails and both are checked:
      Ping and DBConnection are reported, and the backend's DBConnection
      alarm is already enabled again. */
  method TriggeredPair(db: string, be: string, t: nat) returns (mon: Sink, db1: Database, backend1: Backend)
    ensures fresh(mon) && fresh(db1) && fresh(db1.base) && fresh(backend1) && fresh(backend1.base)
    ensures db1.base != backend1.base
    ensures mon.Valid() && |mon.usedIDs| <= 11
    ensures mon.Reports() == [Report(t, db, "Ping"), Report(t, be, "DBConnection")]
    ensures db1.base.name == db && db1.base.mon == mon
    ensures db1.base.Flags() == AllEnabled.(ping := ACK) && db1.dbEngineAlarm == Enabled
    ensures backend1.base.name == be && backend1.base.mon == mon && backend1.dbEngine == db1
    ensures backend1.base.Flags() == AllEnabled && backend1.procAlarm == Enabled
    ensures backend1.dbConnectionAlarm == Enabled && backend1.dnsAvailable
  {
    mon, db1, backend1 := DownPair(db, be, t);
    CheckUntouchedBackend(db1, mon, backend1, t);
  }

  /** The triggered pair after the database recovers and both are checked
      again: nothing is reported and both are quiet. */
  method TriggerAndRecover(db: string, be: string, t: nat) returns (mon: Sink, db1: Database, backend1: Backend)
    ensures fresh(mon) && fresh(db1) && fresh(db1.base) && fresh(backend1) && fresh(backend1.base)
    ensures db1.base != backend1.base
    ensures mon.Valid() && |mon.usedIDs| <= 22
    ensures mon.Reports() == [Report(t, db, "Ping"), Report(t, be, "DBConnection")]
    ensures db1.base.name == db && db1.base.mon == mon
    ensures db1.base.Flags() == AllEnabled && db1.dbEngineAlarm == Enabled
    ensures backend1.base.name == be && backend1.base.mon == mon && backend1.dbEngine == db1
    ensures backend1.base.Flags() == AllEnabled && backend1.procAlarm == Enabled
    ensures backend1.dbConnectionAlarm == Enabled
  {
    mon, db1, backend1 := TriggeredPair(db, be, t);
    db1.base.pingAlarm := Enabled;
    db1.CheckAlarms(t);
    backend1.CheckAlarms(t);
  }

  /** The recovered pair after the database's Ping fails again and the
      database is checked: the events since the recovery are Ping alone. */
  method RetriggeredDatabase(db: string, be: string, t: nat)
    returns (mon: Sink, db1: Database, backend1: Backend, cleared: nat)
    ensures fresh(mon) && fresh(db1) && fresh(db1.base) && fresh(backend1) && fresh(backend1.base)
    ensures db1.base != backend1.base
    ensures mon.Valid() && |mon.usedIDs| <= 27
    ensures cleared <= |mon.Reports()| && mon.Reports()[cleared..] == [Report(t, db, "Ping")]
    ensures !db1.Available()
    ensures backend1.base.name == be && backend1.base.mon == mon && backend1.dbEngine == db1
    ensures backend1.base.Flags() == AllEnabled && backend1.procAlarm == Enabled
    ensures backend1.dbConnectionAlarm == Enabled
  {
    mon, db1, backend1 := TriggerAndRecover(db, be, t);
    cleared := |mon.Reports()|;
    db1.base.pingAlarm := Triggered;
    db1.CheckAlarms(t);
  }

  /** Trigger, recover and retrigger the database, checking database and
      backend after each step: the events after the recovery are again Ping
      and DBConnection. */
  method DBRetriggerAffectsBackend(db: string, be: string, t: nat) returns (r: seq<Report>)
    ensures r == [Report(t, db, "Ping"), Report(t, be, "DBConnection")]
  {
    var mon, db1, backend1, cleared := RetriggeredDatabase(db, be, t);
    backend1.CheckAlarms(t);
    r := mon.Reports()[cleared..];
  }

  /** A fresh chain whose database's Ping has failed and been checked. */
  method DownDatabaseChain(db: string, be: string, fe: string, t: nat)
    returns (mon: Sink, db1: Database, backend1: Backend, frontend1: Frontend)
    ensures fresh(mon) && fresh(db1) && fresh(db1.base) && fresh(backend1) && fresh(backend1.base)
    ensures fresh(frontend1) && fresh(frontend1.base)
    ensures db1.base != backend1.base && backend1.base != frontend1.base
    ensures mon.Valid() && |mon.usedIDs| <= 5
    ensures mon.Reports() == [Report(t, db, "Ping")] && !db1.Available()
    ensures backend1.base.name == be && backend1.base.mon == mon && backend1.dbEngine == db1
    ensures Untouched(backend1)
    ensures frontend1.base.mon == mon && frontend1.backend == backend1
    ensures frontend1.base.Flags() == AllEnabled && frontend1.procAlarm == Enabled
    ensures frontend1.backendConnectionAlarm == Enabled
  {
    mon, db1, backend1, frontend1 := BuildChain(db, be, fe);
    db1.base.pingAlarm := Triggered;
    db1.CheckAlarms(t);
  }

  /** A database failure stops at the backend: the frontend, whose backend
      is still available, reports nothing. */
  method DBDownNotAffectFrontend(db: string, be: string, fe: string, t: nat) returns (r: seq<Report>)
    ensures r == [Report(t, db, "Ping"), Report(t, be, "DBConnection")]
  {
    var mon, db1, backend1, frontend1 := DownDatabaseChain(db, be, fe, t);
    CheckUntouchedBackend(db1, mon, backend1, t);
    frontend1.CheckAlarms(t);
    r := mon.Reports();
  }

  /** A fresh chain whose backend's Ping has failed, after the database
      and the backend are checked: only the backend's Ping is reported. */
  method BackendDownChain(db: string, be: string, fe: string, t: nat)
    returns (mon: Sink, frontend1: Frontend)
    ensures fresh(mon) && fresh(frontend1) && fresh(frontend1.base)
    ensures mon.Valid() && |mon.usedIDs| <= 11
    ensures mon.Reports() == [Report(t, be, "Ping")]
    ensures frontend1.base.name == fe && frontend1.base.mon == mon && !frontend1.backend.Available()
    ensures frontend1.base.Flags() == AllEnabled && frontend1.procAlarm == Enabled
    ensures frontend1.backendConnectionAlarm == Enabled
  {
    var db1, backend1;
    mon, db1, backend1, frontend1 := BuildChain(db, be, fe);
    backend1.base.pingAlarm := Triggered;
    db1.CheckAlarms(t);
    backend1.CheckAlarms(t);
  }

  /** A backend whose Ping fails reports it, and its frontend then reports
      BackendConnection. */
  method BackendDownAffectsFrontend(db: string, be: string, fe: string, t: nat) returns (r: seq<Report>)
    ensures r == [Report(t, be, "Ping"), Report(t, fe, "BackendConnection")]
  {
    var mon, frontend1 := BackendDownChain(db, be, fe, t);
    frontend1.CheckAlarms(t);
    r := mon.Reports();
  }

  /** As written: a database that stays down is reported by its backend on
      the first two checks, because the first check re-enables the alarm. */
  method StillDownDatabaseReportedTwiceByBackend(db: string, be: string, t: nat) returns (r: seq<Report>)
    ensures r == [Report(t, db, "Ping"), Report(t, be, "DBConnection"), Report(t, be, "DBConnection")]
  {
    var mon, db1, backend1 := TriggeredPair(db, be, t);
    db1.CheckAlarms(t);
    backend1.CheckAlarms(t);
    r := mon.Reports();
  }

  /** Under the intended rule: a fresh pair after the database's Ping
      fails and both are checked reports Ping and DBConnection, and the
      backend's DBConnection alarm stays acknowledged. */
  method TriggeredPairIntended(db: string, be: string, t: nat) returns (mon: Sink, db1: Database, backend1: Backend)
    ensures fresh(mon) && fresh(db1) && fresh(db1.base) && fresh(backend1) && fresh(backend1.base)
    ensures db1.base != backend1.base
    ensures mon.Valid() && |mon.usedIDs| <= 11
    ensures mon.Reports() == [Report(t, db, "Ping"), Report(t, be, "DBConnection")]
    ensures db1.base.mon == mon && db1.base.Flags() == AllEnabled.(ping := ACK) && db1.dbEngineAlarm == Enabled
    ensures backend1.base.mon == mon && backend1.dbEngine == db1
    ensures backend1.base.Flags() == AllEnabled && backend1.procAlarm == Enabled
    ensures backend1.dbConnectionAlarm == ACK
  {
    mon, db1, backend1 := DownPair(db, be, t);
    backend1.CheckAlarmsIntended(t);
  }

  /** Under the intended rule the same outage is reported once. */
  method StillDownDatabaseReportedOnce(db: string, be: string, t: nat) returns (r: seq<Report>)
    ensures r == [Report(t, db, "Ping"), Report(t, be, "DBConnection")]
  {
    var mon, db1, backend1 := TriggeredPairIntended(db, be, t);
    db1.CheckAlarms(t);
    backend1.CheckAlarmsIntended(t);
    r := mon.Reports();
  }

  /** A DNS server with the backend as its only client, whose process
      fails: the DNS server reports Proc and the backend's DNS flag becomes
      triggered. */
  method DnsDownPair(dn: string, db: string, be: string, t: nat)
    returns (mon: Sink, db1: Database, backend1: Backend, r: seq<Report>)
    ensures fresh(mon) && fresh(db1) && fresh(db1.base) && fresh(backend1) && fresh(backend1.base)
    ensures db1.base != backend1.base
    ensures mon.Valid() && |mon.usedIDs| <= 5
    ensures r == mon.Reports() && r == [Report(t, dn, "Proc")]
    ensures db1.base.Flags() == AllEnabled && db1.dbEngineAlarm == Enabled
    ensures backend1.base.name == be && backend1.base.mon == mon && backend1.dbEngine == db1
    ensures backend1.base.Flags() == AllEnabled.(dns := Triggered) && backend1.procAlarm == Enabled
    ensures backend1.dbConnectionAlarm == Enabled
  {
    mon, db1, backend1 := BuildPair(db, be);
    var dns := new DNS(dn, mon);
    dns.AddClient(backend1.base);
    dns.procAlarm := Triggered;
    dns.CheckAlarms(t);
    r := mon.Reports();
  }

  /** As written: while the DNS flag stays triggered and the database is
      up, every backend check reports DBConnection again. */
  method DnsOutageReportedEveryCheckByBackend(dn: string, db: string, be: string, t: nat) returns (r: seq<Report>)
    ensures r == [Report(t, dn, "Proc"), Report(t, be, "DBConnection"), Report(t, be, "DBConnection")]
  {
    var mon, db1, backend1, r0 := DnsDownPair(dn, db, be, t);
    backend1.CheckAlarms(t);
    assert mon.Reports() == [Report(t, dn, "Proc"), Report(t, be, "DBConnection")];
    backend1.CheckAlarms(t);
    r := mon.Reports();
  }

  /** Under the intended rule the DNS outage is reported once. */
  method DnsOutageReportedOnce(dn: string, db: string, be: string, t: nat) returns (r: seq<Report>)
    ensures r == [Report(t, dn, "Proc"), Report(t, be, "DBConnection")]
  {
    var mon, db1, backend1, r0 := DnsDownPair(dn, db, be, t);
    backend1.CheckAlarmsIntended(t);
    assert mon.Reports() == [Report(t, dn, "Proc"), Report(t, be, "DBConnection")];
    backend1.CheckAlarmsIntended(t);
    r := mon.Reports();
  }
}
