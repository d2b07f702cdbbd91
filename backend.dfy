/**
  A backend server: a base server, its process, and a connection alarm
  derived from the database it depends on and from the DNS flag pushed into
  its base server.
 */
module Backends {
  import opened Alarms
  import opened Monitoring
  import opened Servers
  import opened Databases

  /** The names a backend accepts in `SetAlarm`. */
  predicate IsBackendKind(alarm: string) {
    alarm == "Proc" || alarm == "DBConnection" || IsServerKind(alarm)
  }

  /** The DBConnection event of a check, if any. */
  function ConnReport(t: nat, name: string, reported: bool): (r: seq<Report>)
    ensures |r| == 1 <==> reported
    ensures forall e :: e in r ==> e == Report(t, name, "DBConnection")
  {
    if reported then [Report(t, name, "DBConnection")] else []
  }

  class Backend {
    const base: Server
    var procAlarm: AlarmStatus
    var dbConnectionAlarm: AlarmStatus
    const dbEngine: Database
    /** whether DNS read as available at the last check that looked at it */
    var dnsAvailable: bool

    /** A backend named `name` depending on `db`, every flag enabled and
        the remembered DNS bit false. */
    constructor (name: string, db: Database, mon: Sink)
      ensures fresh(base) && base.name == name && base.mon == mon && dbEngine == db
      ensures base.Flags() == AllEnabled && procAlarm == Enabled && dbConnectionAlarm == Enabled
      ensures !dnsAvailable
    {
      base := new Server(name, mon);
      dbEngine := db;
      procAlarm, dbConnectionAlarm, dnsAvailable := Enabled, Enabled, false;
    }

    /** The base server's kinds followed by Proc and DBConnection. */
    function GetAlarms(): (r: seq<string>)
      reads this
      ensures |r| == |BaseKinds| + 2
      ensures r[..|BaseKinds|] == base.GetAlarms()
      ensures r[|BaseKinds|..] == ["Proc", "DBConnection"]
      ensures forall a :: a in r ==> IsBackendKind(a)
    {
      base.GetAlarms() + ["Proc", "DBConnection"]
    }

    /** Available when the base server is and the process runs; the
        database is not consulted. */
    function Available(): (r: bool)
      reads this, base
      ensures r <==> base.Available() && procAlarm != Triggered && procAlarm != ACK
    {
      base.Available() && procAlarm == Enabled
    }

    /** Forces one flag: Proc and DBConnection are the backend's own, every
        other name goes to the base server. */
    method SetAlarm(alarm: string, status: AlarmStatus)
      requires IsBackendKind(alarm)
      modifies this, base
      ensures alarm == "Proc" ==>
                (procAlarm == status && dbConnectionAlarm == old(dbConnectionAlarm) && unchanged(base))
      ensures alarm == "DBConnection" ==>
                (dbConnectionAlarm == status && procAlarm == old(procAlarm) && unchanged(base))
      ensures alarm != "Proc" && alarm != "DBConnection" ==>
                (base.Flags() == SetFlag(old(base.Flags()), KindNamed(alarm), status)
                 && procAlarm == old(procAlarm) && dbConnectionAlarm == old(dbConnectionAlarm))
      ensures dnsAvailable == old(dnsAvailable)
    {
      if alarm == "Proc" {
        procAlarm := status;
      } else if alarm == "DBConnection" {
        dbConnectionAlarm := status;
      } else {
        base.SetAlarm(alarm, status);
      }
    }

    /** The Proc block of a check. */
    method CheckProc(t: nat)
      requires base.mon.Valid() && base.mon.HasRoom(1)
      modifies this`procAlarm, base.mon
      ensures base.mon.Valid()
      ensures base.mon.Extends(old(base.mon.Snap()), 1)
      ensures procAlarm == Observe(old(procAlarm))
      ensures base.mon.Reports() == old(base.mon.Reports()) + Emit(t, base.name, "Proc", old(procAlarm))
    {
      if procAlarm == Triggered {
        procAlarm := ACK;
        base.mon.HandleAlarm(base.name, "Proc", t);
      }
    }

    /** The DBConnection blocks of a check, as written: first derived from
        the database, then the DNS flag folded in, then the reset once DNS
        reads enabled while the remembered bit says it was not. */
    method CheckConnection(t: nat)
      requires base.mon.Valid() && base.mon.HasRoom(1)
      modifies this`dbConnectionAlarm, this`dnsAvailable, base.mon
      ensures base.mon.Valid()
      ensures base.mon.Extends(old(base.mon.Snap()), 1)
      ensures var o := ConnCheck(old(dbEngine.Available()), base.dnsAlarm, old(dbConnectionAlarm), old(dnsAvailable));
              && dbConnectionAlarm == o.conn && dnsAvailable == o.dnsAvailable
              && base.mon.Reports() == old(base.mon.Reports()) + ConnReport(t, base.name, o.reported)
    {
      if dbEngine.Available() {
        dbConnectionAlarm := Enabled;
      } else {
        if dbConnectionAlarm == Enabled {
          dbConnectionAlarm := ACK;
          base.mon.HandleAlarm(base.name, "DBConnection", t);
        }
      }
      if base.dnsAlarm == Triggered && dbConnectionAlarm == Enabled {
        dbConnectionAlarm := ACK;
        dnsAvailable := false;
        base.mon.HandleAlarm(base.name, "DBConnection", t);
      }
      if !dnsAvailable && base.dnsAlarm == Enabled && dbConnectionAlarm == ACK {
        dnsAvailable := true;
        dbConnectionAlarm := Enabled;
      }
    }

    /** One check as written: Proc, then DBConnection, then the base
        server's four flags. */
    method CheckAlarms(t: nat)
      requires base.mon.Valid() && base.mon.HasRoom(6)
      modifies this, base, base.mon
      ensures base.mon.Valid()
      ensures base.mon.Extends(old(base.mon.Snap()), 6)
      ensures procAlarm == Observe(old(procAlarm))
      ensures base.Flags() == CheckBase(old(base.Flags()))
      ensures var o := ConnCheck(old(dbEngine.Available()), old(base.dnsAlarm), old(dbConnectionAlarm), old(dnsAvailable));
              && dbConnectionAlarm == o.conn && dnsAvailable == o.dnsAvailable
              && base.mon.Reports() == old(base.mon.Reports())
                   + Emit(t, base.name, "Proc", old(procAlarm))
                   + ConnReport(t, base.name, o.reported)
                   + BaseReports(t, base.name, old(base.Flags()))
    {
      CheckProc(t);
      ghost var s1 := base.mon.Snap();
      CheckConnection(t);
      ghost var s2 := base.mon.Snap();
      base.CheckAlarms(t);
      GrownThree(old(base.mon.Snap()), s1, s2, base.mon.Snap(), 1, 1, 4);
    }

    /** The DBConnection block under the intended rule: the connection is
        up when the database is available and DNS reads enabled, and only
        the edge from up to down is reported. */
    method CheckConnectionIntended(t: nat)
      requires base.mon.Valid() && base.mon.HasRoom(1)
      modifies this`dbConnectionAlarm, base.mon
      ensures base.mon.Valid()
      ensures base.mon.Extends(old(base.mon.Snap()), 1)
      ensures var d := IntendedConnCheck(old(dbEngine.Available()), base.dnsAlarm, old(dbConnectionAlarm));
              && dbConnectionAlarm == d.conn
              && base.mon.Reports() == old(base.mon.Reports()) + ConnReport(t, base.name, d.reported)
    {
      if dbEngine.Available() && base.dnsAlarm == Enabled {
        dbConnectionAlarm := Enabled;
      } else if dbConnectionAlarm == Enabled {
        dbConnectionAlarm := ACK;
        base.mon.HandleAlarm(base.name, "DBConnection", t);
      }
    }

    /** One check under the intended DBConnection rule. */
    method CheckAlarmsIntended(t: nat)
      requires base.mon.Valid() && base.mon.HasRoom(6)
      modifies this, base, base.mon
      ensures base.mon.Valid()
      ensures base.mon.Extends(old(base.mon.Snap()), 6)
      ensures procAlarm == Observe(old(procAlarm))
      ensures base.Flags() == CheckBase(old(base.Flags()))
      ensures var d := IntendedConnCheck(old(dbEngine.Available()), old(base.dnsAlarm), old(dbConnectionAlarm));
              && dbConnectionAlarm == d.conn
              && base.mon.Reports() == old(base.mon.Reports())
                   + Emit(t, base.name, "Proc", old(procAlarm))
                   + ConnReport(t, base.name, d.reported)
                   + BaseReports(t, base.name, old(base.Flags()))
    {
      CheckProc(t);
      ghost var s1 := base.mon.Snap();
      CheckConnectionIntended(t);
      ghost var s2 := base.mon.Snap();
      base.CheckAlarms(t);
      GrownThree(old(base.mon.Snap()), s1, s2, base.mon.Snap(), 1, 1, 4);
    }
  }
}
