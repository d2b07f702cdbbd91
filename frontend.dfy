/**
  A frontend server: a base server, its process, and a connection alarm
  derived from the backend it depends on.
 */
module Frontends {
  import opened Alarms
  import opened Monitoring
  import opened Servers
  import opened Backends

  class Frontend {
    const base: Server
    var procAlarm: AlarmStatus
    var backendConnectionAlarm: AlarmStatus
    const backend: Backend

    /** A frontend named `name` depending on `be`, every flag enabled. */
    constructor (name: string, be: Backend, mon: Sink)
      ensures fresh(base) && base.name == name && base.mon == mon && backend == be
      ensures base.Flags() == AllEnabled && procAlarm == Enabled && backendConnectionAlarm == Enabled
    {
      base := new Server(name, mon);
      backend := be;
      procAlarm, backendConnectionAlarm := Enabled, Enabled;
    }

    /** Available when the base server is and the process runs. */
    function Available(): (r: bool)
      reads this, base
      ensures r <==> base.Available() && procAlarm != Triggered && procAlarm != ACK
    {
      base.Available() && procAlarm == Enabled
    }

    /** The Proc block of a check. */
    method CheckProc(t: nat)
      requires base.mon.Valid() && base.mon.HasRoom(1)
      modifies this`procAlarm, base.mon
      ensures base.mon.Valid()
      ensures base.mon.Extends(old(base.mon.Snap()), 1)
      ensures procAlarm == Observe(old(procAlarm))
      ensures base.mon.Reports() == old(base.mon.Reports()) + Emit(t, base.name, "Proc", old(procAlarm))
    {
      if procAlarm == Triggered {
        procAlarm := ACK;
        base.mon.HandleAlarm(base.name, "Proc", t);
      }
    }

    /** The BackendConnection block: derived from the backend's
        availability, reported only when it moves from enabled. */
    method CheckConnection(t: nat)
      requires base.mon.Valid() && base.mon.HasRoom(1)
      modifies this`backendConnectionAlarm, base.mon
      ensures base.mon.Valid()
      ensures base.mon.Extends(old(base.mon.Snap()), 1)
      ensures var d := DerivedConn(old(backend.Available()), old(backendConnectionAlarm));
              && backendConnectionAlarm == d.conn
              && base.mon.Reports() == old(base.mon.Reports())
                   + (if d.reported then [Report(t, base.name, "BackendConnection")] else [])
    {
      if backend.Available() {
        backendConnectionAlarm := Enabled;
      } else {
        if backendConnectionAlarm == Enabled {
          backendConnectionAlarm := ACK;
          base.mon.HandleAlarm(base.name, "BackendConnection", t);
        }
      }
    }

    /** One check: Proc, then BackendConnection, then the base server's
        four flags. */
    method CheckAlarms(t: nat)
      requires base.mon.Valid() && base.mon.HasRoom(6)
      modifies this, base, base.mon
      ensures base.mon.Valid()
      ensures base.mon.Extends(old(base.mon.Snap()), 6)
      ensures procAlarm == Observe(old(procAlarm))
      ensures base.Flags() == CheckBase(old(base.Flags()))
      ensures var d := DerivedConn(old(backend.Available()), old(backendConnectionAlarm));
              && backendConnectionAlarm == d.conn
              && base.mon.Reports() == old(base.mon.Reports())
                   + Emit(t, base.name, "Proc", old(procAlarm))
                   + (if d.reported then [Report(t, base.name, "BackendConnection")] else [])
                   + BaseReports(t, base.name, old(base.Flags()))
    {
      CheckProc(t);
      ghost var s1 := base.mon.Snap();
      CheckConnection(t);
      ghost var s2 := base.mon.Snap();
      base.CheckAlarms(t);
      GrownThree(old(base.mon.Snap()), s1, s2, base.mon.Snap(), 1, 1, 4);
    }
  }
}
