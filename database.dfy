/**
  A database server: a base server plus the state of its database engine.
 */
module Databases {
  import opened Alarms
  import opened Monitoring
  import opened Servers

  class Database {
    var dbEngineAlarm: AlarmStatus
    /** the embedded base server */
    const base: Server

    /** A database named `name` reporting to `mon`, every flag enabled. */
    constructor (name: string, mon: Sink)
      ensures fresh(base) && base.name == name && base.mon == mon
      ensures base.Flags() == AllEnabled && dbEngineAlarm == Enabled
    {
      base := new Server(name, mon);
      dbEngineAlarm := Enabled;
    }

    /** Available when the server answers Ping and the engine runs; an
        acknowledged engine alarm keeps the database unavailable until it
        is reset to `Enabled`. */
    function Available(): (r: bool)
      reads this, base
      ensures r <==> base.Available() && dbEngineAlarm != Triggered && dbEngineAlarm != ACK
    {
      base.Available() && dbEngineAlarm == Enabled
    }

    /** The DBEngine block of a check. */
    method CheckEngine(t: nat)
      requires base.mon.Valid() && base.mon.HasRoom(1)
      modifies this`dbEngineAlarm, base.mon
      ensures base.mon.Valid()
      ensures base.mon.Extends(old(base.mon.Snap()), 1)
      ensures dbEngineAlarm == Observe(old(dbEngineAlarm))
      ensures base.mon.Reports() == old(base.mon.Reports()) + Emit(t, base.name, "DBEngine", old(dbEngineAlarm))
    {
      if dbEngineAlarm == Triggered {
        dbEngineAlarm := ACK;
        base.mon.HandleAlarm(base.name, "DBEngine", t);
      }
    }

    /** Checks the engine first, then the base server's four flags. */
    method CheckAlarms(t: nat)
      requires base.mon.Valid() && base.mon.HasRoom(5)
      modifies this, base, base.mon
      ensures base.mon.Valid()
      ensures base.mon.Extends(old(base.mon.Snap()), 5)
      ensures dbEngineAlarm == Observe(old(dbEngineAlarm))
      ensures base.Flags() == CheckBase(old(base.Flags()))
      ensures base.mon.Reports() == old(base.mon.Reports())
                + Emit(t, base.name, "DBEngine", old(dbEngineAlarm))
                + BaseReports(t, base.name, old(base.Flags()))
    {
      CheckEngine(t);
      ghost var s1 := base.mon.Snap();
      base.CheckAlarms(t);
      GrownTrans(old(base.mon.Snap()), s1, base.mon.Snap(), 1, 4);
    }
  }
}
