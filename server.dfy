/**
  The base server: a name, a connection to the monitoring system and five
  alarm flags.  Every other entity embeds one (see `base` in the other
  classes).
 */
module Servers {
  import opened Alarms
  import opened Monitoring

  /** Regrouping of the five report segments of one base check. The
      solver finds it unaided, but `Server.CheckAlarms` only fits its
      resource budget when this step is handed to it as a lemma call. */
  lemma ConcatFour(a: seq<Report>, b: seq<Report>, c: seq<Report>, d: seq<Report>, e: seq<Report>)
    ensures a + b + c + d + e == a + (b + c + d + e)
  {
  }

  class Server {
    const name: string
    /** connection to the monitoring system */
    const mon: Sink
    var cpuAlarm: AlarmStatus
    var memoryAlarm: AlarmStatus
    var diskAlarm: AlarmStatus
    var pingAlarm: AlarmStatus
    /** set by a DNS server this server is a client of */
    var dnsAlarm: AlarmStatus

    /** The five flags as one value. */
    function Flags(): BaseFlags
      reads this
    {
      BaseFlags(cpuAlarm, memoryAlarm, diskAlarm, pingAlarm, dnsAlarm)
    }

    /** A server with every flag enabled. */
    constructor (name: string, mon: Sink)
      ensures this.name == name && this.mon == mon
      ensures Flags() == AllEnabled
    {
      this.name, this.mon := name, mon;
      cpuAlarm, memoryAlarm, diskAlarm, pingAlarm, dnsAlarm := Enabled, Enabled, Enabled, Enabled, Enabled;
    }

    /** The alarm kinds of a base server, in check order. */
    function GetAlarms(): (r: seq<string>)
      ensures |r| == |BaseKinds|
      ensures forall i :: 0 <= i < |r| ==> r[i] == KindName(BaseKinds[i])
      ensures forall a :: a in r ==> IsServerKind(a) && a != "DNS"
    {
      ["CPU", "Memory", "Disk", "Ping"]
    }

    /** Reachable exactly when Ping is enabled; a triggered and an
        acknowledged Ping both mean unavailable. */
    function Available(): (r: bool)
      reads this
      ensures r <==> pingAlarm != Triggered && pingAlarm != ACK
    {
      pingAlarm == Enabled
    }

    /** Forces the flag named `alarm` to `status`, leaving the others. */
    method SetAlarm(alarm: string, status: AlarmStatus)
      requires IsServerKind(alarm)
      modifies this
      ensures Flags() == SetFlag(old(Flags()), KindNamed(alarm), status)
    {
      match KindNamed(alarm)
      case CPU => cpuAlarm := status;
      case Memory => memoryAlarm := status;
      case Disk => diskAlarm := status;
      case Ping => pingAlarm := status;
      case DNS => dnsAlarm := status;
    }

    /** One block of the base check: if the flag of kind `k` is triggered
        it is acknowledged and reported once; otherwise nothing happens. */
    method CheckAndReport(k: ServerKind, t: nat)
      requires k != DNS
      requires mon.Valid() && mon.HasRoom(1)
      modifies this, mon
      ensures mon.Valid()
      ensures mon.Extends(old(mon.Snap()), 1)
      ensures Flags() == SetFlag(old(Flags()), k, Observe(FlagOf(old(Flags()), k)))
      ensures mon.Reports() == old(mon.Reports()) + Emit(t, name, KindName(k), FlagOf(old(Flags()), k))
    {
      if FlagOf(Flags(), k) == Triggered {
        match k {
          case CPU => cpuAlarm := ACK;
          case Memory => memoryAlarm := ACK;
          case Disk => diskAlarm := ACK;
          case Ping => pingAlarm := ACK;
        }
        mon.HandleAlarm(name, KindName(k), t);
      }
    }

    /** Checks CPU, Memory, Disk and Ping in that order: each triggered one
        is acknowledged and reported once; the DNS flag is not looked at. */
    method CheckAlarms(t: nat)
      requires mon.Valid() && mon.HasRoom(4)
      modifies this, mon
      ensures mon.Valid()
      ensures mon.Extends(old(mon.Snap()), 4)
      ensures Flags() == CheckBase(old(Flags()))
      ensures mon.Reports() == old(mon.Reports()) + BaseReports(t, name, old(Flags()))
    {
      ghost var f0, s0 := Flags(), mon.Snap();
      CheckAndReport(CPU, t);
      ghost var s1 := mon.Snap();
      CheckAndReport(Memory, t);
      ghost var s2 := mon.Snap();
      CheckAndReport(Disk, t);
      ghost var s3 := mon.Snap();
      CheckAndReport(Ping, t);
      ConcatFour(old(mon.Reports()), Emit(t, name, "CPU", f0.cpu), Emit(t, name, "Memory", f0.memory),
                 Emit(t, name, "Disk", f0.disk), Emit(t, name, "Ping", f0.ping));
      GrownFour(s0, s1, s2, s3, mon.Snap());
    }
  }
}
