/**
  A DNS server: a base server, its process, and the clients into which it
  pushes the `DNS` flag when its process fails.
 */
module Dns {
  import opened Alarms
  import opened Monitoring
  import opened Servers

  /** The names a DNS server accepts in `SetAlarm`. */
  predicate IsDnsKind(alarm: string) {
    alarm == "Proc" || IsServerKind(alarm)
  }

  /** The flags of a client after the push: only its DNS flag changes, to
      triggered. */
  function Pushed(f: BaseFlags): (r: BaseFlags)
    ensures FlagOf(r, DNS) == Triggered
    ensures forall k :: k in BaseKinds ==> FlagOf(r, k) == FlagOf(f, k)
  {
    f.(dns := Triggered)
  }

  class DNS {
    const base: Server
    var procAlarm: AlarmStatus
    /** the embedded base servers of the registered clients, in order */
    var clients: seq<Server>

    /** A DNS server named `name` with no clients, every flag enabled. */
    constructor (name: string, mon: Sink)
      ensures fresh(base) && base.name == name && base.mon == mon
      ensures base.Flags() == AllEnabled && procAlarm == Enabled && clients == []
    {
      base := new Server(name, mon);
      procAlarm, clients := Enabled, [];
    }

    /** Registers one more client, after the existing ones. */
    method AddClient(client: Server)
      modifies this`clients
      ensures clients == old(clients) + [client]
    {
      clients := clients + [client];
    }

    /** The base server's kinds followed by Proc. */
    function GetAlarms(): (r: seq<string>)
      reads this
      ensures |r| == |BaseKinds| + 1
      ensures r[..|BaseKinds|] == base.GetAlarms()
      ensures r[|BaseKinds|] == "Proc"
      ensures forall a :: a in r ==> IsDnsKind(a)
    {
      base.GetAlarms() + ["Proc"]
    }

    /** Available when the base server is and the process runs. */
    function Available(): (r: bool)
      reads this, base
      ensures r <==> base.Available() && procAlarm != Triggered && procAlarm != ACK
    {
      base.Available() && procAlarm == Enabled
    }

    /** Forces one flag: Proc is the DNS server's own, every other name goes
        to the base server. */
    method SetAlarm(alarm: string, status: AlarmStatus)
      requires IsDnsKind(alarm)
      modifies this`procAlarm, base
      ensures alarm == "Proc" ==> procAlarm == status && unchanged(base)
      ensures alarm != "Proc" ==>
                (procAlarm == old(procAlarm) && base.Flags() == SetFlag(old(base.Flags()), KindNamed(alarm), status))
    {
      if alarm == "Proc" {
        procAlarm := status;
      } else {
        base.SetAlarm(alarm, status);
      }
    }

    /** Sets the DNS flag of every client to triggered, in registration
        order; nothing else of any client changes. */
    method PushToClients()
      modifies set c | c in clients
      ensures forall c :: c in clients ==> c.Flags() == Pushed(old(c.Flags()))
    {
      var i := 0;
      while i < |clients|
        invariant 0 <= i <= |clients|
        invariant forall c :: c in clients ==>
                    c.Flags() == if c in clients[..i] then Pushed(old(c.Flags())) else old(c.Flags())
      {
        clients[i].SetAlarm("DNS", Triggered);
        i := i + 1;
      }
    }

    /** The Proc block of a check: a triggered Proc is acknowledged,
        reported once and pushed into every client. */
    method CheckProc(t: nat)
      requires base.mon.Valid() && base.mon.HasRoom(1)
      modifies this`procAlarm, base.mon, set c | c in clients
      ensures base.mon.Valid()
      ensures base.mon.Extends(old(base.mon.Snap()), 1)
      ensures procAlarm == Observe(old(procAlarm))
      ensures base.mon.Reports() == old(base.mon.Reports()) + Emit(t, base.name, "Proc", old(procAlarm))
      ensures forall c :: c in clients ==>
                c.Flags() == if old(procAlarm) == Triggered then Pushed(old(c.Flags())) else old(c.Flags())
    {
      if procAlarm == Triggered {
        procAlarm := ACK;
        base.mon.HandleAlarm(base.name, "Proc", t);
        PushToClients();
      }
    }

    /** One check: the Proc block, then the base server's four flags. */
    method CheckAlarms(t: nat)
      requires base.mon.Valid() && base.mon.HasRoom(5)
      modifies this`procAlarm, base, base.mon, set c | c in clients
      ensures base.mon.Valid()
      ensures base.mon.Extends(old(base.mon.Snap()), 5)
      ensures procAlarm == Observe(old(procAlarm))
      ensures base.mon.Reports() == old(base.mon.Reports())
                + Emit(t, base.name, "Proc", old(procAlarm))
                + BaseReports(t, base.name, old(base.Flags()))
      ensures forall c :: c in clients && c != base ==>
                c.Flags() == if old(procAlarm) == Triggered then Pushed(old(c.Flags())) else old(c.Flags())
      ensures base.Flags() ==
                CheckBase(if old(procAlarm) == Triggered && base in clients then Pushed(old(base.Flags())) else old(base.Flags()))
    {
      CheckProc(t);
      ghost var f := base.Flags();
      assert f.cpu == old(base.Flags()).cpu && f.memory == old(base.Flags()).memory;
      assert f.disk == old(base.Flags()).disk && f.ping == old(base.Flags()).ping;
      ghost var s1 := base.mon.Snap();
      base.CheckAlarms(t);
      GrownTrans(old(base.mon.Snap()), s1, base.mon.Snap(), 1, 4);
    }
  }
}
