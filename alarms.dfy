/**
  Alarm statuses, the flags every server carries, and the pure rules that
  decide what one check of an entity reports.  The entity classes in the
  other modules are proved against these functions.
 */
module Alarms {

  /** Status of one alarm kind on one entity.  `Enabled` is the zero value:
      a freshly built entity has every flag `Enabled`. */
  datatype AlarmStatus = Enabled | Triggered | ACK

  /** One event as the monitoring system records it, without its id:
      when, which server, which alarm kind. */
  datatype Report = Report(time: nat, server: string, alarm: string)

  /** The flags of the base server: the four locally checked ones and the
      `DNS` flag that a DNS server pushes into its clients. */
  datatype BaseFlags = BaseFlags(cpu: AlarmStatus, memory: AlarmStatus, disk: AlarmStatus,
                                 ping: AlarmStatus, dns: AlarmStatus)

  /** Every flag of a freshly built server. */
  const AllEnabled := BaseFlags(Enabled, Enabled, Enabled, Enabled, Enabled)

  /** The alarm kinds a base server carries. */
  datatype ServerKind = CPU | Memory | Disk | Ping | DNS

  /** The name under which a kind is reported and set. */
  function KindName(k: ServerKind): string {
    match k
    case CPU => "CPU"
    case Memory => "Memory"
    case Disk => "Disk"
    case Ping => "Ping"
    case DNS => "DNS"
  }

  /** The kinds a base server checks, in check order. */
  const BaseKinds: seq<ServerKind> := [CPU, Memory, Disk, Ping]

  /** The names a base server accepts in `SetAlarm`. */
  predicate IsServerKind(alarm: string) {
    alarm in {"CPU", "Memory", "Disk", "Ping", "DNS"}
  }

  /** The kind called `alarm`. */
  function KindNamed(alarm: string): (k: ServerKind)
    requires IsServerKind(alarm)
    ensures KindName(k) == alarm
  {
    if alarm == "CPU" then CPU
    else if alarm == "Memory" then Memory
    else if alarm == "Disk" then Disk
    else if alarm == "Ping" then Ping
    else DNS
  }

  /** The status of the flag of kind `k`. */
  function FlagOf(f: BaseFlags, k: ServerKind): AlarmStatus {
    match k
    case CPU => f.cpu
    case Memory => f.memory
    case Disk => f.disk
    case Ping => f.ping
    case DNS => f.dns
  }

  /** Forcing the flag of kind `k` to `s`: that flag reads `s` and no other
      flag changes. */
  function SetFlag(f: BaseFlags, k: ServerKind, s: AlarmStatus): (r: BaseFlags)
    ensures FlagOf(r, k) == s
    ensures forall k' :: k' != k ==> FlagOf(r, k') == FlagOf(f, k')
  {
    match k
    case CPU => f.(cpu := s)
    case Memory => f.(memory := s)
    case Disk => f.(disk := s)
    case Ping => f.(ping := s)
    case DNS => f.(dns := s)
  }

  /** The new status of a locally owned flag after a check: a triggered
      alarm is acknowledged, every other status is left alone. */
  function Observe(s: AlarmStatus): (r: AlarmStatus)
    ensures r != Triggered
    ensures s == Triggered ==> r == ACK
    ensures s != Triggered ==> r == s
  {
    if s == Triggered then ACK else s
  }

  /** What checking one locally owned flag reports: one event of that kind
      exactly when the flag was triggered, nothing otherwise. */
  function Emit(t: nat, name: string, kind: string, s: AlarmStatus): (r: seq<Report>)
    ensures |r| <= 1
    ensures |r| == 1 <==> s == Triggered
    ensures forall e :: e in r ==> e == Report(t, name, kind)
  {
    if s == Triggered then [Report(t, name, kind)] else []
  }

  /** The flags after the base check: the four checked flags are observed,
      the DNS flag is not touched. */
  function CheckBase(f: BaseFlags): (r: BaseFlags)
    ensures forall k :: k in BaseKinds ==> FlagOf(r, k) == Observe(FlagOf(f, k))
    ensures r.dns == f.dns
  {
    BaseFlags(Observe(f.cpu), Observe(f.memory), Observe(f.disk), Observe(f.ping), f.dns)
  }

  /** The events of the base check, CPU first and Ping last. */
  function BaseReports(t: nat, name: string, f: BaseFlags): (r: seq<Report>)
    ensures |r| <= 4
    ensures forall e :: e in r ==> e.time == t && e.server == name
    ensures r == [] <==> f.cpu != Triggered && f.memory != Triggered && f.disk != Triggered && f.ping != Triggered
  {
    Emit(t, name, "CPU", f.cpu) + Emit(t, name, "Memory", f.memory)
    + Emit(t, name, "Disk", f.disk) + Emit(t, name, "Ping", f.ping)
  }

  /** Number of events of alarm kind `kind` in `r`. */
  function Count(r: seq<Report>, kind: string): (n: nat)
    ensures n <= |r|
  {
    if r == [] then 0
    else Count(r[..|r| - 1], kind) + (if r[|r| - 1].alarm == kind then 1 else 0)
  }

  lemma {:induction false} CountAppend(a: seq<Report>, b: seq<Report>, kind: string)
    ensures Count(a + b, kind) == Count(a, kind) + Count(b, kind)
    decreases |b|
  {
    if b != [] {
      var b' := b[..|b| - 1];
      assert (a + b)[..|a + b| - 1] == a + b';
      CountAppend(a, b', kind);
    } else {
      assert a + b == a;
    }
  }

  lemma CountEmit(t: nat, name: string, k: string, s: AlarmStatus, kind: string)
    ensures Count(Emit(t, name, k, s), kind) == if k == kind && s == Triggered then 1 else 0
  {
    if s == Triggered {
      assert Emit(t, name, k, s)[..0] == [];
    }
  }

  lemma CountFour(a: seq<Report>, b: seq<Report>, c: seq<Report>, d: seq<Report>, kind: string)
    ensures Count(a + b + c + d, kind) == Count(a, kind) + Count(b, kind) + Count(c, kind) + Count(d, kind)
  {
    CountAppend(a, b, kind);
    CountAppend(a + b, c, kind);
    CountAppend(a + b + c, d, kind);
  }

  /** A base check reports each triggered base flag exactly once and no
      other base flag at all. */
  lemma BaseReportsExactlyOnce(t: nat, name: string, f: BaseFlags, k: ServerKind)
    requires k in BaseKinds
    ensures Count(BaseReports(t, name, f), KindName(k)) == if FlagOf(f, k) == Triggered then 1 else 0
  {
    var kind := KindName(k);
    var c, m, d, p := Emit(t, name, "CPU", f.cpu), Emit(t, name, "Memory", f.memory),
                      Emit(t, name, "Disk", f.disk), Emit(t, name, "Ping", f.ping);
    CountFour(c, m, d, p, kind);
    match k
    case CPU =>
      CountEmit(t, name, "CPU", f.cpu, "CPU");
      CountEmit(t, name, "Memory", f.memory, "CPU");
      CountEmit(t, name, "Disk", f.disk, "CPU");
      CountEmit(t, name, "Ping", f.ping, "CPU");
    case Memory =>
      CountEmit(t, name, "CPU", f.cpu, "Memory");
      CountEmit(t, name, "Memory", f.memory, "Memory");
      CountEmit(t, name, "Disk", f.disk, "Memory");
      CountEmit(t, name, "Ping", f.ping, "Memory");
    case Disk =>
      CountEmit(t, name, "CPU", f.cpu, "Disk");
      CountEmit(t, name, "Memory", f.memory, "Disk");
      CountEmit(t, name, "Disk", f.disk, "Disk");
      CountEmit(t, name, "Ping", f.ping, "Disk");
    case Ping =>
      CountEmit(t, name, "CPU", f.cpu, "Ping");
      CountEmit(t, name, "Memory", f.memory, "Ping");
      CountEmit(t, name, "Disk", f.disk, "Ping");
      CountEmit(t, name, "Ping", f.ping, "Ping");
  }

  /** Every alarm kind some entity reports. */
  predicate IsReportedKind(alarm: string) {
    alarm in {"CPU", "Memory", "Disk", "Ping", "Proc", "DBEngine", "DBConnection", "BackendConnection"}
  }

  /** Position of a base kind in the check order. Only base reports are
      ranked (see `BaseReportsInCheckOrder`), so every kind other than CPU,
      Memory and Disk shares the last rank with Ping. */
  function KindRank(kind: string): nat {
    if kind == "CPU" then 0 else if kind == "Memory" then 1 else if kind == "Disk" then 2 else 3
  }

  /** The alarm kinds of `r` appear in strictly increasing check order. */
  predicate InCheckOrder(r: seq<Report>) {
    forall i, j :: 0 <= i < j < |r| ==> KindRank(r[i].alarm) < KindRank(r[j].alarm)
  }

  /** Every event of `r` is of a kind checked before position `n`. */
  predicate RanksBelow(r: seq<Report>, n: nat) {
    forall x :: x in r ==> KindRank(x.alarm) < n
  }

  /** Every event of `r` is of a kind checked at position `n` or later. */
  predicate RanksFrom(r: seq<Report>, n: nat) {
    forall x :: x in r ==> n <= KindRank(x.alarm)
  }

  /** Two ordered runs, the first of kinds checked before position `n` and
      the second of kinds from `n` up to `m`, make one ordered run of kinds
      below `m`. */
  lemma {:induction false} InCheckOrderAppend(a: seq<Report>, b: seq<Report>, n: nat, m: nat)
    requires InCheckOrder(a) && InCheckOrder(b) && n <= m
    requires RanksBelow(a, n) && RanksFrom(b, n) && RanksBelow(b, m)
    ensures InCheckOrder(a + b) && RanksBelow(a + b, m)
  {
    forall i, j | 0 <= i < j < |a + b|
      ensures KindRank((a + b)[i].alarm) < KindRank((a + b)[j].alarm)
    {
      if j < |a| {
      } else if i >= |a| {
        assert (a + b)[i] == b[i - |a|] && (a + b)[j] == b[j - |a|];
      } else {
        assert (a + b)[i] in a && (a + b)[j] in b;
      }
    }
    forall x | x in a + b
      ensures x in a || x in b
    {
    }
  }

  /** The events of one base check come in the fixed order CPU, Memory,
      Disk, Ping. */
  lemma BaseReportsInCheckOrder(t: nat, name: string, f: BaseFlags)
    ensures InCheckOrder(BaseReports(t, name, f))
  {
    var c, m, d, p := Emit(t, name, "CPU", f.cpu), Emit(t, name, "Memory", f.memory),
                      Emit(t, name, "Disk", f.disk), Emit(t, name, "Ping", f.ping);
    assert RanksBelow(c, 1) && RanksFrom(m, 1) && RanksBelow(m, 2);
    InCheckOrderAppend(c, m, 1, 2);
    assert RanksFrom(d, 2) && RanksBelow(d, 3);
    InCheckOrderAppend(c + m, d, 2, 3);
    assert RanksFrom(p, 3) && RanksBelow(p, 4);
    InCheckOrderAppend(c + m + d, p, 3, 4);
  }

  /** A check leaves no base flag triggered, so an immediate second check
      with no outside change reports nothing. */
  lemma SecondBaseCheckIsSilent(t: nat, t': nat, name: string, f: BaseFlags)
    ensures BaseReports(t', name, CheckBase(f)) == []
    ensures CheckBase(CheckBase(f)) == CheckBase(f)
  {
  }

  /** Result of deciding a connection alarm derived from a dependency. */
  datatype Derived = Derived(conn: AlarmStatus, reported: bool)

  /** The derived connection alarm of a frontend (and the first half of the
      backend's): an available dependency silently re-enables the alarm; an
      unavailable one acknowledges and reports an enabled alarm, and leaves
      any other status alone. */
  function DerivedConn(depAvailable: bool, conn: AlarmStatus): (r: Derived)
    ensures depAvailable ==> r == Derived(Enabled, false)
    ensures r.reported <==> !depAvailable && conn == Enabled
    ensures !depAvailable ==> r.conn == (if conn == Enabled then ACK else conn)
  {
    if depAvailable then Derived(Enabled, false)
    else if conn == Enabled then Derived(ACK, true)
    else Derived(conn, false)
  }

  /** The derived alarm only fires on the edge: if it is reported at a check,
      the dependency was available at the check before. */
  lemma DerivedReportsOnlyOnEdge(up1: bool, up2: bool, conn: AlarmStatus)
    ensures DerivedConn(up2, DerivedConn(up1, conn).conn).reported ==> up1
  {
  }

  /** Result of the backend's DBConnection logic: the new alarm status, the
      new remembered `dnsAvailable` bit and whether a DBConnection event
      was reported. */
  datatype ConnOutcome = ConnOutcome(conn: AlarmStatus, dnsAvailable: bool, reported: bool)

  /** The backend's DBConnection logic as written: the database-derived
      alarm, then the DNS flag folded in, then the reset once DNS reads
      enabled again while the remembered bit says it was not. */
  function ConnCheck(dbAvailable: bool, dns: AlarmStatus, conn: AlarmStatus, dnsAvailable: bool): (r: ConnOutcome)
    ensures r.reported <==> if dbAvailable then dns == Triggered else conn == Enabled
    ensures dbAvailable && dns == Triggered ==> r.conn == ACK && !r.dnsAvailable
    ensures dns != Enabled && !r.reported ==> r.conn == (if dbAvailable then Enabled else conn)
    ensures dns != Triggered ==> r.conn != Triggered || conn == Triggered
    ensures dbAvailable && dns == Enabled ==> r == ConnOutcome(Enabled, dnsAvailable, false)
    ensures !dbAvailable && dns != Enabled && r.reported ==> r.conn == ACK && r.dnsAvailable == dnsAvailable
    ensures !dbAvailable && dns == Enabled && conn != Triggered ==>
              r.conn == (if dnsAvailable then ACK else Enabled) && r.dnsAvailable
    ensures !dbAvailable && conn == Triggered ==> r == ConnOutcome(Triggered, dnsAvailable, false)
    ensures dns != Enabled && !r.reported ==> r.dnsAvailable == dnsAvailable
  {
    var d := DerivedConn(dbAvailable, conn);
    var fromDns := dns == Triggered && d.conn == Enabled;
    var c2 := if fromDns then ACK else d.conn;
    var avail2 := if fromDns then false else dnsAvailable;
    if !avail2 && dns == Enabled && c2 == ACK then ConnOutcome(Enabled, true, d.reported || fromDns)
    else ConnOutcome(c2, avail2, d.reported || fromDns)
  }

  /** A backend built by its constructor remembers `dnsAvailable == false`;
      on its first check against a down database it reports DBConnection and
      re-enables the alarm at once, so its second check against the still
      down database reports DBConnection again. */
  lemma StillDownDatabaseReportedTwice()
    ensures var first := ConnCheck(false, Enabled, Enabled, false);
            first.reported && first.conn == Enabled &&
            ConnCheck(false, Enabled, first.conn, first.dnsAvailable).reported
  {
  }

  /** While the DNS flag stays triggered and the database is available, every
      check of the backend reports DBConnection again. */
  lemma DnsOutageReportedEveryCheck(conn: AlarmStatus, dnsAvailable: bool)
    ensures var first := ConnCheck(true, Triggered, conn, dnsAvailable);
            first.reported && ConnCheck(true, Triggered, first.conn, first.dnsAvailable).reported
  {
  }

  /** The DBConnection rule the backend's comments describe: the connection
      is up when the database is available and DNS reads enabled, and the
      alarm is reported only on the edge from up to down. */
  function IntendedConnCheck(dbAvailable: bool, dns: AlarmStatus, conn: AlarmStatus): (r: Derived)
    ensures r.reported <==> (!dbAvailable || dns != Enabled) && conn == Enabled
    ensures dbAvailable && dns == Enabled ==> r == Derived(Enabled, false)
  {
    DerivedConn(dbAvailable && dns == Enabled, conn)
  }

  /** Under the intended rule an outage is reported once: a second check
      during the same outage reports nothing. */
  lemma {:induction false} IntendedReportsOncePerOutage(db1: bool, dns1: AlarmStatus, db2: bool, dns2: AlarmStatus, conn: AlarmStatus)
    requires !db1 || dns1 != Enabled
    requires !db2 || dns2 != Enabled
    ensures !IntendedConnCheck(db2, dns2, IntendedConnCheck(db1, dns1, conn).conn).reported
  {
    DerivedReportsOnlyOnEdge(db1 && dns1 == Enabled, db2 && dns2 == Enabled, conn);
  }

  /** Under the intended rule recovery re-arms the alarm: after a check with
      the connection up, the next outage is reported. */
  lemma IntendedRecoveryRearms(conn: AlarmStatus, db2: bool, dns2: AlarmStatus)
    requires !db2 || dns2 != Enabled
    ensures IntendedConnCheck(db2, dns2, IntendedConnCheck(true, Enabled, conn).conn).reported
  {
  }
}
