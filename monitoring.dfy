/**
  The event sink (the printer monitoring system): one event per reported
  alarm, and a table that gives every `server + alarm` key a stable id that
  no other key shares.
 */
module Monitoring {
  import opened Alarms

  /** Ids are drawn from [0, IdRange). */
  const IdRange: nat := 1000000

  /** One recorded event: time, server, alarm kind and the event id of the
      (server, alarm) key. */
  datatype Event = Event(time: nat, server: string, alarm: string, id: int)

  /** The events without their ids, in the same order. */
  function Strip(es: seq<Event>): (r: seq<Report>)
    ensures |r| == |es|
    ensures forall i :: 0 <= i < |es| ==> r[i] == Report(es[i].time, es[i].server, es[i].alarm)
  {
    if es == [] then []
    else
      var last := es[|es| - 1];
      Strip(es[..|es| - 1]) + [Report(last.time, last.server, last.alarm)]
  }

  /** The set {0, ..., n - 1}, with its size. */
  function Below(n: nat): (r: set<int>)
    ensures |r| == n
    ensures forall x :: x in r <==> 0 <= x < n
  {
    if n == 0 then {} else Below(n - 1) + {n - 1}
  }

  lemma SubsetCard(a: set<int>, b: set<int>)
    requires a <= b
    ensures |a| <= |b|
  {
    var rest := b - a;
    assert b == a + rest && a * rest == {};
  }

  /** While fewer than IdRange ids are used, an unused id in range exists,
      so the id-drawing loop has something to find. */
  lemma FreeIdExists(used: set<int>)
    requires |used| < IdRange
    ensures exists id :: 0 <= id < IdRange && id !in used
  {
    var all := Below(IdRange);
    var missing := all - used;
    assert all == missing + all * used && missing * (all * used) == {};
    SubsetCard(all * used, used);
    var x :| x in missing;
    assert 0 <= x < IdRange && x !in used;
  }

  /** No two keys share an id. */
  ghost predicate Injective(m: map<string, int>) {
    forall k, k' :: k in m && k' in m && k != k' ==> m[k] != m[k']
  }

  /** Every event in `es` carries the id `ids` gives its `server + alarm`
      key. */
  ghost predicate KeyedBy(es: seq<Event>, ids: map<string, int>) {
    if es == [] then true
    else
      var last := es[|es| - 1];
      KeyedBy(es[..|es| - 1], ids) && last.server + last.alarm in ids && ids[last.server + last.alarm] == last.id
  }

  lemma {:induction false} KeyedByAt(es: seq<Event>, ids: map<string, int>, i: nat)
    requires KeyedBy(es, ids) && i < |es|
    ensures es[i].server + es[i].alarm in ids && ids[es[i].server + es[i].alarm] == es[i].id
    decreases |es|
  {
    if i < |es| - 1 {
      KeyedByAt(es[..|es| - 1], ids, i);
    }
  }

  /** Under an injective id table, two recorded events carry the same id
      exactly when their `server + alarm` keys are equal. */
  lemma EventIdsMatchKeys(es: seq<Event>, ids: map<string, int>, i: nat, j: nat)
    requires KeyedBy(es, ids) && Injective(ids)
    requires i < |es| && j < |es|
    ensures es[i].id == es[j].id <==> es[i].server + es[i].alarm == es[j].server + es[j].alarm
  {
    KeyedByAt(es, ids, i);
    KeyedByAt(es, ids, j);
  }

  /** Keeping every id keeps every event keyed. */
  lemma {:induction false} KeyedByGrows(es: seq<Event>, ids: map<string, int>, ids': map<string, int>)
    requires KeyedBy(es, ids)
    requires forall k :: k in ids ==> k in ids' && ids'[k] == ids[k]
    ensures KeyedBy(es, ids')
    decreases |es|
  {
    if es != [] {
      KeyedByGrows(es[..|es| - 1], ids, ids');
    }
  }

  /** `b` is `a` with zero or more events appended. */
  ghost predicate Appended(a: seq<Event>, b: seq<Event>)
    decreases |b|
  {
    a == b || (|b| > 0 && Appended(a, b[..|b| - 1]))
  }

  /** Appending keeps every earlier event in its place. */
  lemma {:induction false} AppendedPrefix(a: seq<Event>, b: seq<Event>)
    requires Appended(a, b)
    ensures |a| <= |b| && b[..|a|] == a
    decreases |b|
  {
    if a != b {
      AppendedPrefix(a, b[..|b| - 1]);
    }
  }

  lemma {:induction false} AppendedTrans(a: seq<Event>, b: seq<Event>, c: seq<Event>)
    requires Appended(a, b) && Appended(b, c)
    ensures Appended(a, c)
    decreases |c|
  {
    if b != c {
      AppendedTrans(a, b, c[..|c| - 1]);
    }
  }

  /** What a sink holds at one moment: its events, id table and used ids. */
  datatype Snapshot = Snapshot(events: seq<Event>, eventid: map<string, int>, usedIDs: set<int>)

  /** `s1` arises from `s0` by appending events, adding ids without
      changing any existing one, and using at most `n` more ids. */
  ghost predicate Grown(s0: Snapshot, s1: Snapshot, n: nat) {
    && Appended(s0.events, s1.events)
    && (forall k :: k in s0.eventid ==> k in s1.eventid && s1.eventid[k] == s0.eventid[k])
    && s0.usedIDs <= s1.usedIDs && |s1.usedIDs| <= |s0.usedIDs| + n
  }

  /** Two growth steps make one: the bounds on new ids add up. */
  lemma GrownTrans(s0: Snapshot, s1: Snapshot, s2: Snapshot, n: nat, m: nat)
    requires Grown(s0, s1, n) && Grown(s1, s2, m)
    ensures Grown(s0, s2, n + m)
  {
    AppendedTrans(s0.events, s1.events, s2.events);
  }

  /** Three growth steps make one: the bounds on new ids add up. */
  lemma GrownThree(s0: Snapshot, s1: Snapshot, s2: Snapshot, s3: Snapshot, a: nat, b: nat, c: nat)
    requires Grown(s0, s1, a) && Grown(s1, s2, b) && Grown(s2, s3, c)
    ensures Grown(s0, s3, a + b + c)
  {
    GrownTrans(s0, s1, s2, a, b);
    GrownTrans(s0, s2, s3, a + b, c);
  }

  /** Four growth steps of one id each make one step of four ids. */
  lemma GrownFour(s0: Snapshot, s1: Snapshot, s2: Snapshot, s3: Snapshot, s4: Snapshot)
    requires Grown(s0, s1, 1) && Grown(s1, s2, 1) && Grown(s2, s3, 1) && Grown(s3, s4, 1)
    ensures Grown(s0, s4, 4)
  {
    GrownTrans(s0, s1, s2, 1, 1);
    GrownTrans(s0, s2, s3, 2, 1);
    GrownTrans(s0, s3, s4, 3, 1);
  }

  class Sink {
    /** id of every `server + alarm` key seen so far */
    var eventid: map<string, int>
    /** every id handed out so far */
    var usedIDs: set<int>
    /** the events, oldest first */
    var events: seq<Event>

    ghost predicate Valid()
      reads this
    {
      && (forall k :: k in eventid ==> eventid[k] in usedIDs)
      && (forall id :: id in usedIDs ==> 0 <= id < IdRange)
      && Injective(eventid)
      && KeyedBy(events, eventid)
    }

    /** At least `n` more ids can be handed out. */
    predicate HasRoom(n: nat)
      reads this
    {
      |usedIDs| + n <= IdRange
    }

    /** The events recorded so far, without their ids. */
    function Reports(): seq<Report>
      reads this
    {
      Strip(events)
    }

    /** The current contents of the sink. */
    ghost function Snap(): Snapshot
      reads this
    {
      Snapshot(events, eventid, usedIDs)
    }

    /** Since the state `s`, the sink has only appended events, kept every
        id, and handed out at most `n` new ids. */
    ghost predicate Extends(s: Snapshot, n: nat)
      reads this
    {
      Grown(s, Snap(), n)
    }

    constructor ()
      ensures Valid() && events == [] && eventid == map[] && usedIDs == {}
    {
      eventid, usedIDs, events := map[], {}, [];
    }

    /** The id of key `server + alarm`: the one it already has, or else a
        fresh one drawn from [0, IdRange) and not used before. */
    method GenerateEventID(server: string, alarm: string) returns (id: int)
      requires Valid()
      requires server + alarm in eventid || HasRoom(1)
      modifies this`eventid, this`usedIDs
      ensures Valid()
      ensures server + alarm in eventid && id == eventid[server + alarm]
      ensures 0 <= id < IdRange
      ensures server + alarm in old(eventid) ==>
                id == old(eventid[server + alarm]) && eventid == old(eventid) && usedIDs == old(usedIDs)
      ensures server + alarm !in old(eventid) ==>
                id !in old(usedIDs) && eventid == old(eventid)[server + alarm := id]
                && usedIDs == old(usedIDs) + {id}
    {
      var key := server + alarm;
      if key in eventid {
        id := eventid[key];
        return;
      }
      FreeIdExists(usedIDs);
      var drawn :| 0 <= drawn < IdRange && drawn !in usedIDs;
      usedIDs := usedIDs + {drawn};
      eventid := eventid[key := drawn];
      id := drawn;
      KeyedByGrows(events, old(eventid), eventid);
    }

    /** Records one event for `alarm` on `server` at time `t`, carrying the
        key's id. */
    method HandleAlarm(server: string, alarm: string, t: nat)
      requires Valid() && (server + alarm in eventid || HasRoom(1))
      modifies this
      ensures Valid()
      ensures Extends(old(Snap()), 1)
      ensures |usedIDs| <= old(|usedIDs|) + 1
      ensures server + alarm in eventid
      ensures eventid == old(eventid)[server + alarm := eventid[server + alarm]]
      ensures server + alarm in old(eventid) ==> eventid == old(eventid) && usedIDs == old(usedIDs)
      ensures events == old(events) + [Event(t, server, alarm, eventid[server + alarm])]
      ensures Reports() == old(Reports()) + [Report(t, server, alarm)]
    {
      var id := GenerateEventID(server, alarm);
      ghost var before := events;
      events := events + [Event(t, server, alarm, id)];
      assert events[..|before|] == before;
      assert events[..|events| - 1] == before;
      assert Strip(events) == Strip(before) + [Report(t, server, alarm)];
    }
  }

  /** No reported kind ends with another one. */
  lemma KindsSuffixFree(k1: string, k2: string)
    requires IsReportedKind(k1) && IsReportedKind(k2) && |k1| < |k2|
    ensures k2[|k2| - |k1|..] != k1
  {
  }

  /** For the kinds the system reports, the concatenated key determines
      the (server, alarm) pair, so a key's id is the pair's id. */
  lemma {:induction false} ReportedKeysUnambiguous(s1: string, k1: string, s2: string, k2: string)
    requires IsReportedKind(k1) && IsReportedKind(k2)
    requires s1 + k1 == s2 + k2
    ensures s1 == s2 && k1 == k2
  {
    var w := s1 + k1;
    assert w[|s1|..] == k1 && w[|s2|..] == k2;
    if |k1| < |k2| {
      assert k2[|k2| - |k1|..] == w[|s1|..];
      KindsSuffixFree(k1, k2);
    } else if |k2| < |k1| {
      assert k1[|k1| - |k2|..] == w[|s2|..];
      KindsSuffixFree(k2, k1);
    } else {
      assert s1 == w[..|s1|] && s2 == w[..|s2|];
    }
  }

  /** On a fresh sink: asking twice for the same key yields the same id, and
      two keys get the same id exactly when they are the same string. */
  method FreshSinkIds(s1: string, a1: string, s2: string, a2: string) returns (id1: int, id2: int, again: int)
    ensures 0 <= id1 < IdRange && 0 <= id2 < IdRange
    ensures id1 == id2 <==> s1 + a1 == s2 + a2
    ensures again == id1
  {
    var mon := new Sink();
    id1 := mon.GenerateEventID(s1, a1);
    id2 := mon.GenerateEventID(s2, a2);
    again := mon.GenerateEventID(s1, a1);
  }

  /** Keys are plain concatenations: the pairs ("ab", "c") and ("a", "bc")
      share one id. */
  method ConcatenatedKeysShareId() returns (id1: int, id2: int)
    ensures id1 == id2
  {
    var mon := new Sink();
    id1 := mon.GenerateEventID("ab", "c");
    assert "ab" + "c" == "a" + "bc";
    id2 := mon.GenerateEventID("a", "bc");
  }
}
