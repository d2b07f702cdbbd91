/**
  The topology registry: three ordered lists of databases, backends and
  frontends sharing one monitoring system, and the node and edge lists an
  exporter draws from them.
 */
module Topology {
  import opened Alarms
  import opened Monitoring
  import opened Servers
  import opened Databases
  import opened Backends
  import opened Frontends

  /** One graph node; id, value and name all carry the entity's name. */
  datatype Node = Node(id: string, value: string, name: string)

  /** One dependency edge, from the dependent entity to its dependency. */
  datatype Edge = Edge(source: string, target: string)

  /** The node drawn for an entity called `name`. */
  function NodeOf(name: string): Node {
    Node(name, name, name)
  }

  function DbNames(ds: seq<Database>): (r: seq<string>)
    ensures |r| == |ds| && forall i :: 0 <= i < |ds| ==> r[i] == ds[i].base.name
  {
    seq(|ds|, i requires 0 <= i < |ds| => ds[i].base.name)
  }

  function BackendNames(bs: seq<Backend>): (r: seq<string>)
    ensures |r| == |bs| && forall i :: 0 <= i < |bs| ==> r[i] == bs[i].base.name
  {
    seq(|bs|, i requires 0 <= i < |bs| => bs[i].base.name)
  }

  function FrontendNames(fs: seq<Frontend>): (r: seq<string>)
    ensures |r| == |fs| && forall i :: 0 <= i < |fs| ==> r[i] == fs[i].base.name
  {
    seq(|fs|, i requires 0 <= i < |fs| => fs[i].base.name)
  }

  /** One node per name, in order. */
  function NodesOf(names: seq<string>): (r: seq<Node>)
    ensures |r| == |names| && forall i :: 0 <= i < |names| ==> r[i] == NodeOf(names[i])
  {
    seq(|names|, i requires 0 <= i < |names| => NodeOf(names[i]))
  }

  /** The node list: every database, then every backend, then every
      frontend, each in registration order, one node per entity. */
  function NodeList(ds: seq<Database>, bs: seq<Backend>, fs: seq<Frontend>): (r: seq<Node>)
    ensures |r| == |ds| + |bs| + |fs|
    ensures forall i :: 0 <= i < |ds| ==> r[i] == NodeOf(ds[i].base.name)
    ensures forall i :: 0 <= i < |bs| ==> r[|ds| + i] == NodeOf(bs[i].base.name)
    ensures forall i :: 0 <= i < |fs| ==> r[|ds| + |bs| + i] == NodeOf(fs[i].base.name)
  {
    NodesOf(DbNames(ds)) + NodesOf(BackendNames(bs)) + NodesOf(FrontendNames(fs))
  }

  /** The edge list: one edge per backend to its database, then one per
      frontend to its backend, each in registration order. */
  function EdgeList(bs: seq<Backend>, fs: seq<Frontend>): (r: seq<Edge>)
    ensures |r| == |bs| + |fs|
    ensures forall i :: 0 <= i < |bs| ==> r[i] == Edge(bs[i].base.name, bs[i].dbEngine.base.name)
    ensures forall i :: 0 <= i < |fs| ==> r[|bs| + i] == Edge(fs[i].base.name, fs[i].backend.base.name)
  {
    seq(|bs|, i requires 0 <= i < |bs| => Edge(bs[i].base.name, bs[i].dbEngine.base.name))
    + seq(|fs|, i requires 0 <= i < |fs| => Edge(fs[i].base.name, fs[i].backend.base.name))
  }

  /** The ids of a node list. */
  function Ids(ns: seq<Node>): set<string> {
    set n | n in ns :: n.id
  }

  lemma IdAt(ns: seq<Node>, k: nat)
    requires k < |ns|
    ensures ns[k].id in Ids(ns)
  {
    assert ns[k] in ns;
  }

  lemma DatabaseNamed(ds: seq<Database>, bs: seq<Backend>, fs: seq<Frontend>, j: nat)
    requires j < |ds|
    ensures ds[j].base.name in Ids(NodeList(ds, bs, fs))
  {
    IdAt(NodeList(ds, bs, fs), j);
  }

  lemma BackendNamed(ds: seq<Database>, bs: seq<Backend>, fs: seq<Frontend>, j: nat)
    requires j < |bs|
    ensures bs[j].base.name in Ids(NodeList(ds, bs, fs))
  {
    IdAt(NodeList(ds, bs, fs), |ds| + j);
  }

  lemma FrontendNamed(ds: seq<Database>, bs: seq<Backend>, fs: seq<Frontend>, j: nat)
    requires j < |fs|
    ensures fs[j].base.name in Ids(NodeList(ds, bs, fs))
  {
    IdAt(NodeList(ds, bs, fs), |ds| + |bs| + j);
  }

  /** When every backend's database and every frontend's backend is
      registered, both ends of every edge name a node. */
  lemma EdgesWithinNodes(ds: seq<Database>, bs: seq<Backend>, fs: seq<Frontend>)
    requires forall b :: b in bs ==> b.dbEngine in ds
    requires forall f :: f in fs ==> f.backend in bs
    ensures forall e :: e in EdgeList(bs, fs) ==> e.source in Ids(NodeList(ds, bs, fs)) && e.target in Ids(NodeList(ds, bs, fs))
  {
    var es := EdgeList(bs, fs);
    forall e | e in es
      ensures e.source in Ids(NodeList(ds, bs, fs)) && e.target in Ids(NodeList(ds, bs, fs))
    {
      var k :| 0 <= k < |es| && es[k] == e;
      if k < |bs| {
        assert bs[k] in bs;
        var j :| 0 <= j < |ds| && ds[j] == bs[k].dbEngine;
        BackendNamed(ds, bs, fs, k);
        DatabaseNamed(ds, bs, fs, j);
      } else {
        var i := k - |bs|;
        assert e == es[|bs| + i];
        assert fs[i] in fs;
        var j :| 0 <= j < |bs| && bs[j] == fs[i].backend;
        FrontendNamed(ds, bs, fs, i);
        BackendNamed(ds, bs, fs, j);
      }
    }
  }

  class Architecture {
    var dbs: seq<Database>
    var backends: seq<Backend>
    var frontends: seq<Frontend>
    /** the monitoring system every registered entity reports to */
    const mon: Sink

    /** An empty topology reporting to `mon`. */
    constructor (mon: Sink)
      ensures this.mon == mon && dbs == [] && backends == [] && frontends == []
    {
      this.mon := mon;
      dbs, backends, frontends := [], [], [];
    }

    method AddDB(db: Database)
      modifies this`dbs
      ensures dbs == old(dbs) + [db]
    {
      dbs := dbs + [db];
    }

    method AddBackend(backend: Backend)
      modifies this`backends
      ensures backends == old(backends) + [backend]
    {
      backends := backends + [backend];
    }

    method AddFrontend(frontend: Frontend)
      modifies this`frontends
      ensures frontends == old(frontends) + [frontend]
    {
      frontends := frontends + [frontend];
    }

    /** Builds a database on the shared monitoring system and registers it. */
    method NewDatabase(name: string) returns (d: Database)
      modifies this`dbs
      ensures fresh(d) && fresh(d.base) && d.base.name == name && d.base.mon == mon
      ensures d.base.Flags() == AllEnabled && d.dbEngineAlarm == Enabled
      ensures dbs == old(dbs) + [d]
    {
      d := new Database(name, mon);
      AddDB(d);
    }

    /** Builds a backend depending on `db` and registers it. */
    method NewBackend(name: string, db: Database) returns (b: Backend)
      modifies this`backends
      ensures fresh(b) && fresh(b.base) && b.base.name == name && b.base.mon == mon && b.dbEngine == db
      ensures b.base.Flags() == AllEnabled && b.procAlarm == Enabled && b.dbConnectionAlarm == Enabled
      ensures !b.dnsAvailable
      ensures backends == old(backends) + [b]
    {
      b := new Backend(name, db, mon);
      AddBackend(b);
    }

    /** Builds a frontend depending on `backend` and registers it. */
    method NewFrontend(name: string, backend: Backend) returns (f: Frontend)
      modifies this`frontends
      ensures fresh(f) && fresh(f.base) && f.base.name == name && f.base.mon == mon && f.backend == backend
      ensures f.base.Flags() == AllEnabled && f.procAlarm == Enabled && f.backendConnectionAlarm == Enabled
      ensures frontends == old(frontends) + [f]
    {
      f := new Frontend(name, backend, mon);
      AddFrontend(f);
    }

    /** Appends one node per name to `nodes`, name by name. */
    static method AppendNodes(nodes: seq<Node>, names: seq<string>) returns (r: seq<Node>)
      ensures r == nodes + NodesOf(names)
    {
      r := nodes;
      for i := 0 to |names|
        invariant r == nodes + NodesOf(names[..i])
      {
        assert names[..i + 1] == names[..i] + [names[i]];
        r := r + [NodeOf(names[i])];
      }
      assert names[..|names|] == names;
    }

    /** The node list of the exported graph, built by appending databases,
        then backends, then frontends. */
    method GraphNodes() returns (nodes: seq<Node>)
      ensures nodes == NodeList(dbs, backends, frontends)
    {
      nodes := AppendNodes([], DbNames(dbs));
      nodes := AppendNodes(nodes, BackendNames(backends));
      nodes := AppendNodes(nodes, FrontendNames(frontends));
    }

    /** The edge list of the exported graph, built by appending backend
        by backend and then frontend by frontend. */
    method GraphEdges() returns (edges: seq<Edge>)
      ensures edges == EdgeList(backends, frontends)
    {
      edges := [];
      for i := 0 to |backends|
        invariant |edges| == i
        invariant forall j :: 0 <= j < i ==> edges[j] == Edge(backends[j].base.name, backends[j].dbEngine.base.name)
      {
        edges := edges + [Edge(backends[i].base.name, backends[i].dbEngine.base.name)];
      }
      for i := 0 to |frontends|
        invariant |edges| == |backends| + i
        invariant forall j :: 0 <= j < |backends| ==> edges[j] == Edge(backends[j].base.name, backends[j].dbEngine.base.name)
        invariant forall j :: 0 <= j < i ==> edges[|backends| + j] == Edge(frontends[j].base.name, frontends[j].backend.base.name)
      {
        edges := edges + [Edge(frontends[i].base.name, frontends[i].backend.base.name)];
      }
      ghost var es := EdgeList(backends, frontends);
      forall k | |backends| <= k < |es|
        ensures edges[k] == es[k]
      {
        assert edges[|backends| + (k - |backends|)] == es[|backends| + (k - |backends|)];
      }
    }

    /** The node and edge lists of the exported graph. */
    method Graph() returns (nodes: seq<Node>, edges: seq<Edge>)
      ensures nodes == NodeList(dbs, backends, frontends)
      ensures edges == EdgeList(backends, frontends)
    {
      nodes := GraphNodes();
      edges := GraphEdges();
    }
  }
}
