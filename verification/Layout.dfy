/**
 What a configuration comes to, read off the list of data centers and servers itself. Handles are
 given out in the order of the list, from three on: a data center, then its servers. Each server
 has the memory it was configured with, its scheduler in its turn, and its place in the list of
 its data center; the first of all is where VMs go.
 */
module Layout {
  import opened Types
  import opened Simulator
  import opened VMActor
  import opened Worlds
  import Tree

  datatype ServerSpec = ServerSpec(name: string, ram: nat)

  datatype DataCenterSpec = DataCenterSpec(name: string, servers: seq<ServerSpec>)

  // ----- names -----

  function ServerNames(specs: seq<ServerSpec>): seq<string> {
    seq(|specs|, i requires 0 <= i < |specs| => specs[i].name)
  }

  // There is a server for VMs to go to.
  predicate Staffed(dcs: seq<DataCenterSpec>) {
    dcs != [] && dcs[0].servers != []
  }

  // Every name of the configuration, in the order it is registered.
  function NamesOf(dcs: seq<DataCenterSpec>): seq<string> {
    if dcs == [] then []
    else NamesOf(dcs[..|dcs| - 1]) + [dcs[|dcs| - 1].name] + ServerNames(dcs[|dcs| - 1].servers)
  }

  ghost predicate AllNew(taken: set<string>, names: seq<string>) {
    forall i :: 0 <= i < |names| ==> names[i] !in taken && forall j :: 0 <= j < i ==> names[j] != names[i]
  }

  ghost function With(taken: set<string>, names: seq<string>): set<string> {
    taken + set n | n in names
  }

  lemma OneNewName(taken: set<string>, names: seq<string>, n: string)
    ensures AllNew(taken, names + [n]) <==> AllNew(taken, names) && n !in With(taken, names)
    ensures With(taken, names + [n]) == With(taken, names) + {n}
  {
    var q := names + [n];
    assert forall i :: 0 <= i < |names| ==> q[i] == names[i];
    if AllNew(taken, q) {
      assert q[|names|] == n;
    }
  }

  lemma NewPrefix(taken: set<string>, a: seq<string>, b: seq<string>)
    requires AllNew(taken, a + b)
    ensures AllNew(taken, a)
  {
    assert forall i :: 0 <= i < |a| ==> (a + b)[i] == a[i];
  }

  // The cloud and its storage have names of their own.
  const FIXED_NAMES: set<string> := {"cloud-1", "vm-storage-1"}

  // ----- what a configuration comes to -----

  // The tree, the names with their handles, the next handle, each server with its memory, and what
  // else the actors hold: the memory, and the members they list.
  datatype Plan = Plan(config: Config, names: map<string, UUID>, next: UUID, machines: seq<(UUID, nat)>,
                       gears: map<UUID, Gear>)

  ghost function FirstPlan(): Plan {
    Plan(Tree.Bare(1, 2), map["cloud-1" := 1, "vm-storage-1" := 2], 3, [], map[1 := Members([]), 2 := NoGear])
  }

  // One member more in the list of `r`.
  ghost function Listing(gears: map<UUID, Gear>, r: UUID, n: UUID, gear: Gear): map<UUID, Gear> {
    (if r in gears && gears[r].Members? then gears[r := Members(gears[r].list + [n])] else gears)[n := gear]
  }

  ghost function PlusDataCenter(p: Plan, name: string): Plan {
    var c := p.config;
    p.(config := if c.cloud in c.components && c.cloud in c.depth then Tree.Below(c, c.cloud, p.next) else c,
       names := p.names[name := p.next], next := p.next + 1,
       gears := Listing(p.gears, c.cloud, p.next, Members([])))
  }

  ghost function PlusServer(p: Plan, d: UUID, spec: ServerSpec, first: bool): Plan {
    var c := p.config;
    Plan(if d in c.components && d in c.depth then Tree.WithServer(c, d, p.next, first) else c,
         p.names[spec.name := p.next], p.next + 1, p.machines + [(p.next, spec.ram)],
         Listing(p.gears, d, p.next, Memory(spec.ram)))
  }

  // The servers of the data center `d`; the first of the very first one is where VMs go.
  ghost function PlusServers(p: Plan, d: UUID, specs: seq<ServerSpec>, opening: bool): Plan {
    if specs == [] then p
    else PlusServer(PlusServers(p, d, specs[..|specs| - 1], opening), d, specs[|specs| - 1], opening && |specs| == 1)
  }

  ghost function PlusBranch(p: Plan, dc: DataCenterSpec, opening: bool): Plan {
    PlusServers(PlusDataCenter(p, dc.name), p.next, dc.servers, opening)
  }

  ghost function Planned(p: Plan, dcs: seq<DataCenterSpec>): Plan {
    if dcs == [] then p else PlusBranch(Planned(p, dcs[..|dcs| - 1]), dcs[|dcs| - 1], |dcs| == 1)
  }

  // ----- read off the list -----

  // The number of servers in the first `i` data centers.
  function ServersBefore(dcs: seq<DataCenterSpec>, i: nat): nat
    requires i <= |dcs|
  {
    if i == 0 then 0 else ServersBefore(dcs, i - 1) + |dcs[i - 1].servers|
  }

  function DataCenterHandle(dcs: seq<DataCenterSpec>, i: nat): UUID
    requires i <= |dcs|
  {
    3 + i + ServersBefore(dcs, i)
  }

  function ServerHandle(dcs: seq<DataCenterSpec>, i: nat, j: nat): UUID
    requires i < |dcs|
  {
    DataCenterHandle(dcs, i) + 1 + j
  }

  function Heads(dcs: seq<DataCenterSpec>): (q: seq<UUID>)
    ensures |q| == |dcs| && forall i :: 0 <= i < |q| ==> q[i] == DataCenterHandle(dcs, i)
  {
    seq(|dcs|, i requires 0 <= i < |dcs| => DataCenterHandle(dcs, i))
  }

  // `n` handles in a row.
  function Row(from: UUID, n: nat): (q: seq<UUID>)
    ensures |q| == n && forall j :: 0 <= j < n ==> q[j] == from + j
  {
    seq(n, j requires 0 <= j < n => from + j)
  }

  lemma RowMore(from: UUID, n: nat)
    ensures Row(from, n + 1) == Row(from, n) + [from + n]
    ensures Row(from, 0) == []
  {}

  // A data center goes by its name, belongs to the cloud, and lists its servers in order.
  ghost predicate DataCenterStands(p: Plan, dcs: seq<DataCenterSpec>, i: nat)
    requires i < |dcs|
  {
    var d := DataCenterHandle(dcs, i);
    && dcs[i].name in p.names && p.names[dcs[i].name] == d
    && d in p.config.components && d in p.config.parent && p.config.parent[d] == 1
    && d in p.gears && p.gears[d] == Members(Row(d + 1, |dcs[i].servers|))
  }

  // A server goes by its name, belongs to its data center, and has its memory and its scheduler.
  ghost predicate ServerStands(p: Plan, dcs: seq<DataCenterSpec>, i: nat, j: nat)
    requires i < |dcs| && j < |dcs[i].servers|
  {
    var h, k := ServerHandle(dcs, i, j), ServersBefore(dcs, i) + j;
    && dcs[i].servers[j].name in p.names && p.names[dcs[i].servers[j].name] == h
    && h in p.config.servers && h in p.config.parent && p.config.parent[h] == DataCenterHandle(dcs, i)
    && h in p.gears && p.gears[h] == Memory(dcs[i].servers[j].ram)
    && k < |p.machines| && p.machines[k] == (h, dcs[i].servers[j].ram)
  }

  ghost predicate AllStand(p: Plan, dcs: seq<DataCenterSpec>) {
    && (forall i :: 0 <= i < |dcs| ==> DataCenterStands(p, dcs, i))
    && forall i, j :: 0 <= i < |dcs| && 0 <= j < |dcs[i].servers| ==> ServerStands(p, dcs, i, j)
  }

  // And there is nothing else.
  ghost predicate NothingElse(p: Plan, dcs: seq<DataCenterSpec>) {
    && p.next == DataCenterHandle(dcs, |dcs|) && |p.machines| == ServersBefore(dcs, |dcs|)
    && p.names.Keys == FIXED_NAMES + (set n | n in NamesOf(dcs))
    && p.config.cloud == 1 && p.config.storage == 2
    && p.config.startup == p.config.shutdown == map[] && p.config.vmDelays == map[]
    && 1 in p.config.components && 1 in p.config.depth && 1 !in p.config.parent
    && (forall u :: u in p.config.depth <==> u in p.config.components)
    && (forall u :: u in p.config.components ==> u < p.next)
    && (forall u :: u in p.config.servers ==> 3 < u < p.next)
    && (forall u :: u in p.gears ==> u < p.next)
    && 1 in p.gears && p.gears[1] == Members(Heads(dcs))
    && (Staffed(dcs) ==> p.config.first == ServerHandle(dcs, 0, 0))
    && "cloud-1" in p.names && p.names["cloud-1"] == 1 && "vm-storage-1" in p.names && p.names["vm-storage-1"] == 2
  }

  ghost predicate LaidOut(p: Plan, dcs: seq<DataCenterSpec>) {
    AllStand(p, dcs) && NothingElse(p, dcs)
  }

  // ----- counting -----

  lemma {:induction false} SameBefore(dcs: seq<DataCenterSpec>, more: seq<DataCenterSpec>, i: nat)
    requires i <= |dcs| && i <= |more| && forall k :: 0 <= k < i ==> dcs[k] == more[k]
    ensures ServersBefore(dcs, i) == ServersBefore(more, i)
  {
    if i > 0 {
      SameBefore(dcs, more, i - 1);
    }
  }

  lemma {:induction false} HandlesRise(dcs: seq<DataCenterSpec>, i: nat, k: nat)
    requires i < k <= |dcs|
    ensures DataCenterHandle(dcs, i) + |dcs[i].servers| < DataCenterHandle(dcs, k)
    ensures ServersBefore(dcs, i) + |dcs[i].servers| <= ServersBefore(dcs, k)
  {
    if i + 1 < k {
      HandlesRise(dcs, i, k - 1);
    }
  }

  // ----- one more data center -----

  lemma OtherListed(gears: map<UUID, Gear>, r: UUID, n: UUID, gear: Gear, u: UUID)
    requires u != r && u != n
    ensures u in Listing(gears, r, n, gear) <==> u in gears
    ensures u in gears ==> Listing(gears, r, n, gear)[u] == gears[u]
  {}

  lemma TheListed(gears: map<UUID, Gear>, r: UUID, n: UUID, gear: Gear)
    requires r in gears && gears[r].Members? && r != n
    ensures Listing(gears, r, n, gear).Keys == gears.Keys + {n} && Listing(gears, r, n, gear)[n] == gear
    ensures Listing(gears, r, n, gear)[r] == Members(gears[r].list + [n])
  {}

  lemma WithDataCenter(dcs: seq<DataCenterSpec>, name: string)
    ensures var more := dcs + [DataCenterSpec(name, [])];
            && NamesOf(more) == NamesOf(dcs) + [name]
            && DataCenterHandle(more, |dcs|) == DataCenterHandle(dcs, |dcs|)
            && DataCenterHandle(more, |more|) == DataCenterHandle(dcs, |dcs|) + 1
            && ServersBefore(more, |more|) == ServersBefore(dcs, |dcs|)
            && (forall i :: 0 <= i <= |dcs| ==> ServersBefore(more, i) == ServersBefore(dcs, i))
            && Heads(more) == Heads(dcs) + [DataCenterHandle(dcs, |dcs|)]
  {
    var more := dcs + [DataCenterSpec(name, [])];
    forall i | 0 <= i <= |dcs|
      ensures ServersBefore(more, i) == ServersBefore(dcs, i)
    {
      SameBefore(more, dcs, i);
    }
    assert more[..|dcs|] == dcs;
    assert forall i :: 0 <= i < |more| ==> Heads(more)[i] == (Heads(dcs) + [DataCenterHandle(dcs, |dcs|)])[i];
    assert ServerNames([]) == [];
    assert NamesOf(more) == NamesOf(dcs) + [name] + [];
  }

  lemma ItStands(p: Plan, dcs: seq<DataCenterSpec>, i: nat)
    requires LaidOut(p, dcs) && i < |dcs|
    ensures DataCenterStands(p, dcs, i)
  {
    hide DataCenterStands, ServerStands;
  }

  lemma ServerIsThere(p: Plan, dcs: seq<DataCenterSpec>, i: nat, j: nat)
    requires LaidOut(p, dcs) && i < |dcs| && j < |dcs[i].servers|
    ensures ServerStands(p, dcs, i, j)
  {
    hide DataCenterStands, ServerStands, NothingElse;
  }

  // What is not told of the handles and the machines one by one.
  lemma IsNext(p: Plan, dcs: seq<DataCenterSpec>)
    requires LaidOut(p, dcs)
    ensures p.next == DataCenterHandle(dcs, |dcs|) && |p.machines| == ServersBefore(dcs, |dcs|)
    ensures p.config.cloud == 1 && 1 in p.config.components && 1 in p.config.depth
  {
    hide AllStand;
  }

  lemma OldDataCenter(p: Plan, dcs: seq<DataCenterSpec>, name: string, i: nat)
    requires LaidOut(p, dcs) && name !in p.names && i < |dcs|
    ensures DataCenterStands(PlusDataCenter(p, name), dcs + [DataCenterSpec(name, [])], i)
  {
    hide LaidOut, NothingElse, AllStand, ServersBefore, NamesOf, Heads, Row, Listing;
    WithDataCenter(dcs, name);
    HandlesRise(dcs, i, |dcs|);
    ItStands(p, dcs, i);
    IsNext(p, dcs);
    OtherListed(p.gears, 1, p.next, Members([]), DataCenterHandle(dcs, i));
  }

  lemma OldServer(p: Plan, dcs: seq<DataCenterSpec>, name: string, i: nat, j: nat)
    requires LaidOut(p, dcs) && name !in p.names && i < |dcs| && j < |dcs[i].servers|
    ensures ServerStands(PlusDataCenter(p, name), dcs + [DataCenterSpec(name, [])], i, j)
  {
    hide LaidOut, NothingElse, AllStand, ServersBefore, NamesOf, Heads, Row, Listing;
    WithDataCenter(dcs, name);
    HandlesRise(dcs, i, |dcs|);
    ServerIsThere(p, dcs, i, j);
    IsNext(p, dcs);
    OtherListed(p.gears, 1, p.next, Members([]), ServerHandle(dcs, i, j));
  }

  lemma DataCenterLaidOut(p: Plan, dcs: seq<DataCenterSpec>, name: string)
    requires LaidOut(p, dcs) && name !in p.names
    ensures LaidOut(PlusDataCenter(p, name), dcs + [DataCenterSpec(name, [])])
  {
    hide DataCenterStands, ServerStands, ServersBefore, NamesOf;
    var more, q := dcs + [DataCenterSpec(name, [])], PlusDataCenter(p, name);
    WithDataCenter(dcs, name);
    NewDataCenter(p, dcs, name);
    forall i | 0 <= i < |more|
      ensures DataCenterStands(q, more, i)
    {
      if i < |dcs| {
        OldDataCenter(p, dcs, name, i);
      }
    }
    forall i, j | 0 <= i < |more| && 0 <= j < |more[i].servers|
      ensures ServerStands(q, more, i, j)
    {
      OldServer(p, dcs, name, i, j);
    }
    DataCenterOnly(p, dcs, name);
  }

  lemma NewDataCenter(p: Plan, dcs: seq<DataCenterSpec>, name: string)
    requires LaidOut(p, dcs) && name !in p.names
    ensures DataCenterStands(PlusDataCenter(p, name), dcs + [DataCenterSpec(name, [])], |dcs|)
  {
    hide AllStand, NamesOf, ServersBefore, Row, Heads;
    WithDataCenter(dcs, name);
    RowMore(p.next + 1, 0);
    TheListed(p.gears, 1, p.next, Members([]));
    hide Listing;
  }

  lemma MoreNames(names: seq<string>, name: string)
    ensures (set n | n in names + [name]) == (set n | n in names) + {name}
  {}

  lemma SameStaff(dcs: seq<DataCenterSpec>, name: string)
    ensures Staffed(dcs + [DataCenterSpec(name, [])]) <==> Staffed(dcs)
  {}

  lemma DataCenterOnly(p: Plan, dcs: seq<DataCenterSpec>, name: string)
    requires NothingElse(p, dcs) && name !in p.names
    ensures NothingElse(PlusDataCenter(p, name), dcs + [DataCenterSpec(name, [])])
  {
    hide NamesOf, ServersBefore, Heads;
    WithDataCenter(dcs, name);
    MoreNames(NamesOf(dcs), name);
    SameStaff(dcs, name);
    TheListed(p.gears, 1, p.next, Members([]));
    hide Listing;
  }

  // ----- one more server -----

  // The data centers `init`, and one more with the servers `ss`.
  function Branch(init: seq<DataCenterSpec>, name: string, ss: seq<ServerSpec>): seq<DataCenterSpec> {
    init + [DataCenterSpec(name, ss)]
  }

  lemma ServerNamesMore(ss: seq<ServerSpec>, spec: ServerSpec)
    ensures ServerNames(ss + [spec]) == ServerNames(ss) + [spec.name]
  {}

  lemma WithOneServer(init: seq<DataCenterSpec>, name: string, ss: seq<ServerSpec>, spec: ServerSpec)
    ensures var a, b := Branch(init, name, ss), Branch(init, name, ss + [spec]);
            && |a| == |b| == |init| + 1
            && NamesOf(b) == NamesOf(a) + [spec.name]
            && DataCenterHandle(b, |b|) == DataCenterHandle(a, |a|) + 1
            && DataCenterHandle(a, |a|) == DataCenterHandle(a, |init|) + 1 + |ss|
            && ServersBefore(b, |b|) == ServersBefore(a, |a|) + 1
            && ServersBefore(a, |a|) == ServersBefore(a, |init|) + |ss|
            && (forall i :: 0 <= i <= |init| ==> ServersBefore(b, i) == ServersBefore(a, i))
            && Heads(b) == Heads(a)
            && (Staffed(b) <==> Staffed(a) || init == [])
  {
    var a, b := Branch(init, name, ss), Branch(init, name, ss + [spec]);
    forall i | 0 <= i <= |init|
      ensures ServersBefore(b, i) == ServersBefore(a, i)
    {
      SameBefore(b, a, i);
    }
    assert a[..|init|] == init == b[..|init|];
    ServerNamesMore(ss, spec);
    assert ServersBefore(b, |init| + 1) == ServersBefore(b, |init|) + |ss| + 1;
    assert ServersBefore(a, |init| + 1) == ServersBefore(a, |init|) + |ss|;
    assert NamesOf(init) + [name] + (ServerNames(ss) + [spec.name]) == NamesOf(init) + [name] + ServerNames(ss) + [spec.name];
    assert forall i :: 0 <= i < |a| ==> Heads(b)[i] == Heads(a)[i];
  }

  // A plan as far as the servers `ss` of the last data center, and with one server more.
  ghost function PlusOne(p: Plan, init: seq<DataCenterSpec>, name: string, ss: seq<ServerSpec>, spec: ServerSpec): Plan {
    PlusServer(p, DataCenterHandle(Branch(init, name, ss), |init|), spec, init == [] && ss == [])
  }

  // Where the next server goes.
  lemma LastStands(p: Plan, init: seq<DataCenterSpec>, name: string, ss: seq<ServerSpec>)
    requires LaidOut(p, Branch(init, name, ss))
    ensures var a := Branch(init, name, ss);
            var d := DataCenterHandle(a, |init|);
            && NothingElse(p, a) && d in p.config.components && d in p.config.depth && d != 1 && d < p.next
            && d in p.gears && p.gears[d].Members?
  {
    hide ServersBefore, NamesOf, ServerStands, Heads, Row;
    assert DataCenterStands(p, Branch(init, name, ss), |init|);
  }

  lemma DataCenterBefore(p: Plan, init: seq<DataCenterSpec>, name: string, ss: seq<ServerSpec>, spec: ServerSpec, i: nat)
    requires LaidOut(p, Branch(init, name, ss)) && spec.name !in p.names && i < |init|
    ensures DataCenterStands(PlusOne(p, init, name, ss, spec), Branch(init, name, ss + [spec]), i)
  {
    hide LaidOut, NothingElse, AllStand, ServersBefore, NamesOf, Heads, Row, Listing;
    var a := Branch(init, name, ss);
    LastStands(p, init, name, ss);
    WithOneServer(init, name, ss, spec);
    HandlesRise(a, i, |init|);
    ItStands(p, a, i);
    IsNext(p, a);
    OtherListed(p.gears, DataCenterHandle(a, |init|), p.next, Memory(spec.ram), DataCenterHandle(a, i));
  }

  lemma LastDataCenter(p: Plan, init: seq<DataCenterSpec>, name: string, ss: seq<ServerSpec>, spec: ServerSpec)
    requires LaidOut(p, Branch(init, name, ss)) && spec.name !in p.names
    ensures DataCenterStands(PlusOne(p, init, name, ss, spec), Branch(init, name, ss + [spec]), |init|)
  {
    hide LaidOut, NothingElse, AllStand, ServersBefore, NamesOf, Heads, Row, Listing;
    var a := Branch(init, name, ss);
    LastStands(p, init, name, ss);
    WithOneServer(init, name, ss, spec);
    ItStands(p, a, |init|);
    RowMore(DataCenterHandle(a, |init|) + 1, |ss|);
    TheListed(p.gears, DataCenterHandle(a, |init|), p.next, Memory(spec.ram));
    IsNext(p, a);
  }

  lemma ServerBefore(p: Plan, init: seq<DataCenterSpec>, name: string, ss: seq<ServerSpec>, spec: ServerSpec, i: nat, j: nat)
    requires LaidOut(p, Branch(init, name, ss)) && spec.name !in p.names
    requires i <= |init| && j < |Branch(init, name, ss)[i].servers|
    ensures ServerStands(PlusOne(p, init, name, ss, spec), Branch(init, name, ss + [spec]), i, j)
  {
    hide LaidOut, NothingElse, AllStand, ServersBefore, NamesOf, Heads, Row, Listing;
    var a, d := Branch(init, name, ss), DataCenterHandle(Branch(init, name, ss), |init|);
    LastStands(p, init, name, ss);
    WithOneServer(init, name, ss, spec);
    HandlesRise(a, i, |a|);
    ServerIsThere(p, a, i, j);
    NotTheLast(p, init, name, ss, i, j);
    IsNext(p, a);
    OtherListed(p.gears, d, p.next, Memory(spec.ram), ServerHandle(a, i, j));
  }

  // No server has the handle of the last data center.
  lemma NotTheLast(p: Plan, init: seq<DataCenterSpec>, name: string, ss: seq<ServerSpec>, i: nat, j: nat)
    requires i <= |init| && j < |Branch(init, name, ss)[i].servers|
    ensures ServerHandle(Branch(init, name, ss), i, j) != DataCenterHandle(Branch(init, name, ss), |init|)
  {
    if i < |init| {
      HandlesRise(Branch(init, name, ss), i, |init|);
    }
  }

  lemma NewServer(p: Plan, init: seq<DataCenterSpec>, name: string, ss: seq<ServerSpec>, spec: ServerSpec)
    requires LaidOut(p, Branch(init, name, ss)) && spec.name !in p.names
    ensures ServerStands(PlusOne(p, init, name, ss, spec), Branch(init, name, ss + [spec]), |init|, |ss|)
  {
    var a, d := Branch(init, name, ss), DataCenterHandle(Branch(init, name, ss), |init|);
    WithOneServer(init, name, ss, spec);
    assert DataCenterStands(p, a, |init|);
    hide ServersBefore, NamesOf, Heads, Row, AllStand;
    TheListed(p.gears, d, p.next, Memory(spec.ram));
    hide Listing;
  }

  lemma ServerOnly(p: Plan, init: seq<DataCenterSpec>, name: string, ss: seq<ServerSpec>, spec: ServerSpec)
    requires LaidOut(p, Branch(init, name, ss)) && spec.name !in p.names
    ensures NothingElse(PlusOne(p, init, name, ss, spec), Branch(init, name, ss + [spec]))
  {
    hide LaidOut, ServersBefore, NamesOf, Heads, Row, Listing, Staffed;
    var a, d := Branch(init, name, ss), DataCenterHandle(Branch(init, name, ss), |init|);
    LastStands(p, init, name, ss);
    WithOneServer(init, name, ss, spec);
    MoreNames(NamesOf(a), spec.name);
    OtherListed(p.gears, d, p.next, Memory(spec.ram), 1);
    TheListed(p.gears, d, p.next, Memory(spec.ram));
    FirstServer(init, name, ss, spec);
  }

  lemma FirstServer(init: seq<DataCenterSpec>, name: string, ss: seq<ServerSpec>, spec: ServerSpec)
    ensures var a, b := Branch(init, name, ss), Branch(init, name, ss + [spec]);
            && ServerHandle(b, 0, 0) == ServerHandle(a, 0, 0)
            && (init == [] && ss == [] ==> ServerHandle(b, 0, 0) == DataCenterHandle(a, |a|))
            && (Staffed(b) ==> Staffed(a) || (init == [] && ss == []))
  {
    WithOneServer(init, name, ss, spec);
  }

  lemma ServerLaidOut(p: Plan, init: seq<DataCenterSpec>, name: string, ss: seq<ServerSpec>, spec: ServerSpec)
    requires LaidOut(p, Branch(init, name, ss)) && spec.name !in p.names
    ensures LaidOut(PlusOne(p, init, name, ss, spec), Branch(init, name, ss + [spec]))
  {
    hide DataCenterStands, ServerStands, NothingElse, LaidOut, PlusOne;
    var b, q := Branch(init, name, ss + [spec]), PlusOne(p, init, name, ss, spec);
    forall i | 0 <= i < |b|
      ensures DataCenterStands(q, b, i)
    {
      if i < |init| {
        DataCenterBefore(p, init, name, ss, spec, i);
      } else {
        LastDataCenter(p, init, name, ss, spec);
      }
    }
    forall i, j | 0 <= i < |b| && 0 <= j < |b[i].servers|
      ensures ServerStands(q, b, i, j)
    {
      if i == |init| && j == |ss| {
        NewServer(p, init, name, ss, spec);
      } else {
        ServerBefore(p, init, name, ss, spec, i, j);
      }
    }
    ServerOnly(p, init, name, ss, spec);
    AllTogether(q, b);
  }

  lemma AllTogether(p: Plan, dcs: seq<DataCenterSpec>)
    requires AllStand(p, dcs) && NothingElse(p, dcs)
    ensures LaidOut(p, dcs)
  {
    hide AllStand, NothingElse;
  }

  // ----- the whole configuration -----

  lemma {:induction false} ServersLaidOut(p: Plan, init: seq<DataCenterSpec>, name: string, ss: seq<ServerSpec>)
    requires LaidOut(p, Branch(init, name, [])) && AllNew(FIXED_NAMES, NamesOf(Branch(init, name, ss)))
    ensures LaidOut(PlusServers(p, DataCenterHandle(init, |init|), ss, init == []), Branch(init, name, ss))
  {
    hide LaidOut, AllNew, NamesOf, PlusServer;
    if ss != [] {
      var before, last := ss[..|ss| - 1], ss[|ss| - 1];
      assert ss == before + [last];
      WithOneServer(init, name, before, last);
      OneNewName(FIXED_NAMES, NamesOf(Branch(init, name, before)), last.name);
      ServersLaidOut(p, init, name, before);
      var q := PlusServers(p, DataCenterHandle(init, |init|), before, init == []);
      SameBefore(Branch(init, name, before), init, |init|);
      assert last.name !in q.names by { NamesTaken(q, Branch(init, name, before), last.name); }
      ServerLaidOut(q, init, name, before, last);
    }
  }

  lemma NamesTaken(p: Plan, dcs: seq<DataCenterSpec>, name: string)
    requires LaidOut(p, dcs)
    ensures name in p.names <==> name in With(FIXED_NAMES, NamesOf(dcs))
  {
    hide AllStand, NamesOf;
  }

  lemma EmptyLaidOut()
    ensures LaidOut(FirstPlan(), [])
  {
    assert Heads([]) == [];
    assert (set n | n in NamesOf([])) == {};
  }

  // With distinct names every data center and every server is where the list says, with the memory
  // the list says, and there is nothing else.
  lemma {:induction false} ConfigurationLaidOut(dcs: seq<DataCenterSpec>)
    requires AllNew(FIXED_NAMES, NamesOf(dcs))
    ensures LaidOut(Planned(FirstPlan(), dcs), dcs)
  {
    hide LaidOut, AllNew, NamesOf, PlusServers, PlusDataCenter;
    if dcs == [] {
      EmptyLaidOut();
    } else {
      var init, dc := dcs[..|dcs| - 1], dcs[|dcs| - 1];
      assert dcs == Branch(init, dc.name, dc.servers);
      BranchNew(init, dc);
      ConfigurationLaidOut(init);
      var p := Planned(FirstPlan(), init);
      assert dc.name !in p.names by { NamesTaken(p, init, dc.name); }
      DataCenterLaidOut(p, init, dc.name);
      IsNext(p, init);
      ServersLaidOut(PlusDataCenter(p, dc.name), init, dc.name, dc.servers);
    }
  }

  lemma BranchNew(init: seq<DataCenterSpec>, dc: DataCenterSpec)
    requires AllNew(FIXED_NAMES, NamesOf(Branch(init, dc.name, dc.servers)))
    ensures AllNew(FIXED_NAMES, NamesOf(init)) && dc.name !in With(FIXED_NAMES, NamesOf(init))
  {
    var all := Branch(init, dc.name, dc.servers);
    assert all[..|init|] == init;
    assert NamesOf(all) == (NamesOf(init) + [dc.name]) + ServerNames(dc.servers);
    hide NamesOf, AllNew, With;
    NewPrefix(FIXED_NAMES, NamesOf(init) + [dc.name], ServerNames(dc.servers));
    OneNewName(FIXED_NAMES, NamesOf(init), dc.name);
  }

  lemma TheCloud(p: Plan, dcs: seq<DataCenterSpec>)
    requires LaidOut(p, dcs)
    ensures 1 in p.gears && p.gears[1] == Members(Heads(dcs))
    ensures Staffed(dcs) ==> p.config.first == ServerHandle(dcs, 0, 0)
  {
    hide AllStand, Heads;
  }

  // The same by name, for one server.
  lemma ServerByName(dcs: seq<DataCenterSpec>, i: nat, j: nat)
    requires AllNew(FIXED_NAMES, NamesOf(dcs)) && i < |dcs| && j < |dcs[i].servers|
    ensures var p := Planned(FirstPlan(), dcs);
            && dcs[i].name in p.names && dcs[i].servers[j].name in p.names
            && var d, h, ram := p.names[dcs[i].name], p.names[dcs[i].servers[j].name], dcs[i].servers[j].ram;
            && h in p.config.servers && h in p.config.parent && p.config.parent[h] == d
            && h in p.gears && p.gears[h] == Memory(ram)
            && 1 in p.gears && p.gears[1].Members? && i < |p.gears[1].list| && p.gears[1].list[i] == d
            && d in p.gears && p.gears[d].Members? && j < |p.gears[d].list| && p.gears[d].list[j] == h
            && ServersBefore(dcs, i) + j < |p.machines| && p.machines[ServersBefore(dcs, i) + j] == (h, ram)
            && (i == 0 && j == 0 ==> p.config.first == h)
  {
    hide Planned, FirstPlan, AllNew, NamesOf, LaidOut, ServersBefore, Row, Heads, AllStand, NothingElse;
    var p := Planned(FirstPlan(), dcs);
    ConfigurationLaidOut(dcs);
    ItStands(p, dcs, i);
    ServerIsThere(p, dcs, i, j);
    TheCloud(p, dcs);
    assert j == 0 ==> Row(DataCenterHandle(dcs, i) + 1, |dcs[i].servers|)[j] == ServerHandle(dcs, i, j);
  }

  // ----- the tree -----

  // A tree over handles given out already.
  ghost predicate Growing(p: Plan) {
    && Tree.IsTree(p.config) && p.config.height == 2 && p.config.storage < p.next && p.next > NIL
    && forall u :: u in p.config.components ==> u < p.next
  }

  lemma IsTreeFacts(c: Config)
    requires Tree.IsTree(c)
    ensures c.cloud in c.components && c.depth.Keys == c.components.Keys && c.depth[c.cloud] == 0 && c.storage !in c.components
  {
    hide Tree.Listed, Tree.Hung;
  }

  lemma DataCenterGrows(p: Plan, name: string)
    requires Growing(p)
    ensures var q := PlusDataCenter(p, name);
            && Growing(q) && p.next in q.config.components && q.config.depth[p.next] == 1 && q.config.servers == p.config.servers
  {
    hide Tree.IsTree;
    IsTreeFacts(p.config);
    Tree.BelowKeepsTree(p.config, p.config.cloud, p.next);
  }

  lemma ServerGrows(p: Plan, d: UUID, spec: ServerSpec, first: bool)
    requires Growing(p) && d in p.config.components && p.config.depth[d] == 1
    ensures var q := PlusServer(p, d, spec, first);
            && Growing(q) && d in q.config.components && q.config.depth[d] == 1
  {
    hide Tree.IsTree;
    IsTreeFacts(p.config);
    Tree.ServerKeepsTree(p.config, d, p.next, first);
  }

  lemma {:induction false} ServersGrow(p: Plan, d: UUID, specs: seq<ServerSpec>, opening: bool)
    requires Growing(p) && d in p.config.components && p.config.depth[d] == 1
    ensures var q := PlusServers(p, d, specs, opening);
            && Growing(q) && d in q.config.components && q.config.depth[d] == 1
  {
    hide Growing, PlusServer;
    if specs != [] {
      ServersGrow(p, d, specs[..|specs| - 1], opening);
      var before := PlusServers(p, d, specs[..|specs| - 1], opening);
      ServerGrows(before, d, specs[|specs| - 1], opening && |specs| == 1);
    }
  }

  lemma {:induction false} ConfigurationGrows(dcs: seq<DataCenterSpec>)
    ensures Growing(Planned(FirstPlan(), dcs))
  {
    if dcs == [] {
      Tree.BareIsTree(1, 2);
    } else {
      hide Growing, PlusServers, PlusDataCenter;
      var init, dc := dcs[..|dcs| - 1], dcs[|dcs| - 1];
      ConfigurationGrows(init);
      var p := Planned(FirstPlan(), init);
      DataCenterGrows(p, dc.name);
      ServersGrow(PlusDataCenter(p, dc.name), p.next, dc.servers, |dcs| == 1);
    }
  }

  // With a server for VMs to go to the configuration is well-formed.
  lemma StaffedIsWellFormed(dcs: seq<DataCenterSpec>)
    requires AllNew(FIXED_NAMES, NamesOf(dcs)) && Staffed(dcs)
    ensures var p := Planned(FirstPlan(), dcs);
            && WellFormed(p.config) && p.config.storage < p.next && forall r :: r in p.config.components ==> r < p.next
  {
    hide Planned, AllNew, NamesOf, LaidOut, Tree.IsTree, WellFormed;
    var p := Planned(FirstPlan(), dcs);
    ConfigurationGrows(dcs);
    ConfigurationLaidOut(dcs);
    TheCloud(p, dcs);
    ServerIsThere(p, dcs, 0, 0);
    Tree.TreeIsWellFormed(p.config);
  }
}
