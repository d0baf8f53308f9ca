/** The tree of resources, as it grows while the configuration is read. */
module Tree {
  import opened Types
  import opened Simulator

  ghost predicate Named(c: Config) {
    && c.storage != NIL && c.storage !in c.components && NIL !in c.components
    && c.cloud in c.components && c.servers <= c.components.Keys
    && c.depth.Keys == c.components.Keys
    && c.parent.Keys == c.components.Keys - {c.cloud}
    && c.depth[c.cloud] == 0
    && (forall r :: r in c.components ==> c.depth[r] <= c.height)
  }

  // Every component hangs below the resource that lists it, and is listed by the one it hangs below.
  ghost predicate Listed(c: Config)
    requires Named(c)
  {
    forall r, x :: r in c.components && x in c.components[r] ==>
      x in c.parent && c.parent[x] == r && c.depth[x] == c.depth[r] + 1
  }

  ghost predicate Hung(c: Config)
    requires Named(c)
  {
    forall x :: x in c.parent ==> c.parent[x] in c.components && x in c.components[c.parent[x]]
  }

  // Everything that is required of a configuration except that it has a first server.
  ghost predicate IsTree(c: Config) {
    Named(c) && Listed(c) && Hung(c)
  }

  // The cloud and the storage; nothing has a delay.
  function Bare(cloud: UUID, storage: UUID): Config {
    Config(storage, cloud, NIL, {}, map[cloud := {}], map[], map[cloud := 0], 2, map[], map[], map[])
  }

  // One more component `x` below `r`.
  function Below(c: Config, r: UUID, x: UUID): Config
    requires r in c.components && r in c.depth
  {
    c.(components := c.components[r := c.components[r] + {x}][x := {}], parent := c.parent[x := r],
       depth := c.depth[x := c.depth[r] + 1])
  }

  // One more server of the data center `d`; the very first is where VMs go.
  function WithServer(c: Config, d: UUID, x: UUID, first: bool): Config
    requires d in c.components && d in c.depth
  {
    Below(c, d, x).(servers := c.servers + {x}, first := if first then x else c.first)
  }

  lemma BareIsTree(cloud: UUID, storage: UUID)
    requires cloud != NIL && storage != NIL && cloud != storage
    ensures IsTree(Bare(cloud, storage))
  {}

  lemma BelowNamed(c: Config, r: UUID, x: UUID)
    requires Named(c) && r in c.components && c.depth[r] < c.height && x !in c.components && x != NIL && x != c.storage
    ensures Named(Below(c, r, x))
    ensures Below(c, r, x).components.Keys == c.components.Keys + {x}
  {}

  lemma BelowListed(c: Config, r: UUID, x: UUID)
    requires Named(c) && Listed(c) && r in c.components && x !in c.components && Named(Below(c, r, x))
    ensures Listed(Below(c, r, x))
  {
    var c' := Below(c, r, x);
    forall u, y | u in c'.components && y in c'.components[u]
      ensures y in c'.parent && c'.parent[y] == u && c'.depth[y] == c'.depth[u] + 1
    {
      assert u != x;
      if y == x {
        assert x !in c.components[u] by {
          assert x in c.components[u] ==> x in c.parent;
        }
        assert u == r;
      } else {
        assert y in c.components[u];
      }
      hide Named, Listed;
    }
  }

  lemma BelowHung(c: Config, r: UUID, x: UUID)
    requires Named(c) && Hung(c) && r in c.components && x !in c.components && Named(Below(c, r, x))
    ensures Hung(Below(c, r, x))
  {
    var c' := Below(c, r, x);
    forall y | y in c'.parent
      ensures c'.parent[y] in c'.components && y in c'.components[c'.parent[y]]
    {
      if y != x {
        assert y in c.parent;
        assert c.parent[y] != x;
      }
    }
  }

  lemma BelowKeepsTree(c: Config, r: UUID, x: UUID)
    requires IsTree(c) && r in c.components && c.depth[r] < c.height && x !in c.components && x != NIL && x != c.storage
    ensures IsTree(Below(c, r, x))
  {
    hide Listed, Hung, Below;
    BelowNamed(c, r, x);
    BelowListed(c, r, x);
    BelowHung(c, r, x);
  }

  lemma ServerKeepsTree(c: Config, d: UUID, x: UUID, first: bool)
    requires IsTree(c) && d in c.components && c.depth[d] < c.height && x !in c.components && x != NIL && x != c.storage
    ensures IsTree(WithServer(c, d, x, first))
  {
    BelowKeepsTree(c, d, x);
    BelowNamed(c, d, x);
    Servers(Below(c, d, x), c.servers + {x}, if first then x else c.first);
    hide IsTree, Below;
  }

  lemma Servers(c: Config, servers: set<UUID>, first: UUID)
    requires IsTree(c) && servers <= c.components.Keys
    ensures IsTree(c.(servers := servers, first := first))
  {
    assert Listed(c.(servers := servers, first := first)) && Hung(c.(servers := servers, first := first));
  }

  // A tree with a first server is all the simulator asks of its configuration.
  lemma TreeIsWellFormed(c: Config)
    requires IsTree(c)
    ensures WellFormed(c) <==> c.first in c.servers
  {}
}
