/** Cluster configurations of a bucket: revisions, nodes and their addresses, and which ones are accepted. */
module Configuration {
  import opened Options

  datatype Alternate = Alternate(hostname: string, plain: Option<nat>, tls: Option<nat>)

  /** A node, with its key-value ports. */
  datatype Node = Node(hostname: string, plain: Option<nat>, tls: Option<nat>, alt: map<string, Alternate>)

  datatype Revision = Revision(epoch: Option<int>, rev: Option<int>)

  datatype Config = Config(revision: Revision, nodes: seq<Node>, vbmap: Option<seq<seq<int>>>, force: bool)

  /** The options of the client that matter here. */
  datatype Client = Client(network: string, tls: bool, lazy: bool)

  // ---- addresses ----

  datatype Address = Address(host: string, port: nat)

  function PortOf(port: Option<nat>): nat {
    if port.Some? then port.value else 0
  }

  /** Where this client reaches the key-value service of a node; port 0 says that there is none. */
  function AddressOf(c: Client, n: Node): Address {
    if c.network == "default" || c.network !in n.alt then
      Address(n.hostname, PortOf(if c.tls then n.tls else n.plain))
    else
      var a := n.alt[c.network];
      Address(a.hostname, PortOf(if c.tls then a.tls else a.plain))
  }

  /** One host and one port decide: those of the network if the node has them, of the transport in use. */
  lemma AddressReads(c: Client, n: Node, a: Alternate, p: Option<nat>)
    ensures c.network != "default" ==>
              AddressOf(c, n.(alt := n.alt[c.network := a])) == AddressOf(c, Node(a.hostname, a.plain, a.tls, map[]))
    ensures AddressOf(c, n.(alt := map[])) == AddressOf(c.(network := "default"), n)
    ensures AddressOf(c, n.(alt := map[])).host == n.hostname
    ensures AddressOf(c, n) == AddressOf(c, if c.tls then n.(plain := p) else n.(tls := p))
    ensures AddressOf(c, Node(n.hostname, p, p, map[])).port == if p.Some? then p.value else 0
  {
  }

  predicate IsKv(c: Client, n: Node) {
    AddressOf(c, n).port != 0
  }

  /** The comparison of nodes looks at the default network only. */
  predicate Differs(a: Node, b: Node) {
    a.hostname != b.hostname || a.plain != b.plain || a.tls != b.tls
  }

  /** The addresses of the key-value nodes, in order. */
  function KvAddresses(c: Client, nodes: seq<Node>): seq<Address> {
    if nodes == [] then []
    else
      var rest := KvAddresses(c, nodes[..|nodes| - 1]);
      if IsKv(c, nodes[|nodes| - 1]) then rest + [AddressOf(c, nodes[|nodes| - 1])] else rest
  }

  ghost predicate Distinct(a: seq<Address>) {
    forall i, j :: 0 <= i < j < |a| ==> a[i] != a[j]
  }

  /** No node without a key-value service comes before one with it. */
  ghost predicate KvFirst(c: Client, nodes: seq<Node>) {
    forall i, j :: 0 <= i < j < |nodes| && IsKv(c, nodes[j]) ==> IsKv(c, nodes[i])
  }

  ghost predicate WellFormed(c: Client, nodes: seq<Node>) {
    KvFirst(c, nodes) && Distinct(KvAddresses(c, nodes))
  }

  /** With the key-value nodes first, their order is the order of the nodes. */
  lemma {:induction false} KvAddressesFirst(c: Client, nodes: seq<Node>)
    requires KvFirst(c, nodes)
    ensures |KvAddresses(c, nodes)| <= |nodes|
    ensures forall i :: 0 <= i < |nodes| ==> (IsKv(c, nodes[i]) <==> i < |KvAddresses(c, nodes)|)
    ensures forall i :: 0 <= i < |KvAddresses(c, nodes)| ==> KvAddresses(c, nodes)[i] == AddressOf(c, nodes[i])
  {
    if nodes != [] {
      KvAddressesFirst(c, nodes[..|nodes| - 1]);
    }
  }

  lemma {:induction false} KvAddressesPrefix(c: Client, nodes: seq<Node>, i: nat)
    requires i <= |nodes|
    ensures KvAddresses(c, nodes[..i]) <= KvAddresses(c, nodes)
  {
    if i < |nodes| {
      KvAddressesPrefix(c, nodes[..|nodes| - 1], i);
      assert nodes[..|nodes| - 1][..i] == nodes[..i];
    } else {
      assert nodes[..i] == nodes;
    }
  }

  // ---- which nodes are new ----

  ghost predicate Known(c: Client, nodes: seq<Node>, n: Node) {
    exists m :: m in nodes && AddressOf(c, m) == AddressOf(c, n)
  }

  /** The nodes of rhs at addresses that lhs does not have. */
  method DiffNodes(c: Client, lhs: seq<Node>, rhs: seq<Node>) returns (output: seq<Node>)
    ensures forall n :: n in output <==> n in rhs && !Known(c, lhs, n)
  {
    output := [];
    for i := 0 to |rhs|
      invariant forall n :: n in output <==> n in rhs[..i] && !Known(c, lhs, n)
    {
      var known := false;
      var j := 0;
      while j < |lhs| && !known
        invariant j <= |lhs|
        invariant known <==> exists m :: m in lhs[..j] && AddressOf(c, m) == AddressOf(c, rhs[i])
      {
        known := AddressOf(c, lhs[j]) == AddressOf(c, rhs[i]);
        j := j + 1;
      }
      assert j == |lhs| ==> lhs[..j] == lhs;
      if !known {
        output := output + [rhs[i]];
      }
    }
    assert rhs[..|rhs|] == rhs;
  }

  /** The nodes are the same, as far as the client looks. */
  ghost predicate SameNodes(c: Client, a: seq<Node>, b: seq<Node>) {
    && (forall n :: n in a ==> Known(c, b, n))
    && (forall n :: n in b ==> Known(c, a, n))
    && |a| == |b|
    && forall i :: 0 <= i < |a| ==> !Differs(a[i], b[i])
  }

  /** On the default network nodes that look the same have the same addresses. */
  lemma {:induction false} SameNodesSameAddresses(c: Client, a: seq<Node>, b: seq<Node>)
    requires c.network == "default" && |a| == |b| && forall i :: 0 <= i < |a| ==> !Differs(a[i], b[i])
    ensures KvAddresses(c, a) == KvAddresses(c, b)
  {
    if a != [] {
      SameNodesSameAddresses(c, a[..|a| - 1], b[..|b| - 1]);
    }
  }

  const ABROAD: Client := Client("external", false, false)

  /** A node with one address on the default network and one on another. */
  function NodeAt(hostname: string, abroad: string): Node {
    Node(hostname, Some(1), None, map["external" := Alternate(abroad, Some(1), None)])
  }

  function Pair(p: string, x: string, q: string, y: string): seq<Node> {
    [NodeAt(p, x), NodeAt(q, y)]
  }

  lemma PairAddresses(p: string, x: string, q: string, y: string)
    ensures KvAddresses(ABROAD, Pair(p, x, q, y)) == [Address(x, 1), Address(y, 1)]
    ensures x != y ==> WellFormed(ABROAD, Pair(p, x, q, y))
  {
    TradedPair(ABROAD, NodeAt(p, x), NodeAt(q, y));
  }

  lemma CrossKnown(c: Client, a0: Node, a1: Node, b0: Node, b1: Node)
    requires AddressOf(c, a0) == AddressOf(c, b1) && AddressOf(c, a1) == AddressOf(c, b0)
    ensures forall n :: n in [a0, a1] ==> Known(c, [b0, b1], n)
  {
    assert b0 in [b0, b1] && b1 in [b0, b1];
  }

  /** On another network any two nodes can trade their addresses and still look the same. */
  lemma TradedAddresses(p: string, x: string, q: string, y: string)
    ensures SameNodes(ABROAD, Pair(p, x, q, y), Pair(p, y, q, x))
  {
    CrossKnown(ABROAD, NodeAt(p, x), NodeAt(q, y), NodeAt(p, y), NodeAt(q, x));
    CrossKnown(ABROAD, NodeAt(p, y), NodeAt(q, x), NodeAt(p, x), NodeAt(q, y));
  }

  lemma TradedPair(c: Client, m: Node, n: Node)
    requires IsKv(c, m) && IsKv(c, n)
    ensures KvAddresses(c, [m, n]) == [AddressOf(c, m), AddressOf(c, n)]
  {
    assert [m, n][..1] == [m] && [m][..0] == [];
    assert KvAddresses(c, [m]) == [AddressOf(c, m)];
  }

  // ---- acceptance ----

  /** A missing number comes before every number. */
  predicate Below(a: Option<int>, b: Option<int>) {
    b.Some? && (a.None? || a.value < b.value)
  }

  predicate Less(a: Revision, b: Revision) {
    Below(a.epoch, b.epoch) || (a.epoch == b.epoch && Below(a.rev, b.rev))
  }

  /** Revisions are totally ordered. */
  lemma LessIsTotal(a: Revision, b: Revision, c: Revision)
    ensures !Less(a, a)
    ensures Less(a, b) || a == b || Less(b, a)
    ensures Less(a, b) && Less(b, c) ==> Less(a, c)
  {
  }

  /** A number, with one below all others in place of a missing one. */
  function Number(n: Option<int>, floor: int): int {
    if n.Some? then n.value else floor
  }

  /** floor is below every number of the revision. */
  predicate Under(floor: int, r: Revision) {
    (r.epoch.Some? ==> floor < r.epoch.value) && (r.rev.Some? ==> floor < r.rev.value)
  }

  /** The order of revisions is that of the pairs of epoch and revision number, a missing number counting lowest. */
  lemma LessIsLexicographic(a: Revision, b: Revision, floor: int)
    requires Under(floor, a) && Under(floor, b)
    ensures Less(a, b) <==>
              || Number(a.epoch, floor) < Number(b.epoch, floor)
              || (Number(a.epoch, floor) == Number(b.epoch, floor) && Number(a.rev, floor) < Number(b.rev, floor))
    ensures a == b <==>
              Number(a.epoch, floor) == Number(b.epoch, floor) && Number(a.rev, floor) == Number(b.rev, floor)
  {
  }

  predicate Usable(c: Config) {
    c.vbmap.None? || c.vbmap.value != []
  }

  predicate Accepts(current: Option<Config>, c: Config) {
    && Usable(c)
    && (current.None? || c.force || (c.vbmap.Some? && Less(current.value.revision, c.revision)))
  }

  function Updated(current: Option<Config>, c: Config): Option<Config> {
    if Accepts(current, c) then Some(c) else current
  }

  /** The configuration after a run of updates. */
  function After(current: Option<Config>, updates: seq<Config>): Option<Config> {
    if updates == [] then current
    else Updated(After(current, updates[..|updates| - 1]), updates[|updates| - 1])
  }

  /** What a server sends unasked: a configuration with a partition map, to be taken if newer. */
  predicate Plain(c: Config) {
    !c.force && c.vbmap.Some? && c.vbmap.value != []
  }

  /** The configurations accepted in a run, in order. */
  function Accepted(current: Option<Config>, updates: seq<Config>): seq<Config> {
    if updates == [] then []
    else
      var before := updates[..|updates| - 1];
      var c := updates[|updates| - 1];
      if Accepts(After(current, before), c) then Accepted(current, before) + [c] else Accepted(current, before)
  }

  /** No revision of the set is above r. */
  ghost predicate Tops(r: Revision, updates: seq<Config>) {
    forall c :: c in updates ==> !Less(r, c.revision)
  }

  /** From no configuration, the result is one of those delivered, and none delivered is newer. */
  lemma {:induction false} AfterIsMaximum(updates: seq<Config>)
    requires updates != [] && forall c :: c in updates ==> Plain(c)
    ensures After(None, updates).Some? && After(None, updates).value in updates
    ensures Tops(After(None, updates).value.revision, updates)
  {
    var before, last := updates[..|updates| - 1], updates[|updates| - 1];
    assert updates == before + [last] && last in updates;
    if before == [] {
      assert After(None, before) == None;
    } else {
      AfterIsMaximum(before);
      var r := After(None, before).value.revision;
      forall c | c in updates ensures !Less(After(None, updates).value.revision, c.revision) {
        LessIsTotal(r, last.revision, c.revision);
        LessIsTotal(last.revision, c.revision, r);
      }
    }
  }

  /** Whatever the order of delivery, the final revision is the same. */
  lemma OrderDoesNotMatter(a: seq<Config>, b: seq<Config>)
    requires a != [] && b != [] && (forall c :: c in a <==> c in b) && forall c :: c in a ==> Plain(c)
    ensures After(None, a).Some? && After(None, b).Some?
    ensures After(None, a).value.revision == After(None, b).value.revision
  {
    AfterIsMaximum(a);
    AfterIsMaximum(b);
    var x, y := After(None, a).value.revision, After(None, b).value.revision;
    LessIsTotal(x, y, x);
  }

  /** With a configuration in place, the result is the newest of it and the ones delivered. */
  lemma {:induction false} AfterIsNewest(current: Config, updates: seq<Config>)
    requires forall c :: c in updates ==> Plain(c)
    ensures After(Some(current), updates).Some?
    ensures After(Some(current), updates).value in [current] + updates
    ensures Tops(After(Some(current), updates).value.revision, [current] + updates)
  {
    if updates == [] {
      LessIsTotal(current.revision, current.revision, current.revision);
    } else {
      var before, last := updates[..|updates| - 1], updates[|updates| - 1];
      assert updates == before + [last] && last in updates;
      AfterIsNewest(current, before);
      var r := After(Some(current), before).value.revision;
      forall c | c in [current] + updates ensures !Less(After(Some(current), updates).value.revision, c.revision) {
        assert c in [current] + before || c == last;
        LessIsTotal(r, last.revision, c.revision);
        LessIsTotal(last.revision, c.revision, r);
      }
    }
  }

  /** The configuration in place and the ones delivered. */
  function Candidates(current: Option<Config>, updates: seq<Config>): seq<Config> {
    (if current.Some? then [current.value] else []) + updates
  }

  /** On the numbers: the pair of epoch and revision number installed is the lexicographic maximum of the candidates. */
  lemma InstalledIsMaximum(current: Option<Config>, updates: seq<Config>, floor: int)
    requires Candidates(current, updates) != [] && forall c :: c in updates ==> Plain(c)
    requires forall c :: c in Candidates(current, updates) ==> Under(floor, c.revision)
    ensures var installed := After(current, updates);
            && installed.Some? && installed.value in Candidates(current, updates)
            && forall c :: c in Candidates(current, updates) ==>
                 var e, f := Number(c.revision.epoch, floor), Number(installed.value.revision.epoch, floor);
                 e < f || (e == f && Number(c.revision.rev, floor) <= Number(installed.value.revision.rev, floor))
  {
    if current.Some? {
      AfterIsNewest(current.value, updates);
    } else {
      assert Candidates(current, updates) == updates;
      AfterIsMaximum(updates);
    }
    var r := After(current, updates).value.revision;
    assert Tops(r, Candidates(current, updates));
    forall c | c in Candidates(current, updates)
      ensures var e, f := Number(c.revision.epoch, floor), Number(r.epoch, floor);
              e < f || (e == f && Number(c.revision.rev, floor) <= Number(r.rev, floor))
    {
      LessIsLexicographic(r, c.revision, floor);
    }
  }

  /** Among unforced updates, each accepted revision is above the one before it. */
  lemma {:induction false} AcceptedIncrease(current: Option<Config>, updates: seq<Config>)
    requires forall c :: c in updates ==> !c.force
    ensures var a := Accepted(current, updates);
            && (a == [] ==> After(current, updates) == current)
            && (a != [] ==> After(current, updates) == Some(a[|a| - 1]))
            && (a != [] && current.Some? ==> Less(current.value.revision, a[0].revision))
            && forall i :: 0 < i < |a| ==> Less(a[i - 1].revision, a[i].revision)
  {
    if updates != [] {
      AcceptedIncrease(current, updates[..|updates| - 1]);
    }
  }

  /** An empty partition map is never installed, and an installed configuration is never unset. */
  lemma {:induction false} StaysUsable(current: Option<Config>, updates: seq<Config>)
    requires current.Some? ==> Usable(current.value)
    ensures After(current, updates).Some? ==> Usable(After(current, updates).value)
    ensures current.Some? ==> After(current, updates).Some?
    ensures After(current, updates).Some? <==> current.Some? || exists c :: c in updates && Usable(c)
  {
    if updates != [] {
      var before, last := updates[..|updates| - 1], updates[|updates| - 1];
      assert updates == before + [last];
      StaysUsable(current, before);
    }
  }
}
