/** The routing state of a bucket: its configuration, its sessions and the poll for configurations. */
module Bucket {
  import opened Options
  import opened Configuration
  import opened Residues
  import opened SessionTable

  // ---- keeping sessions apart ----

  lemma UniqueInsert(t: Table, next: nat, k: nat, a: Address)
    requires Unique(t, next)
    ensures Unique(t[k := NewSession(next, a)], next + 1)
  {
  }

  lemma UniqueAdopt(t: Table, rest: Table, next: nat, k: nat, i: nat)
    requires Unique(t, next) && Unique(rest, next) && Apart(t, rest) && i in rest && k !in t
    ensures Unique(t[k := rest[i]], next) && Unique(rest - {i}, next) && Apart(t[k := rest[i]], rest - {i})
  {
  }

  // ---- the loops over the nodes ----

  /** The session of the next key-value node: kept if there is one at its address, else new unless that can wait. */
  method Seat(c: Client, a: Address, table: Table, rest: Table, next: nat, index: nat,
              ghost kv: seq<Address>, ghost was: Table, ghost first: nat)
    returns (table': Table, rest': Table, next': nat)
    requires first <= next && Unique(table, next) && Unique(rest, next) && Apart(table, rest)
    requires index == |kv| && forall k :: k in table ==> k < index
    requires Distinct(kv) ==> Rebuilt(kv, c.lazy, was, table, rest, first)
    ensures next <= next' && Unique(table', next') && Unique(rest', next') && Apart(table', rest')
    ensures forall k :: k in table' ==> k <= index
    ensures Distinct(kv + [a]) ==> Rebuilt(kv + [a], c.lazy, was, table', rest', first)
  {
    table', rest', next' := table, rest, next;
    var slot := FindAddress(rest, a);
    if slot.Some? {
      RebuildStep(kv, a, c.lazy, was, table, rest, first, slot);
      UniqueAdopt(table, rest, next, index, slot.value);
      table', rest' := table[index := rest[slot.value]], rest - {slot.value};
    } else if c.lazy {
      RebuildStep(kv, a, c.lazy, was, table, rest, first, slot);
    } else {
      RebuildFresh(kv, a, was, table, rest, first, next);
      UniqueInsert(table, next, index, a);
      table', next' := table[index := NewSession(next, a)], next + 1;
    }
  }

  /** The sessions for a new configuration: kept where the address survives, else new ones. */
  method Rebuild(c: Client, nodes: seq<Node>, was: Table, first: nat)
    returns (table: Table, rest: Table, next: nat)
    requires Unique(was, first)
    ensures first <= next && Unique(table, next) && Unique(rest, next) && Apart(table, rest)
    ensures Distinct(KvAddresses(c, nodes)) ==> Rebuilt(KvAddresses(c, nodes), c.lazy, was, table, rest, first)
  {
    table, rest, next := map[], was, first;
    var nextIndex := 0;
    for n := 0 to |nodes|
      invariant first <= next && Unique(table, next) && Unique(rest, next) && Apart(table, rest)
      invariant nextIndex == |KvAddresses(c, nodes[..n])|
      invariant forall k :: k in table ==> k < nextIndex
      invariant Distinct(KvAddresses(c, nodes[..n])) ==>
                  Rebuilt(KvAddresses(c, nodes[..n]), c.lazy, was, table, rest, first)
    {
      var a := AddressOf(c, nodes[n]);
      ghost var kv := KvAddresses(c, nodes[..n]);
      assert nodes[..n + 1][..n] == nodes[..n] && nodes[..n + 1][n] == nodes[n];
      if a.port == 0 {
        continue;
      }
      assert KvAddresses(c, nodes[..n + 1]) == kv + [a];
      table, rest, next := Seat(c, a, table, rest, next, nextIndex, kv, was, first);
      nextIndex := nextIndex + 1;
    }
    assert nodes[..|nodes|] == nodes;
  }

  lemma RebuildStep(kv: seq<Address>, a: Address, lazy: bool, was: Table, table: Table, rest: Table, first: nat,
                    slot: Option<nat>)
    requires Distinct(kv) ==> Rebuilt(kv, lazy, was, table, rest, first)
    requires slot.None? ==> lazy && !Holds(rest, a)
    requires slot.Some? ==> slot.value in rest && rest[slot.value].address == a && Lowest(rest, slot.value)
    ensures Distinct(kv + [a]) && slot.None? ==> Rebuilt(kv + [a], lazy, was, table, rest, first)
    ensures Distinct(kv + [a]) && slot.Some? ==>
              Rebuilt(kv + [a], lazy, was, table[|kv| := rest[slot.value]], rest - {slot.value}, first)
  {
    if Distinct(kv + [a]) {
      NotYet(kv, a);
      if slot.Some? {
        RebuildReuse(kv, a, lazy, was, table, rest, first, slot.value);
      } else {
        RebuildAbsent(kv, a, was, table, rest, first);
      }
    }
  }

  lemma RebuildFresh(kv: seq<Address>, a: Address, was: Table, table: Table, rest: Table, first: nat, next: nat)
    requires Distinct(kv) ==> Rebuilt(kv, false, was, table, rest, first)
    requires !Holds(rest, a) && first <= next
    ensures Distinct(kv + [a]) ==> Rebuilt(kv + [a], false, was, table[|kv| := NewSession(next, a)], rest, first)
  {
    if Distinct(kv + [a]) {
      NotYet(kv, a);
      RebuildNew(kv, a, was, table, rest, first, NewSession(next, a));
    }
  }

  /**
   The repair of one slot, where k is the place of the node and n its index: a session found in the wrong
   slot is moved, or swapped with the one that is in its place; a missing one is opened anew.
   */
  function Repaired(t: Table, slot: Option<nat>, k: nat, n: nat, s: Session): Table
    requires slot.Some? ==> slot.value in t
  {
    if slot.None? then t[n := s]
    else if slot.value == k then t
    else if k !in t then t[k := t[slot.value]] - {slot.value}
    else t[k := t[slot.value]][slot.value := t[k]]
  }

  ghost predicate Keeps(was: Table, t: Table) {
    forall i :: i in was ==> i in t && t[i] == was[i]
  }

  /** The slots of the first k nodes are right; no session that was in its place has been touched. */
  ghost predicate Restarting(kv: seq<Address>, k: nat, was: Table, t: Table) {
    && k <= |kv|
    && (forall i :: 0 <= i < k ==> i in t && t[i].address == kv[i])
    && (Placed(kv, was) ==> Placed(kv, t) && Keeps(was, t))
  }

  /** Once the first k slots are right, the session of node k is not among them. */
  lemma NotBefore(kv: seq<Address>, k: nat, was: Table, t: Table, found: nat)
    requires Distinct(kv) && k < |kv| && Restarting(kv, k, was, t) && found in t && t[found].address == kv[k]
    ensures k <= found
    ensures Placed(kv, was) ==> found == k
  {
  }

  lemma RestartStep(kv: seq<Address>, k: nat, was: Table, t: Table, slot: Option<nat>, s: Session)
    requires Distinct(kv) && k < |kv| && Restarting(kv, k, was, t) && s.address == kv[k]
    requires slot.None? ==> !Holds(t, kv[k])
    requires slot.Some? ==> slot.value in t && t[slot.value].address == kv[k]
    ensures Restarting(kv, k + 1, was, Repaired(t, slot, k, k, s))
  {
    if slot.Some? {
      NotBefore(kv, k, was, t, slot.value);
    } else if Placed(kv, was) && k in t {
      assert Holds(t, kv[k]);
    }
  }

  /** Every key-value node has a session somewhere. */
  ghost predicate Held(kv: seq<Address>, t: Table) {
    forall i :: 0 <= i < |kv| ==> Holds(t, kv[i])
  }

  /** Moving and swapping lose no session. */
  lemma RepairMoves(t: Table, slot: nat, k: nat, n: nat, s: Session)
    requires slot in t
    ensures Repaired(t, Some(slot), k, n, s).Values == t.Values
  {
    var u := Repaired(t, Some(slot), k, n, s);
    forall x | x in t.Values ensures x in u.Values {
      var i :| i in t && t[i] == x;
      var j := if i == slot then k else if i == k then slot else i;
      assert j in u && u[j] == x;
    }
  }

  lemma SameSessionsHeld(kv: seq<Address>, t: Table, u: Table)
    requires Held(kv, t) && u.Values == t.Values
    ensures Held(kv, u)
  {
    forall i | 0 <= i < |kv| ensures Holds(u, kv[i]) {
      assert Holds(t, kv[i]);
      var j :| j in t && t[j].address == kv[i];
      assert t[j] in u.Values;
    }
  }

  /** Nothing was opened: the sessions are those of before, and the first k slots are right. */
  ghost predicate Reordering(kv: seq<Address>, k: nat, was: Table, t: Table) {
    Restarting(kv, k, was, t) && t.Values == was.Values && Held(kv, t)
  }

  lemma ReorderStep(kv: seq<Address>, k: nat, was: Table, t: Table, slot: Option<nat>, n: nat, s: Session)
    requires Distinct(kv) && k < |kv| && Reordering(kv, k, was, t) && s.address == kv[k]
    requires slot.None? <==> !Holds(t, kv[k])
    requires slot.Some? ==> slot.value in t && t[slot.value].address == kv[k]
    ensures slot.Some? && Reordering(kv, k + 1, was, Repaired(t, slot, k, n, s))
  {
    assert Holds(t, kv[k]);
    RestartStep(kv, k, was, t, slot, s);
    RepairMoves(t, slot.value, k, n, s);
    SameSessionsHeld(kv, t, Repaired(t, slot, k, n, s));
  }

  lemma {:induction false} KvPrefix(c: Client, nodes: seq<Node>, n: nat)
    requires n < |nodes| && IsKv(c, nodes[n])
    ensures var k := |KvAddresses(c, nodes[..n])|;
            k < |KvAddresses(c, nodes)| && KvAddresses(c, nodes)[k] == AddressOf(c, nodes[n])
  {
    var before := nodes[..|nodes| - 1];
    if n < |before| {
      KvPrefix(c, before, n);
      assert before[..n] == nodes[..n];
    }
  }

  lemma UniqueRepair(t: Table, next: nat, slot: Option<nat>, k: nat, n: nat, a: Address)
    requires Unique(t, next) && (slot.Some? ==> slot.value in t)
    ensures Unique(Repaired(t, slot, k, n, NewSession(next, a)), next + 1)
    ensures slot.Some? ==> Unique(Repaired(t, slot, k, n, NewSession(next, a)), next)
  {
  }

  lemma IndexAgrees(c: Client, nodes: seq<Node>, n: nat)
    requires WellFormed(c, nodes) && n < |nodes| && IsKv(c, nodes[n])
    ensures |KvAddresses(c, nodes[..n])| == n < |KvAddresses(c, nodes)|
    ensures KvAddresses(c, nodes)[n] == AddressOf(c, nodes[n])
  {
    KvAddressesFirst(c, nodes);
    KvAddressesFirst(c, nodes[..n]);
    assert n > 0 ==> IsKv(c, nodes[..n][n - 1]);
  }

  lemma ConnectInPlace(c: Client, nodes: seq<Node>, t: Table, index: nat, s: Session)
    requires WellFormed(c, nodes) && index < |nodes| && IsKv(c, nodes[index]) && s.address == AddressOf(c, nodes[index])
    ensures Placed(KvAddresses(c, nodes), t) ==> Placed(KvAddresses(c, nodes), t[index := s])
  {
    IndexAgrees(c, nodes, index);
  }

  /** The repair of the slot of node n, whose place among the key-value nodes is k. */
  lemma RepairNode(c: Client, nodes: seq<Node>, n: nat, k: nat, was: Table, t: Table, slot: Option<nat>, s: Session)
    requires n < |nodes| && IsKv(c, nodes[n]) && s.address == AddressOf(c, nodes[n])
    requires k == |KvAddresses(c, nodes[..n])|
    requires slot.None? <==> !Holds(t, s.address)
    requires slot.Some? ==> slot.value in t && t[slot.value].address == s.address
    requires WellFormed(c, nodes) ==> Restarting(KvAddresses(c, nodes), k, was, t)
    requires Distinct(KvAddresses(c, nodes)) && Held(KvAddresses(c, nodes), was) ==>
               Reordering(KvAddresses(c, nodes), k, was, t)
    ensures WellFormed(c, nodes) ==> Restarting(KvAddresses(c, nodes), k + 1, was, Repaired(t, slot, k, n, s))
    ensures Distinct(KvAddresses(c, nodes)) && Held(KvAddresses(c, nodes), was) ==>
              slot.Some? && Reordering(KvAddresses(c, nodes), k + 1, was, Repaired(t, slot, k, n, s))
  {
    var kv := KvAddresses(c, nodes);
    if WellFormed(c, nodes) {
      IndexAgrees(c, nodes, n);
      RestartStep(kv, k, was, t, slot, s);
    }
    if Distinct(kv) && Held(kv, was) {
      KvPrefix(c, nodes, n);
      ReorderStep(kv, k, was, t, slot, n, s);
    }
  }

  /** Every key-value node gets its slot back, from whatever table. */
  method Restart(c: Client, nodes: seq<Node>, was: Table, first: nat) returns (table: Table, next: nat)
    requires Unique(was, first)
    ensures first <= next && Unique(table, next)
    ensures WellFormed(c, nodes) ==> Complete(KvAddresses(c, nodes), table)
    ensures Distinct(KvAddresses(c, nodes)) && Held(KvAddresses(c, nodes), was) ==>
              Complete(KvAddresses(c, nodes), table) && table.Values == was.Values && next == first
    ensures WellFormed(c, nodes) && Placed(KvAddresses(c, nodes), was) ==>
              Placed(KvAddresses(c, nodes), table) && Keeps(was, table)
  {
    table, next := was, first;
    ghost var kv := KvAddresses(c, nodes);
    var kvIndex := 0;
    for n := 0 to |nodes|
      invariant first <= next && Unique(table, next)
      invariant kvIndex == |KvAddresses(c, nodes[..n])|
      invariant WellFormed(c, nodes) ==> Restarting(kv, kvIndex, was, table)
      invariant Distinct(kv) && Held(kv, was) ==> Reordering(kv, kvIndex, was, table) && next == first
    {
      var a := AddressOf(c, nodes[n]);
      assert nodes[..n + 1][..n] == nodes[..n] && nodes[..n + 1][n] == nodes[n];
      if a.port == 0 {
        continue;
      }
      var slot := FindAddress(table, a);
      UniqueRepair(table, next, slot, kvIndex, n, a);
      RepairNode(c, nodes, n, kvIndex, was, table, slot, NewSession(next, a));
      table := Repaired(table, slot, kvIndex, n, NewSession(next, a));
      if slot.None? {
        next := next + 1;
      }
      kvIndex := kvIndex + 1;
    }
    assert nodes[..|nodes|] == nodes;
  }

  /** Whether the nodes look the same, as the client decides it. */
  method Unchanged(c: Client, was: seq<Node>, nodes: seq<Node>) returns (same: bool)
    ensures same <==> SameNodes(c, was, nodes)
  {
    var added := DiffNodes(c, was, nodes);
    var removed := DiffNodes(c, nodes, was);
    if added != [] {
      assert added[0] in added;
      return false;
    }
    if removed != [] {
      assert removed[0] in removed;
      return false;
    }
    if |nodes| != |was| {
      return false;
    }
    same := true;
    var i := 0;
    while i < |nodes| && same
      invariant i <= |nodes|
      invariant same ==> forall j :: 0 <= j < i ==> !Differs(was[j], nodes[j])
      invariant !same ==> exists j :: 0 <= j < i && Differs(was[j], nodes[j])
    {
      same := !Differs(nodes[i], was[i]);
      i := i + 1;
    }
  }

  // ---- the poll for configurations ----

  predicate Eligible(t: Table, i: nat) {
    i in t && t[i].bootstrapped && t[i].gcccp
  }

  /** The last eligible slot probed, when the probes are start, start + 1, ... up to (not including) end. */
  function LastEligible(t: Table, start: nat, end: nat): (slot: Option<nat>)
    requires t != map[] && start <= end
    ensures slot.Some? ==> slot.value < |t| && Eligible(t, slot.value)
    ensures slot.Some? <==> exists i :: start <= i < end && Eligible(t, i % |t|)
    decreases end - start
  {
    if start == end then None
    else if Eligible(t, (end - 1) % |t|) then Some((end - 1) % |t|)
    else LastEligible(t, start, end - 1)
  }

  /** It is the last: no later probe meets a session that is up and answers. */
  lemma {:induction false} LastIsLast(t: Table, start: nat, end: nat) returns (i: nat)
    requires t != map[] && start <= end && LastEligible(t, start, end).Some?
    ensures start <= i < end && LastEligible(t, start, end) == Some(i % |t|)
    ensures forall j :: i < j < end && j % |t| in t ==> !(t[j % |t|].bootstrapped && t[j % |t|].gcccp)
    decreases end - start
  {
    i := end - 1;
    if !Eligible(t, i % |t|) {
      i := LastIsLast(t, start, end - 1);
    }
  }

  /** Some slot below the table size is eligible if and only if a full round of probes finds one. */
  lemma RoundProbesAll(t: Table, start: nat)
    requires t != map[]
    ensures LastEligible(t, start, start + |t|).Some? <==>
              exists i :: 0 <= i < |t| && i in t && t[i].bootstrapped && t[i].gcccp
  {
    if r :| 0 <= r < |t| && r in t && t[r].bootstrapped && t[r].gcccp {
      var i := RemainderMet(|t|, start, r);
      assert Eligible(t, i % |t|);
    }
  }

  /** The slot that the p-th poll asks in a full table of n eligible sessions. */
  function PollSlot(n: nat, h: nat, p: nat): nat
    requires n > 0
  {
    (h + p + n - 1) % n
  }

  /** Each poll moves on by one slot, because it advances the index by one more than a full round. */
  lemma PollsMoveOn(t: Table, h: nat, p: nat)
    requires t != map[] && forall i :: 0 <= i < |t| ==> Eligible(t, i)
    ensures LastEligible(t, h + p * (|t| + 1), h + p * (|t| + 1) + |t|) == Some(PollSlot(|t|, h, p))
  {
    var n := |t|;
    assert p * (n + 1) == p * n + p;
    RemainderSkips(n, p, h + p + n - 1);
  }

  /** n successive polls choose each slot exactly once. */
  lemma PollsAreFair(n: nat, h: nat, slot: nat) returns (p: nat)
    requires slot < n
    ensures p < n && PollSlot(n, h, p) == slot
    ensures forall q: nat :: q < n && PollSlot(n, h, q) == slot ==> q == p
  {
    var i := RemainderMet(n, h + n - 1, slot);
    p := i - (h + n - 1);
    forall q: nat | q < n && PollSlot(n, h, q) == slot ensures q == p {
      if q < p {
        RemaindersDiffer(n, h + q + n - 1, h + p + n - 1);
      } else if p < q {
        RemaindersDiffer(n, h + p + n - 1, h + q + n - 1);
      }
    }
  }

  // ---- the bucket ----

  /** The nodes of the occupied slots have kept their addresses. */
  ghost predicate SameSlots(t: Table, before: seq<Address>, after: seq<Address>) {
    forall i :: i in t ==> i < |before| && i < |after| && before[i] == after[i]
  }

  class Bucket {
    const client: Client
    var config: Option<Config>
    var sessions: Table
    var stopped: set<Session>
    var nextId: nat
    var heartbeat: nat

    ghost predicate Valid()
      reads this
    {
      Unique(sessions, nextId)
    }

    ghost function Kv(): seq<Address>
      reads this
    {
      if config.None? then [] else KvAddresses(client, config.value.nodes)
    }

    /** Every session is in the slot of its node, for the current configuration. */
    ghost predicate InPlace()
      reads this
    {
      config.Some? ==> WellFormed(client, config.value.nodes) && Placed(Kv(), sessions)
    }

    constructor (client: Client)
      ensures Valid() && InPlace() && config == None && this.client == client
      ensures sessions == map[] && stopped == {} && heartbeat == 0
    {
      this.client := client;
      this.config := None;
      this.sessions := map[];
      this.stopped := {};
      this.nextId := 0;
      this.heartbeat := 0;
    }

    method UpdateConfig(c: Config) returns (rebuilt: bool, ghost dropped: Table)
      requires Valid()
      modifies `config, `sessions, `stopped, `nextId
      ensures Valid() && config == Updated(old(config), c)
      ensures old(config).Some? && !c.force && c.vbmap.Some? && c.vbmap.value != [] ==>
                var p, q := old(config).value.revision, c.revision;
                var newer := || (q.epoch.Some? && (p.epoch.None? || p.epoch.value < q.epoch.value))
                             || (q.epoch == p.epoch && q.rev.Some? && (p.rev.None? || p.rev.value < q.rev.value));
                config == if newer then Some(c) else old(config)
      ensures old(config).Some? && !c.force && c.vbmap.None? ==> config == old(config)
      ensures c.vbmap == Some([]) ==> config == old(config)
      ensures c.vbmap != Some([]) && (old(config).None? || c.force) ==> config == Some(c)
      ensures rebuilt <==>
                && Accepts(old(config), c)
                && (old(config).None? || !SameNodes(client, old(config).value.nodes, c.nodes))
      ensures stopped == old(stopped) + dropped.Values
      ensures !rebuilt ==> sessions == old(sessions) && dropped == map[]
      ensures rebuilt && Distinct(Kv()) ==>
                Rebuilt(Kv(), client.lazy, old(sessions), sessions, dropped, old(nextId))
      ensures rebuilt && WellFormed(client, c.nodes) ==> InPlace()
      ensures old(InPlace()) && WellFormed(client, c.nodes) && Accepts(old(config), c) ==>
                (InPlace() <==>
                   || old(config).None?
                   || !SameNodes(client, old(config).value.nodes, c.nodes)
                   || SameSlots(old(sessions), KvAddresses(client, old(config).value.nodes),
                                KvAddresses(client, c.nodes)))
      ensures old(InPlace()) && WellFormed(client, c.nodes) && client.network == "default" ==> InPlace()
    {
      dropped, rebuilt := map[], false;
      if c.vbmap.Some? && c.vbmap.value == [] {
        return;
      }
      if config.None? || c.force {
      } else if c.vbmap.None? {
        return;
      } else if !Less(config.value.revision, c.revision) {
        return;
      }
      rebuilt := true;
      if config.Some? {
        var same := Unchanged(client, config.value.nodes, c.nodes);
        rebuilt := !same;
        if same && client.network == "default" {
          SameNodesSameAddresses(client, config.value.nodes, c.nodes);
        }
      }
      config := Some(c);
      if rebuilt {
        var table, rest, next := Rebuild(client, c.nodes, sessions, nextId);
        sessions, nextId := table, next;
        dropped := rest;
        stopped := stopped + rest.Values;
      }
    }

    /** The session that fetched the first configuration goes to a slot of its own choosing. */
    method Bootstrap(index: nat, a: Address, c: Config) returns (ghost id: nat, ghost dropped: Table)
      requires Valid() && config.None?
      modifies `config, `sessions, `stopped, `nextId
      ensures Valid() && (WellFormed(client, c.nodes) ==> InPlace())
      ensures id == old(nextId) && stopped == old(stopped) + dropped.Values
      ensures config == if c.vbmap == Some([]) then None else Some(c)
      ensures c.vbmap == Some([]) ==> sessions == old(sessions)[index := NewSession(id, a)]
      ensures Usable(c) && Distinct(Kv()) ==>
                Rebuilt(Kv(), client.lazy, old(sessions)[index := NewSession(id, a)], sessions, dropped, id + 1)
    {
      id := nextId;
      UniqueInsert(sessions, nextId, index, a);
      sessions, nextId := sessions[index := NewSession(nextId, a)], nextId + 1;
      var rebuilt;
      rebuilt, dropped := UpdateConfig(c);
    }

    method RestartSessions()
      requires Valid()
      modifies `sessions, `nextId
      ensures Valid()
      ensures config.None? ==> sessions == old(sessions)
      ensures config.Some? && WellFormed(client, config.value.nodes) ==> Complete(Kv(), sessions)
      ensures config.Some? && Distinct(Kv()) && Held(Kv(), old(sessions)) ==>
                Complete(Kv(), sessions) && sessions.Values == old(sessions).Values && nextId == old(nextId)
      ensures old(InPlace()) ==> InPlace() && Keeps(old(sessions), sessions)
    {
      if config.None? {
        return;
      }
      sessions, nextId := Restart(client, config.value.nodes, sessions, nextId);
    }

    /** Whether the session was found, in which case a restart is posted. */
    method RemoveSession(id: nat) returns (found: bool)
      requires Valid()
      modifies `sessions
      ensures Valid() && (old(InPlace()) ==> InPlace())
      ensures found <==> exists i :: i in old(sessions) && old(sessions)[i].id == id
      ensures forall i :: i in sessions <==> i in old(sessions) && old(sessions)[i].id != id
      ensures forall i :: i in sessions ==> sessions[i] == old(sessions)[i]
    {
      found := false;
      var slots := sessions.Keys;
      ghost var was := sessions;
      while slots != {}
        invariant slots <= was.Keys
        invariant forall i :: i in sessions ==> i in was && sessions[i] == was[i]
        invariant forall i :: i in was ==> (i in sessions <==> i in slots || was[i].id != id)
        invariant found <==> exists i :: i in was && i !in slots && was[i].id == id
        decreases |slots|
      {
        var i :| i in slots;
        slots := slots - {i};
        if sessions[i].id == id {
          sessions := sessions - {i};
          found := true;
        }
      }
    }

    method ConnectSession(index: nat)
      requires Valid() && (config.Some? ==> index < |config.value.nodes|)
      modifies `sessions, `nextId
      ensures Valid() && (old(InPlace()) ==> InPlace())
      ensures sessions ==
              if config.None? || !IsKv(client, config.value.nodes[index]) then old(sessions)
              else old(sessions)[index := NewSession(old(nextId), AddressOf(client, config.value.nodes[index]))]
    {
      if config.None? {
        return;
      }
      var a := AddressOf(client, config.value.nodes[index]);
      if a.port == 0 {
        return;
      }
      UniqueInsert(sessions, nextId, index, a);
      if WellFormed(client, config.value.nodes) {
        ConnectInPlace(client, config.value.nodes, sessions, index, NewSession(nextId, a));
      }
      sessions, nextId := sessions[index := NewSession(nextId, a)], nextId + 1;
    }

    /** One probe of every residue of the table size; the last eligible one is asked. */
    method FetchConfig() returns (asked: Option<nat>)
      requires Valid()
      modifies `heartbeat
      ensures sessions == map[] ==> asked == None && heartbeat == old(heartbeat)
      ensures sessions != map[] ==>
                && heartbeat == old(heartbeat) + |sessions| + 1
                && asked == LastEligible(sessions, old(heartbeat), old(heartbeat) + |sessions|)
      ensures asked.Some? <==>
                exists i :: 0 <= i < |sessions| && i in sessions && sessions[i].bootstrapped && sessions[i].gcccp
      ensures asked.Some? ==> Eligible(sessions, asked.value)
    {
      asked := None;
      if sessions == map[] {
        return;
      }
      var n := |sessions|;
      var start := heartbeat;
      heartbeat := heartbeat + 1;
      var i := start;
      var probing := true;
      while probing
        invariant start <= i <= start + n && heartbeat == i + 1
        invariant asked == LastEligible(sessions, start, i)
        invariant probing ==> i < start + n
        invariant !probing ==> i == start + n
        decreases probing, start + n - i
      {
        if Eligible(sessions, i % n) {
          asked := Some(i % n);
        }
        i := heartbeat;
        heartbeat := heartbeat + 1;
        probing := start % n != i % n;
        BackToStart(n, start, i);
      }
      RoundProbesAll(sessions, start);
    }
  }

  /** Two updates after which a session is in the slot of another node, for any two nodes that trade addresses. */
  method TradePlaces(p: string, x: string, q: string, y: string) returns (b: Bucket)
    requires x != y
    ensures fresh(b) && b.Valid() && b.Kv() == [Address(y, 1), Address(x, 1)]
    ensures 0 in b.sessions && b.sessions[0].address == b.Kv()[1] && !b.InPlace()
  {
    PairAddresses(p, x, q, y);
    PairAddresses(p, y, q, x);
    TradedAddresses(p, x, q, y);
    b := new Bucket(ABROAD);
    var rebuilt, _ := b.UpdateConfig(Config(Revision(None, Some(0)), Pair(p, x, q, y), Some([[]]), false));
    assert 0 in b.sessions && b.sessions[0].address == Address(x, 1);
    var again, _ := b.UpdateConfig(Config(Revision(None, Some(1)), Pair(p, y, q, x), Some([[]]), false));
  }
}
