/** The table that maps a key-value node index to the session with that node. */
module SessionTable {
  import opened Options
  import opened Configuration

  datatype Session = Session(id: nat, address: Address, bootstrapped: bool, gcccp: bool)

  type Table = map<nat, Session>

  function NewSession(id: nat, a: Address): Session {
    Session(id, a, false, false)
  }

  /** Slot i holds only a session of the i-th key-value node. */
  ghost predicate Placed(kv: seq<Address>, t: Table) {
    forall i :: i in t ==> i < |kv| && t[i].address == kv[i]
  }

  /** Every key-value node has its session in its slot. */
  ghost predicate Complete(kv: seq<Address>, t: Table) {
    forall k :: 0 <= k < |kv| ==> k in t && t[k].address == kv[k]
  }

  ghost predicate Holds(t: Table, a: Address) {
    exists i :: i in t && t[i].address == a
  }

  /** Slot i is the lowest with its address. */
  ghost predicate Lowest(t: Table, i: nat)
    requires i in t
  {
    forall j :: j in t && t[j].address == t[i].address ==> i <= j
  }

  /** No two slots share a session, and new sessions get identifiers from next on. */
  ghost predicate Unique(t: Table, next: nat) {
    && (forall i :: i in t ==> t[i].id < next)
    && forall i, j :: i in t && j in t && t[i].id == t[j].id ==> i == j
  }

  ghost predicate Apart(t: Table, u: Table) {
    forall i, j :: i in t && j in u ==> t[i].id != u[j].id
  }

  /** The lowest slot that holds a session with that address. */
  method FindAddress(t: Table, a: Address) returns (slot: Option<nat>)
    ensures slot.None? <==> !Holds(t, a)
    ensures slot.Some? ==> slot.value in t && t[slot.value].address == a && Lowest(t, slot.value)
  {
    slot := None;
    var keys := t.Keys;
    while keys != {}
      invariant keys <= t.Keys
      invariant slot.None? ==> forall i :: i in t && i !in keys ==> t[i].address != a
      invariant slot.Some? ==> slot.value in t && t[slot.value].address == a
      invariant slot.Some? ==> forall i :: i in t && i !in keys && t[i].address == a ==> slot.value <= i
      decreases |keys|
    {
      var i :| i in keys;
      keys := keys - {i};
      if t[i].address == a && (slot.None? || i < slot.value) {
        slot := Some(i);
      }
    }
  }

  // ---- rebuilding for a new configuration ----

  /** The session in slot i of the old table goes on serving one of the nodes kv. */
  ghost predicate Survives(kv: seq<Address>, was: Table, i: nat)
    requires i in was
  {
    was[i].address in kv && Lowest(was, i)
  }

  /** Nodes without a session get a new one, unless connections are made lazily. */
  ghost predicate Filled(kv: seq<Address>, lazy: bool, was: Table, table: Table, next: nat) {
    && Placed(kv, table)
    && (forall k :: 0 <= k < |kv| ==> (k in table <==> !lazy || Holds(was, kv[k])))
    && (forall k, i :: k in table && i in was && Lowest(was, i) && was[i].address == kv[k] ==> table[k] == was[i])
    && forall k :: k in table && !Holds(was, kv[k]) ==> next <= table[k].id
  }

  ghost predicate Leftover(kv: seq<Address>, was: Table, rest: Table) {
    && (forall i :: i in rest ==> i in was && rest[i] == was[i])
    && forall i :: i in was ==> (i in rest <==> !Survives(kv, was, i))
  }

  /** table is the table for the nodes kv, and rest is what is left of the old one. */
  ghost predicate Rebuilt(kv: seq<Address>, lazy: bool, was: Table, table: Table, rest: Table, next: nat) {
    Filled(kv, lazy, was, table, next) && Leftover(kv, was, rest)
  }

  lemma LowestLeft(kv: seq<Address>, a: Address, was: Table, rest: Table, i: nat)
    requires Leftover(kv, was, rest) && a !in kv && i in rest && rest[i].address == a && Lowest(rest, i)
    ensures was[i] == rest[i] && Lowest(was, i)
  {
    forall j | j in was && was[j].address == was[i].address ensures i <= j {
      assert !Survives(kv, was, j);
    }
  }

  lemma LeftoverTake(kv: seq<Address>, a: Address, was: Table, rest: Table, i: nat)
    requires Leftover(kv, was, rest) && i in was && i in rest && was[i].address == a && Lowest(was, i)
    ensures Leftover(kv + [a], was, rest - {i})
  {
    forall j | j in was ensures j in rest - {i} <==> !Survives(kv + [a], was, j) {
      assert j in rest <==> !Survives(kv, was, j);
      assert was[j].address in kv + [a] <==> was[j].address in kv || was[j].address == a;
    }
  }

  lemma LeftoverSkip(kv: seq<Address>, a: Address, was: Table, rest: Table)
    requires Leftover(kv, was, rest) && !Holds(was, a)
    ensures Leftover(kv + [a], was, rest)
  {
    forall j | j in was ensures j in rest <==> !Survives(kv + [a], was, j) {
      assert j in rest <==> !Survives(kv, was, j);
      assert was[j].address in kv + [a] <==> was[j].address in kv || was[j].address == a;
    }
  }

  lemma FilledExtend(kv: seq<Address>, a: Address, lazy: bool, was: Table, table: Table, next: nat, s: Session)
    requires Filled(kv, lazy, was, table, next) && s.address == a && (lazy ==> Holds(was, a))
    requires forall i :: i in was && Lowest(was, i) && was[i].address == a ==> s == was[i]
    requires !Holds(was, a) ==> next <= s.id
    ensures Filled(kv + [a], lazy, was, table[|kv| := s], next)
  {
  }

  lemma FilledSkip(kv: seq<Address>, a: Address, was: Table, table: Table, next: nat)
    requires Filled(kv, true, was, table, next) && !Holds(was, a)
    ensures Filled(kv + [a], true, was, table, next)
  {
  }

  lemma NotYet(kv: seq<Address>, a: Address)
    requires Distinct(kv + [a])
    ensures Distinct(kv) && a !in kv
  {
    assert forall i :: 0 <= i < |kv| ==> (kv + [a])[i] == kv[i];
    assert (kv + [a])[|kv|] == a;
  }

  lemma NoneLeft(kv: seq<Address>, a: Address, was: Table, rest: Table)
    requires Leftover(kv, was, rest) && a !in kv && !Holds(rest, a)
    ensures !Holds(was, a)
  {
    forall i | i in was ensures was[i].address != a {
      assert i in rest <==> !Survives(kv, was, i);
    }
  }

  /** The node takes over the session in slot i of what is left. */
  lemma RebuildReuse(kv: seq<Address>, a: Address, lazy: bool, was: Table, table: Table, rest: Table, next: nat, i: nat)
    requires Rebuilt(kv, lazy, was, table, rest, next) && Distinct(kv + [a])
    requires i in rest && rest[i].address == a && Lowest(rest, i)
    ensures Rebuilt(kv + [a], lazy, was, table[|kv| := rest[i]], rest - {i}, next)
  {
    NotYet(kv, a);
    LowestLeft(kv, a, was, rest, i);
    LeftoverTake(kv, a, was, rest, i);
    FilledExtend(kv, a, lazy, was, table, next, was[i]);
  }

  /** Nothing is left for the node, and connections are made lazily. */
  lemma RebuildAbsent(kv: seq<Address>, a: Address, was: Table, table: Table, rest: Table, next: nat)
    requires Rebuilt(kv, true, was, table, rest, next) && Distinct(kv + [a]) && !Holds(rest, a)
    ensures Rebuilt(kv + [a], true, was, table, rest, next)
  {
    NotYet(kv, a);
    NoneLeft(kv, a, was, rest);
    LeftoverSkip(kv, a, was, rest);
    FilledSkip(kv, a, was, table, next);
  }

  lemma RebuildNew(kv: seq<Address>, a: Address, was: Table, table: Table, rest: Table, next: nat, s: Session)
    requires Rebuilt(kv, false, was, table, rest, next) && Distinct(kv + [a]) && !Holds(rest, a)
    requires s.address == a && next <= s.id
    ensures Rebuilt(kv + [a], false, was, table[|kv| := s], rest, next)
  {
    NotYet(kv, a);
    NoneLeft(kv, a, was, rest);
    LeftoverSkip(kv, a, was, rest);
    FilledExtend(kv, a, false, was, table, next, s);
  }

  /**
   From a table with every session in its place: a session goes on if and only if its address survives,
   and exactly the others are left over.
   */
  lemma RebuiltKeepsSurvivors(before: seq<Address>, kv: seq<Address>, lazy: bool,
                              was: Table, table: Table, rest: Table, next: nat, i: nat)
    requires Placed(before, was) && Distinct(before) && Rebuilt(kv, lazy, was, table, rest, next) && i in was
    ensures i in rest <==> was[i].address !in kv
    ensures was[i].address in kv ==> exists k :: k in table && table[k] == was[i]
  {
    assert Lowest(was, i);
    if was[i].address in kv {
      var k :| 0 <= k < |kv| && kv[k] == was[i].address;
      assert Holds(was, kv[k]);
      assert k in table && table[k] == was[i];
    }
  }

  /** A session that was never in a table before belongs to a node that had none. */
  lemma RebuiltAddsOnlyMissing(kv: seq<Address>, lazy: bool, was: Table, table: Table, rest: Table, next: nat, k: nat)
    requires Rebuilt(kv, lazy, was, table, rest, next) && Unique(was, next) && k in table
    ensures (exists i :: i in was && was[i] == table[k]) <==> Holds(was, kv[k])
    ensures (exists i :: i in was && was[i] == table[k]) || next <= table[k].id
  {
    if Holds(was, kv[k]) {
      var i :| i in was && was[i].address == kv[k];
      var m := LowestSlot(was, i);
    }
  }

  lemma {:induction false} LowestSlot(t: Table, i: nat) returns (m: nat)
    requires i in t
    ensures m in t && t[m].address == t[i].address && Lowest(t, m)
    decreases i
  {
    if j :| j in t && t[j].address == t[i].address && j < i {
      m := LowestSlot(t, j);
    } else {
      m := i;
    }
  }
}
