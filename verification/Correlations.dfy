/** The routing tables of one instance: external object to interrupt, old interrupt to new, and idempotency keys. */
module Correlations {
  import opened Graph
  import opened Driver

  /** The id reached from a start after k migrations, if the chain is that long. */
  function Hop(remap: map<nat, nat>, start: nat, k: nat): Option<nat> {
    if k == 0 then Some(start)
    else
      match Hop(remap, start, k - 1)
      case None => None
      case Some(x) => if x in remap then Some(remap[x]) else None
  }

  /** The first live id on the migration chain. */
  ghost predicate FirstLive(remap: map<nat, nat>, start: nat, live: set<nat>, r: nat) {
    exists k: nat :: Hop(remap, start, k) == Some(r) && r in live && NoneLiveBefore(remap, start, live, k)
  }

  ghost predicate NoneLiveBefore(remap: map<nat, nat>, start: nat, live: set<nat>, k: nat) {
    forall j: nat :: j < k && Hop(remap, start, j).Some? ==> Hop(remap, start, j).value !in live
  }

  ghost predicate NeverLive(remap: map<nat, nat>, start: nat, live: set<nat>) {
    forall j: nat :: Hop(remap, start, j).Some? ==> Hop(remap, start, j).value !in live
  }

  /** A set closed under migration holds the whole chain. */
  lemma {:induction false} ChainWithin(remap: map<nat, nat>, start: nat, seen: set<nat>, k: nat)
    requires start in seen && forall x :: x in seen && x in remap ==> remap[x] in seen
    ensures Hop(remap, start, k).Some? ==> Hop(remap, start, k).value in seen
  {
    if k > 0 {
      ChainWithin(remap, start, seen, k - 1);
    }
  }

  /** Two chains one after the other are one chain. */
  lemma {:induction false} HopsAdd(remap: map<nat, nat>, start: nat, j: nat, k: nat)
    requires Hop(remap, start, j).Some?
    ensures Hop(remap, start, j + k) == Hop(remap, Hop(remap, start, j).value, k)
  {
    if k > 0 {
      HopsAdd(remap, start, j, k - 1);
    }
  }

  class Correlations {
    var rows: map<nat, Row>
    var remap: map<nat, nat>

    constructor ()
      ensures rows == map[] && remap == map[]
    {
      rows, remap := map[], map[];
    }

    method Put(ext: nat, row: Row)
      modifies this`rows
      ensures rows == old(rows)[ext := row]
    {
      rows := rows[ext := row];
    }

    method PutRemap(oldId: nat, newId: nat)
      modifies this`remap
      ensures remap == old(remap)[oldId := newId]
    {
      remap := remap[oldId := newId];
    }

    method Get(ext: nat) returns (row: Option<Row>)
      ensures row == if ext in rows then Some(rows[ext]) else None
    {
      row := if ext in rows then Some(rows[ext]) else None;
    }

    /** Follows the migration chain to the id that is live now; if there is none, even on a chain that loops,
        the id comes back as it was, to be dropped as stale. */
    method ResolveInterrupt(start: nat, live: set<nat>) returns (r: nat)
      ensures r in live ==> FirstLive(remap, start, live, r)
      ensures r !in live ==> r == start && NeverLive(remap, start, live)
    {
      var seen, cur := {start}, start;
      ghost var k: nat := 0;
      while cur !in live
        invariant start in seen && cur in seen && Hop(remap, start, k) == Some(cur)
        invariant NoneLiveBefore(remap, start, live, k)
        invariant forall x :: x in seen && x != cur ==> x !in live && x in remap && remap[x] in seen
        invariant seen <= remap.Values + {start}
        decreases remap.Values + {start} - seen
      {
        if cur !in remap || remap[cur] in seen {
          forall j: nat | Hop(remap, start, j).Some?
            ensures Hop(remap, start, j).value !in live
          {
            ChainWithin(remap, start, seen, j);
          }
          return start;
        }
        assert remap[cur] in remap.Values;
        cur := remap[cur];
        seen := seen + {cur};
        k := k + 1;
      }
      r := cur;
    }
  }

  class IdemStore {
    var keys: map<Key, nat>
    /** Rounds of a node whose task has been closed. */
    var closed: set<(Id, nat)>

    constructor ()
      ensures keys == map[] && closed == {}
    {
      keys, closed := map[], {};
    }

    method Put(key: Key, ext: nat)
      modifies this`keys
      ensures keys == old(keys)[key := ext]
    {
      keys := keys[key := ext];
    }

    method MarkClosed(node: Id, attempt: nat)
      modifies this`closed
      ensures closed == old(closed) + {(node, attempt)}
    {
      closed := closed + {(node, attempt)};
    }
  }
}
