/** The registry of server channels keyed by connection id
    (websocket/channel_pool.go). The map is the only state; the lock that
    serialises Set, Get and Delete is not modelled, the operations being
    taken one at a time. */
module ChannelPools {
  import opened Wrappers
  import opened Channels

  type Registry = map<string, Channel?>

  /** Go's map index: the stored entry, or nil when the id is absent. */
  function Lookup(m: Registry, id: string): Channel? {
    if id in m then m[id] else null
  }

  /** A write to the registry, as Set and Delete perform it. */
  datatype RegistryOp = SetOp(id: string, ch: Channel?) | DeleteOp(id: string)

  /** The effect of one write: the written id now reads as the stored
      channel (Set) or as nil (Delete); every other id reads as before;
      deleting an absent id changes nothing. */
  function ApplyOp(m: Registry, op: RegistryOp): (r: Registry)
    ensures Lookup(r, op.id) == (if op.SetOp? then op.ch else null)
    ensures forall k :: k != op.id ==> Lookup(r, k) == Lookup(m, k)
    ensures op.SetOp? ==> r.Keys == m.Keys + {op.id}
    ensures op.DeleteOp? ==> r.Keys == m.Keys - {op.id}
    ensures op.DeleteOp? && op.id !in m ==> r == m
  {
    match op
    case SetOp(id, ch) => m[id := ch]
    case DeleteOp(id) => m - {id}
  }

  function ApplyOps(m: Registry, ops: seq<RegistryOp>): Registry
    decreases |ops|
  {
    if ops == [] then m else ApplyOps(ApplyOp(m, ops[0]), ops[1..])
  }

  /** Reference definition of what id reads as after ops, scanning from
      the latest write backwards: the channel of the last Set of id, nil
      if the last write of id is a Delete, None if ops never write id. */
  function LastWrite(ops: seq<RegistryOp>, id: string): Option<Channel?>
    decreases |ops|
  {
    if ops == [] then None
    else
      var last := ops[|ops| - 1];
      if last.id == id then Some(if last.SetOp? then last.ch else null)
      else LastWrite(ops[..|ops| - 1], id)
  }

  lemma {:induction false} ApplyOpsSnoc(m: Registry, ops: seq<RegistryOp>, op: RegistryOp)
    ensures ApplyOps(m, ops + [op]) == ApplyOp(ApplyOps(m, ops), op)
    decreases |ops|
  {
    if ops == [] {
      assert [op][1..] == [];
    } else {
      assert (ops + [op])[1..] == ops[1..] + [op];
      ApplyOpsSnoc(ApplyOp(m, ops[0]), ops[1..], op);
    }
  }

  /** Last write wins: after any sequence of Set and Delete calls, Get of
      an id returns what the last write of that id stored (nil for a
      Delete), and what it returned before if the id was never written. */
  lemma {:induction false} LookupAfterOps(m: Registry, ops: seq<RegistryOp>, id: string)
    ensures Lookup(ApplyOps(m, ops), id) ==
      (if LastWrite(ops, id).Some? then LastWrite(ops, id).value else Lookup(m, id))
    decreases |ops|
  {
    if ops != [] {
      var init, last := ops[..|ops| - 1], ops[|ops| - 1];
      assert ops == init + [last];
      ApplyOpsSnoc(m, init, last);
      LookupAfterOps(m, init, id);
    }
  }

  class ChannelPool {
    var m: Registry

    /** NewChannelPool: an empty registry, in which every id reads as nil. */
    constructor ()
      ensures m == map[]
      ensures forall id :: Lookup(m, id) == null
    {
      m := map[];
    }

    method Set(id: string, ch: Channel?)
      modifies this
      ensures m == ApplyOp(old(m), SetOp(id, ch))
    {
      m := m[id := ch];
    }

    /** Reads the entry for id; an absent id yields nil, never an error. */
    method Get(id: string) returns (ch: Channel?)
      ensures ch == Lookup(m, id)
      ensures id !in m ==> ch == null
    {
      ch := Lookup(m, id);
    }

    method Delete(id: string)
      modifies this
      ensures m == ApplyOp(old(m), DeleteOp(id))
    {
      m := m - {id};
    }
  }
}
