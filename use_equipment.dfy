/**
 * The equipment hook: a list of equipment records and three operations that each
 * send one request and, only when the response is ok, update the list from what
 * the server returned.
 */
module UseEquipment {
  import opened JsText
  import opened Table
  import opened Collections

  /** The parsed body of an ok response, or `None` when the response was not ok. */
  type Reply = Option<Record>

  /** Register: append the returned item at the end. */
  function RegisterEquipment(prev: seq<Record>, reply: Reply): (r: seq<Record>)
    ensures reply.Some? ==> |r| == |prev| + 1 && r[..|prev|] == prev && r[|prev|] == reply.value
    ensures reply.None? ==> r == prev
  {
    if reply.Some? then prev + [reply.value] else prev
  }

  function IdIs(id: string): Record -> bool {
    (item: Record) => IdOf(item) == Some(id)
  }

  function Returned(updated: Record): Record -> Record {
    (item: Record) => updated
  }

  /** Edit: every item whose id is `equipmentId` becomes the returned item. */
  function EditEquipment(prev: seq<Record>, equipmentId: string, reply: Reply): (r: seq<Record>)
    ensures |r| == |prev|
    ensures reply.Some? ==> forall i :: 0 <= i < |prev| ==> r[i] == if IdOf(prev[i]) == Some(equipmentId) then reply.value else prev[i]
    ensures reply.None? ==> r == prev
  {
    if reply.Some? then MapWhere(prev, IdIs(equipmentId), Returned(reply.value)) else prev
  }

  /** Delete: every item whose id is `equipmentId` goes; the others stay in order. */
  function DeleteEquipment(prev: seq<Record>, equipmentId: string, ok: bool): (r: seq<Record>)
    ensures ok ==> (forall x :: x in r <==> x in prev && IdOf(x) != Some(equipmentId)) && IsSubsequence(r, prev)
    ensures !ok ==> r == prev
  {
    if ok then RemoveById(prev, Some(equipmentId)) else prev
  }

  /** Registering an item with a new id and then deleting that id gives back the list. */
  lemma {:induction false} DeleteUndoesRegister(prev: seq<Record>, item: Record, id: string)
    requires IdOf(item) == Some(id)
    requires forall i :: 0 <= i < |prev| ==> IdOf(prev[i]) != Some(id)
    ensures DeleteEquipment(RegisterEquipment(prev, Some(item)), id, true) == prev
  {
    FilterSnocDropped(prev, item, HasOtherId(Some(id)));
    RemoveAbsentId(prev, Some(id));
  }

  lemma {:induction false} FilterSnocDropped(xs: seq<Record>, x: Record, keep: Record -> bool)
    requires !keep(x)
    ensures Filter(xs + [x], keep) == Filter(xs, keep)
  {
    if xs == [] {
      assert [x][1..] == [];
    } else {
      assert (xs + [x])[1..] == xs[1..] + [x];
      FilterSnocDropped(xs[1..], x, keep);
    }
  }

  /**
   * Editing twice with the same reply is editing once, when the returned item keeps
   * the id it was edited under.
   */
  lemma EditIdempotent(prev: seq<Record>, id: string, reply: Reply)
    requires reply.Some? ==> IdOf(reply.value) == Some(id)
    ensures EditEquipment(EditEquipment(prev, id, reply), id, reply) == EditEquipment(prev, id, reply)
  {
  }

  /** Editing keeps the set of ids when the returned item keeps the id it was edited under. */
  lemma EditKeepsIds(prev: seq<Record>, id: string, reply: Reply)
    requires reply.Some? ==> IdOf(reply.value) == Some(id)
    ensures forall i :: 0 <= i < |prev| ==> IdOf(EditEquipment(prev, id, reply)[i]) == IdOf(prev[i])
  {
  }
}
