/** The loops a pod space runs over its children: each visits the ids in
    order and delegates to the part each id resolves to. */
module ChildLoops {
  import opened PartRegistry

  /** The body of the loop of `remove(salvage)` and of the first loop of
      `fix()`, on `ids[i]`: if it meets `c` (it resolves to a part, or to a
      part that needs fixing), `part.remove(salvage)`. What has been removed
      from the unit (`gone`) and what has been called (`sel`) so far extend
      to the prefix `ids[..i + 1]`. */
  method RemoveIfMeets(unit: Unit, ids: seq<int>, i: nat, c: Criterion, salvage: bool,
                       ghost orig: seq<int>, ghost t0: seq<PartCall>, ghost sel: seq<int>, ghost gone: set<int>)
      returns (ghost sel': seq<int>, ghost gone': set<int>)
    requires i < |ids| && unit.Valid() && (c == Registered || c == Damaged)
    requires sel == Select(ids[..i], unit.campaign.parts, c) && gone == Picked(ids[..i], unit.campaign.parts, c)
    requires unit.partIds == Select(orig, unit.campaign.parts, Absent(gone))
    requires unit.campaign.trace == t0 + CallsOn(RemoveOp(salvage), sel)
    modifies unit`partIds, unit.campaign`trace
    ensures unit.Valid()
    ensures sel' == Select(ids[..i + 1], unit.campaign.parts, c) && gone' == Picked(ids[..i + 1], unit.campaign.parts, c)
    ensures unit.partIds == Select(orig, unit.campaign.parts, Absent(gone'))
    ensures unit.campaign.trace == t0 + CallsOn(RemoveOp(salvage), sel')
  {
    var pid := ids[i];
    CallStep(ids, i, unit.campaign.parts, c, RemoveOp(salvage), t0, sel);
    RemovalStep(orig, unit.campaign.parts, ids, i, c, gone);
    if Meets(c, unit.campaign.parts, pid) {
      RemovePart(unit, pid, salvage);
      sel', gone' := sel + [pid], gone + {pid};
    } else {
      sel', gone' := sel, gone;
    }
  }

  /** The loop of `remove(salvage)` and the first loop of `fix()`: each id of
      `ids` that meets `c` is removed from the unit, and only those, with one
      `remove(salvage)` call each, in order. The loop body is the separate
      method `RemoveIfMeets`, whose contract is the invariant before and after
      one step: with the body written inline, the verifier's reasoning about
      the heap after each step does not fit its resource limit. `FixEach` and
      `NotifyEach` are built the same way for the same reason. */
  method RemoveEach(unit: Unit, ids: seq<int>, c: Criterion, salvage: bool)
    requires unit.Valid() && (c == Registered || c == Damaged)
    modifies unit`partIds, unit.campaign`trace
    ensures unit.Valid()
    ensures unit.partIds == Select(old(unit.partIds), unit.campaign.parts, Absent(Picked(ids, unit.campaign.parts, c)))
    ensures unit.campaign.trace == old(unit.campaign.trace) + CallsOn(RemoveOp(salvage), Select(ids, unit.campaign.parts, c))
  {
    ghost var orig, t0 := unit.partIds, unit.campaign.trace;
    ghost var sel: seq<int>, gone: set<int> := [], {};
    SelectAbsentNone(unit.partIds, unit.campaign.parts);
    var i := 0;
    while i < |ids|
      invariant 0 <= i <= |ids|
      invariant unit.Valid() && unit.campaign.parts == old(unit.campaign.parts)
      invariant sel == Select(ids[..i], unit.campaign.parts, c) && gone == Picked(ids[..i], unit.campaign.parts, c)
      invariant unit.partIds == Select(orig, unit.campaign.parts, Absent(gone))
      invariant unit.campaign.trace == t0 + CallsOn(RemoveOp(salvage), sel)
    {
      sel, gone := RemoveIfMeets(unit, ids, i, c, salvage, orig, t0, sel, gone);
      i := i + 1;
    }
    assert ids[..i] == ids;
  }

  /** The body of the second loop of `fix()`, on `ids[i]`: if its part needs
      fixing, `part.fix()`. The parts fixed so far (`done`) and the calls
      made (`sel`) extend to the prefix `ids[..i + 1]`. */
  method FixIfDamaged(campaign: Campaign, ids: seq<int>, i: nat,
                      ghost parts0: map<int, PartRec>, ghost t0: seq<PartCall>, ghost sel: seq<int>, ghost done: set<int>)
      returns (ghost sel': seq<int>, ghost done': set<int>)
    requires i < |ids| && Distinct(ids) && ids[i] in parts0
    requires done == Elems(ids[..i]) && sel == Select(ids[..i], parts0, Damaged)
    requires campaign.parts == Repaired(parts0, done)
    requires campaign.trace == t0 + CallsOn(FixOp, sel)
    modifies campaign`parts, campaign`trace
    ensures done' == Elems(ids[..i + 1]) && sel' == Select(ids[..i + 1], parts0, Damaged)
    ensures campaign.parts == Repaired(parts0, done')
    ensures campaign.trace == t0 + CallsOn(FixOp, sel')
  {
    var pid := ids[i];
    ElemsPrefixStep(ids, i);
    CallStep(ids, i, parts0, Damaged, FixOp, t0, sel);
    RepairedStep(parts0, done, pid);
    if campaign.parts[pid].needsFixing {
      FixPart(campaign, pid);
      sel', done' := sel + [pid], done + {pid};
    } else {
      sel', done' := sel, done + {pid};
    }
  }

  /** The second loop of `fix()`: `part.fix()` on each id of `ids` whose part
      needs fixing at that moment; afterwards none of them needs fixing and
      nothing else has changed. */
  method FixEach(campaign: Campaign, ids: seq<int>)
    requires Distinct(ids) && forall id :: id in ids ==> id in campaign.parts
    modifies campaign`parts, campaign`trace
    ensures campaign.parts == Repaired(old(campaign.parts), Elems(ids))
    ensures campaign.trace == old(campaign.trace) + CallsOn(FixOp, Select(ids, old(campaign.parts), Damaged))
  {
    ghost var parts0, t0 := campaign.parts, campaign.trace;
    ghost var sel: seq<int>, done: set<int> := [], {};
    RepairedUndamaged(parts0, {});
    var i := 0;
    while i < |ids|
      invariant 0 <= i <= |ids|
      invariant done == Elems(ids[..i]) && sel == Select(ids[..i], parts0, Damaged)
      invariant campaign.parts == Repaired(parts0, done)
      invariant campaign.trace == t0 + CallsOn(FixOp, sel)
    {
      sel, done := FixIfDamaged(campaign, ids, i, parts0, t0, sel, done);
      i := i + 1;
    }
    assert ids[..i] == ids;
  }

  /** The body of the loops of `reservePart()` and `cancelReservation()`,
      on `ids[i]`: if it resolves to a part, the call `op` on it. The calls
      made so far (`sel`) extend to the prefix `ids[..i + 1]`. */
  method NotifyIfRegistered(campaign: Campaign, ids: seq<int>, i: nat, op: PartOp, ghost t0: seq<PartCall>, ghost sel: seq<int>)
      returns (ghost sel': seq<int>)
    requires i < |ids| && (op == ReserveOp || op == CancelReservationOp)
    requires sel == Select(ids[..i], campaign.parts, Registered)
    requires campaign.trace == t0 + CallsOn(op, sel)
    modifies campaign`trace
    ensures sel' == Select(ids[..i + 1], campaign.parts, Registered)
    ensures campaign.trace == t0 + CallsOn(op, sel')
  {
    var pid := ids[i];
    CallStep(ids, i, campaign.parts, Registered, op, t0, sel);
    if pid in campaign.parts {
      ReservationCall(campaign, op, pid);
      sel' := sel + [pid];
    } else {
      sel' := sel;
    }
  }

  /** The loops of `reservePart()` and `cancelReservation()`: each id of
      `ids` that resolves to a part gets the call `op`, in order. */
  method NotifyEach(campaign: Campaign, ids: seq<int>, op: PartOp)
    requires op == ReserveOp || op == CancelReservationOp
    modifies campaign`trace
    ensures campaign.trace == old(campaign.trace) + CallsOn(op, Select(ids, campaign.parts, Registered))
  {
    ghost var t0, sel: seq<int> := campaign.trace, [];
    var i := 0;
    while i < |ids|
      invariant 0 <= i <= |ids|
      invariant sel == Select(ids[..i], campaign.parts, Registered)
      invariant campaign.trace == t0 + CallsOn(op, sel)
    {
      sel := NotifyIfRegistered(campaign, ids, i, op, t0, sel);
      i := i + 1;
    }
    assert ids[..i] == ids;
  }
}
