/** Which deployment of an agent answers for a target: rollout, rollback and activation as sequences of status
    writes under a unique index on active targets, with snapshots restored when one of them throws. */
module Deployments {
  import opened Text

  datatype Status = Active | Paused | RolledBack

  /** `valid` is the join of a deployment with its agent, version and mailbox. */
  datatype Deployment = Deployment(tenant: nat, agent: nat, target: nat, status: Status, valid: bool)

  type Rows = seq<Deployment>

  /** A statement works, throws without effect, or takes effect and then throws. */
  datatype Fault = Works | Early | Late

  /** What the read after the last status write meets: the deployment, an exception, or a deployment that no
      longer fits its agent, its version or its target. */
  datatype LastRead = Found | Throws | Misfit

  /** `Refused` by an exception in a status write. `Unread` and `Unfit` end in an exception of the last read. */
  datatype Outcome = Deployed(id: nat) | NotFound | Refused | Unread(id: nat) | Unfit(id: nat)

  /** How a call ends once every status write has worked. */
  function Ending(last: LastRead, id: nat): Outcome {
    match last case Found => Deployed(id) case Throws => Unread(id) case Misfit => Unfit(id)
  }

  function Created(tenant: nat, agent: nat, target: nat): Deployment {
    Deployment(tenant, agent, target, Paused, true)
  }

  /** The unique index on the target of active rows, whatever their tenant and whether or not they are valid. */
  ghost predicate OneActive(rows: Rows) {
    forall i, j ::
      (0 <= i < |rows| && 0 <= j < |rows| && rows[i].status == Active && rows[j].status == Active
       && rows[i].target == rows[j].target) ==> i == j
  }

  predicate Conflicts(rows: Rows, id: nat) {
    && id < |rows|
    && exists j | 0 <= j < |rows| :: j != id && rows[j].status == Active && rows[j].target == rows[id].target
  }

  /** What `listActiveDeploymentsForTarget` finds. */
  predicate Listed(rows: Rows, tenant: nat, target: nat, except: Option<nat>, i: nat) {
    i < |rows| && rows[i].status == Active && rows[i].tenant == tenant && rows[i].target == target && rows[i].valid
    && except != Some(i)
  }

  /** An active row on the target that is not listed: of another tenant, or no longer valid. */
  ghost predicate Hidden(rows: Rows, tenant: nat, target: nat, except: Option<nat>) {
    exists i :: 0 <= i < |rows| && rows[i].status == Active && rows[i].target == target && except != Some(i)
      && !Listed(rows, tenant, target, except, i)
  }

  /** The rows after the listed ones were displaced and `chosen` activated. */
  ghost predicate Replaced(before: Rows, after: Rows, tenant: nat, chosen: nat, displaced: Status)
  {
    && chosen < |before| == |after|
    && forall i :: 0 <= i < |before| ==>
         after[i] == if i == chosen then before[i].(status := Active)
                     else if Listed(before, tenant, before[chosen].target, Some(chosen), i)
                     then before[i].(status := displaced)
                     else before[i]
  }

  /** The rows after the listed ones were displaced and nothing else happened. */
  ghost predicate OnlyDisplaced(before: Rows, after: Rows, tenant: nat, target: nat)
  {
    && |after| == |before|
    && forall i :: 0 <= i < |before| ==>
         after[i] == if Listed(before, tenant, target, None, i) then before[i].(status := RolledBack) else before[i]
  }

  /** As `Replaced`, and then the chosen row stopped fitting. */
  ghost predicate ReplacedByUnfit(before: Rows, after: Rows, tenant: nat, chosen: nat, displaced: Status)
  {
    && chosen < |before| == |after|
    && !after[chosen].valid
    && Replaced(before, after[chosen := after[chosen].(valid := before[chosen].valid)], tenant, chosen, displaced)
  }

  /** Success leaves the chosen deployment as the only active one of its target. */
  lemma ReplacedIsOnlyActive(before: Rows, after: Rows, tenant: nat, chosen: nat, displaced: Status)
    requires Replaced(before, after, tenant, chosen, displaced) && displaced != Active
    requires !Hidden(before, tenant, before[chosen].target, Some(chosen))
    ensures forall i ::
              0 <= i < |after| && after[i].status == Active && after[i].target == before[chosen].target ==> i == chosen
  {
  }

  /** A rollout whose deployment does not fit at the last read leaves the target without an active deployment. */
  lemma UnfitRolloutLeavesNoneActive(before: Rows, after: Rows, tenant: nat, target: nat)
    requires OnlyDisplaced(before, after, tenant, target) && !Hidden(before, tenant, target, None)
    ensures forall i :: 0 <= i < |after| && after[i].status == Active ==> after[i].target != target
  {
  }

  /** A rollback or activation whose deployment does not fit at the last read leaves it active and hidden: it stands
      in the way of every later rollout, of any tenant, to the target. */
  lemma UnfitBlocksTarget(before: Rows, after: Rows, tenant: nat, chosen: nat, displaced: Status)
    requires ReplacedByUnfit(before, after, tenant, chosen, displaced)
    ensures forall other :: Hidden(after, other, before[chosen].target, None)
  {
    assert after[chosen].status == Active && after[chosen].target == before[chosen].target;
  }

  /** `ids` and `chosen` are the only rows that may differ from `before`, and only in their status. */
  ghost predicate Within(before: Rows, now: Rows, chosen: nat, ids: seq<nat>) {
    && |now| == |before|
    && forall i :: 0 <= i < |before| ==>
         now[i] == before[i].(status := now[i].status) && (i != chosen && i !in ids ==> now[i] == before[i])
  }

  class Registry {
    var rows: Rows
    /** Every state a write has led to. */
    ghost var history: seq<Rows>

    constructor ()
      ensures rows == [] && history == []
    {
      rows, history := [], [];
    }

    /** No state ever had two active deployments of one target. */
    ghost predicate Valid()
      reads this
    {
      OneActive(rows) && forall k :: 0 <= k < |history| ==> OneActive(history[k])
    }

    /** `UPDATE agent_deployments SET status = ?` for one valid row, under the unique index. */
    method SetDeploymentStatus(id: nat, status: Status, fault: Fault) returns (ok: bool)
      requires Valid() && id < |rows|
      modifies this
      ensures Valid() && old(history) <= history
      ensures ok == (fault == Works && old(rows)[id].valid && !(status == Active && Conflicts(old(rows), id)))
      ensures rows == if fault != Early && old(rows)[id].valid && !(status == Active && Conflicts(old(rows), id))
                      then old(rows)[id := old(rows)[id].(status := status)] else old(rows)
    {
      var conflict := status == Active && Conflicts(rows, id);
      var applied := fault != Early && rows[id].valid && !conflict;
      if applied {
        rows := rows[id := rows[id].(status := status)];
        history := history + [rows];
      }
      ok := applied && fault == Works;
    }

    /** The loop over several rows; it stops where a statement throws. */
    method SetDeploymentsStatus(
        ids: seq<nat>, status: Status, fault: nat -> Fault, ghost before: Rows, ghost chosen: nat)
      returns (ok: bool)
      requires Valid() && status != Active && Within(before, rows, chosen, ids)
      requires forall id :: id in ids ==> id < |rows| && rows[id].valid && id != chosen
      modifies this
      ensures Valid() && Within(before, rows, chosen, ids) && old(history) <= history
      ensures chosen < |rows| ==> rows[chosen] == old(rows)[chosen]
      ensures ok ==> forall id :: id in ids ==> id < |rows| && rows[id] == before[id].(status := status)
      ensures (forall k :: 0 <= k < |ids| ==> fault(k) == Works) ==> ok
    {
      for k := 0 to |ids|
        invariant Valid() && Within(before, rows, chosen, ids) && old(history) <= history
        invariant forall id :: id in ids ==> id < |rows| && rows[id].valid
        invariant chosen < |rows| ==> rows[chosen] == old(rows)[chosen]
        invariant forall m :: 0 <= m < k ==> ids[m] < |rows| && rows[ids[m]] == before[ids[m]].(status := status)
      {
        assert ids[k] in ids;
        ok := SetDeploymentStatus(ids[k], status, fault(k));
        if !ok {
          return;
        }
      }
      ok := true;
    }

    /** `restoreDeploymentStatuses`: the chosen row first, then the ones that were active. A chosen row that does not
        fit any more makes the first statement throw, and then nothing is restored. */
    method RestoreDeploymentStatuses(chosen: nat, prior: Status, ids: seq<nat>, ghost before: Rows)
      requires Valid() && OneActive(before) && chosen < |rows| == |before|
      requires rows[chosen].valid ==> Within(before, rows, chosen, ids)
      requires before[chosen].status == prior
      requires forall id :: id in ids ==> Listed(before, before[chosen].tenant, before[chosen].target, Some(chosen), id)
      modifies this
      ensures Valid() && old(history) <= history
      ensures rows == if old(rows)[chosen].valid then before else old(rows)
    {
      if prior == Active && rows[chosen].valid {
        NoOtherActive(before, rows, chosen, ids);
      }
      var ok := SetDeploymentStatus(chosen, prior, Works);
      if ok {
        assert rows[chosen] == before[chosen];
        for k := 0 to |ids|
          invariant Valid() && Within(before, rows, chosen, ids) && rows[chosen] == before[chosen]
          invariant old(history) <= history
          invariant forall m :: 0 <= m < k ==> ids[m] < |rows| && rows[ids[m]] == before[ids[m]]
        {
          NothingElseActive(before, rows, chosen, ids, ids[k]);
          ok := SetDeploymentStatus(ids[k], Active, Works);
        }
        assert forall i :: 0 <= i < |rows| ==> rows[i] == before[i];
      }
    }

    method ListActiveDeploymentsForTarget(tenant: nat, target: nat, except: Option<nat>) returns (ids: seq<nat>)
      ensures forall i: nat :: i in ids <==> Listed(rows, tenant, target, except, i)
    {
      ids := [];
      for i := 0 to |rows|
        invariant forall j: nat :: j in ids <==> j < i && Listed(rows, tenant, target, except, j)
      {
        var row := rows[i];
        if row.status == Active && row.tenant == tenant && row.target == target && row.valid && except != Some(i) {
          ids := ids + [i];
        }
      }
    }

    /** Pause the listed, activate the chosen, roll the listed back, as rollout and rollback do. `fault` says for
        each of these stages and each statement of it how it ends. When anything throws the snapshots are
        restored. */
    method Replace(chosen: nat, ids: seq<nat>, fault: nat -> nat -> Fault) returns (ok: bool)
      requires Valid() && chosen < |rows| && rows[chosen].valid
      requires forall i: nat ::
                 i in ids <==> Listed(rows, rows[chosen].tenant, rows[chosen].target, Some(chosen), i)
      modifies this
      ensures Valid() && old(history) <= history
      ensures ok ==> Replaced(old(rows), rows, old(rows)[chosen].tenant, chosen, RolledBack)
                     && !Hidden(old(rows), old(rows)[chosen].tenant, old(rows)[chosen].target, Some(chosen))
      ensures !ok ==> rows == old(rows)
      ensures (NeverThrows(fault)
               && !Hidden(old(rows), old(rows)[chosen].tenant, old(rows)[chosen].target, Some(chosen))) ==> ok
    {
      ghost var before := rows;
      var prior := rows[chosen].status;
      ok := SetDeploymentsStatus(ids, Paused, fault(0), before, chosen);
      if ok {
        ConflictIsHidden(before, rows, chosen, ids);
        ok := SetDeploymentStatus(chosen, Active, fault(1)(0));
        if ok {
          ok := SetDeploymentsStatus(ids, RolledBack, fault(2), before, chosen);
        }
      }
      if !ok {
        RestoreDeploymentStatuses(chosen, prior, ids, before);
      }
    }

    /** The read after the status writes, outside their try block. When it throws, the writes stay. When the
        deployment does not fit any more, restoring begins with that very row and throws, so they stay as well. */
    method ReadBack(chosen: nat, prior: Status, ids: seq<nat>, last: LastRead, ghost before: Rows)
      returns (r: Outcome)
      requires Valid() && OneActive(before) && chosen < |rows| == |before| && before[chosen].status == prior
      requires forall id :: id in ids ==> Listed(before, before[chosen].tenant, before[chosen].target, Some(chosen), id)
      modifies this
      ensures Valid() && old(history) <= history
      ensures r == Ending(last, chosen)
      ensures rows == if last == Misfit then old(rows)[chosen := old(rows)[chosen].(valid := false)] else old(rows)
    {
      if last == Misfit {
        rows := rows[chosen := rows[chosen].(valid := false)];
        RestoreDeploymentStatuses(chosen, prior, ids, before);
      }
      r := Ending(last, chosen);
    }

    /** `rolloutAgentDeployment`; `fits` says whether agent, version and target fit together at first. A deployment
        that could not be activated stays behind, paused; the rows that were there before are as they were. A
        deployment that does not fit at the last read is deleted, and the displaced ones stay rolled back. */
    method RolloutAgentDeployment(
        tenant: nat, agent: nat, target: nat, fits: bool, created: Fault, fault: nat -> nat -> Fault, last: LastRead)
      returns (r: Outcome)
      requires Valid()
      modifies this
      ensures Valid() && old(history) <= history
      ensures r.Deployed? || r.Unread? ==>
                r.id == |old(rows)|
                && Replaced(old(rows) + [Created(tenant, agent, target)], rows, tenant, r.id, RolledBack)
                && rows[r.id] == Deployment(tenant, agent, target, Active, true)
      ensures r.Unfit? ==> OnlyDisplaced(old(rows), rows, tenant, target)
      ensures r.Refused? ==> old(rows) <= rows && |rows| <= |old(rows)| + 1
                             && forall i :: |old(rows)| <= i < |rows| ==>
                                  rows[i] == Deployment(tenant, agent, target, Paused, true)
      ensures NeverThrows(fault) && created == Works ==>
                (r.Refused? <==> !fits || Hidden(old(rows), tenant, target, None))
      ensures !r.Refused? ==> fits && !Hidden(old(rows), tenant, target, None) && r == Ending(last, |old(rows)|)
    {
      var ids := ListActiveDeploymentsForTarget(tenant, target, None);
      if created == Early || !fits {
        return Refused;
      }
      var id := |rows|;
      rows := rows + [Created(tenant, agent, target)];
      history := history + [rows];
      if created == Late {
        return Refused;
      }
      SameListed(old(rows), rows, tenant, target);
      ghost var before := rows;
      var ok := Replace(id, ids, fault);
      if !ok {
        return Refused;
      }
      r := ReadBack(id, Paused, ids, last, before);
      if r.Unfit? {
        rows := rows[..id];
        history := history + [rows];
      }
    }

    method RollbackAgentDeployment(id: nat, fault: nat -> nat -> Fault, last: LastRead) returns (r: Outcome)
      requires Valid()
      modifies this
      ensures Valid() && old(history) <= history
      ensures r == NotFound <==> id >= |old(rows)| || !old(rows)[id].valid
      ensures r.Deployed? || r.Unread? ==> r.id == id && Replaced(old(rows), rows, old(rows)[id].tenant, id, RolledBack)
      ensures r.Unfit? ==> r.id == id && ReplacedByUnfit(old(rows), rows, old(rows)[id].tenant, id, RolledBack)
      ensures r.Refused? || r.NotFound? ==> rows == old(rows)
      ensures NeverThrows(fault) && r != NotFound ==>
                (r.Refused? <==> Hidden(old(rows), old(rows)[id].tenant, old(rows)[id].target, Some(id)))
      ensures !r.Refused? && r != NotFound ==>
                !Hidden(old(rows), old(rows)[id].tenant, old(rows)[id].target, Some(id))
                && r == Ending(last, id)
    {
      if id >= |rows| || !rows[id].valid {
        return NotFound;
      }
      ghost var before := rows;
      var prior := rows[id].status;
      var ids := ListActiveDeploymentsForTarget(rows[id].tenant, rows[id].target, Some(id));
      var ok := Replace(id, ids, fault);
      if !ok {
        return Refused;
      }
      r := ReadBack(id, prior, ids, last, before);
    }

    /** `updateAgentDeploymentStatus` to `active`, for a deployment that is not active. */
    method ActivateDeployment(id: nat, fault: nat -> nat -> Fault, last: LastRead) returns (r: Outcome)
      requires Valid() && (id < |rows| ==> rows[id].status != Active)
      modifies this
      ensures Valid() && old(history) <= history
      ensures r == NotFound <==> id >= |old(rows)| || !old(rows)[id].valid
      ensures r.Deployed? || r.Unread? ==> r.id == id && Replaced(old(rows), rows, old(rows)[id].tenant, id, Paused)
      ensures r.Unfit? ==> r.id == id && ReplacedByUnfit(old(rows), rows, old(rows)[id].tenant, id, Paused)
      ensures r.Refused? || r.NotFound? ==> rows == old(rows)
      ensures NeverThrows(fault) && r != NotFound ==>
                (r.Refused? <==> Hidden(old(rows), old(rows)[id].tenant, old(rows)[id].target, Some(id)))
      ensures !r.Refused? && r != NotFound ==>
                !Hidden(old(rows), old(rows)[id].tenant, old(rows)[id].target, Some(id))
                && r == Ending(last, id)
    {
      if id >= |rows| || !rows[id].valid {
        return NotFound;
      }
      ghost var before := rows;
      var prior := rows[id].status;
      var ids := ListActiveDeploymentsForTarget(rows[id].tenant, rows[id].target, Some(id));
      var ok := SetDeploymentStatus(id, Paused, fault(0)(0));
      if ok {
        ok := SetDeploymentsStatus(ids, Paused, fault(1), before, id);
        if ok {
          ConflictIsHidden(before, rows, id, ids);
          ok := SetDeploymentStatus(id, Active, fault(2)(0));
        }
      }
      if !ok {
        RestoreDeploymentStatuses(id, prior, ids, before);
        return Refused;
      }
      r := ReadBack(id, prior, ids, last, before);
    }
  }

  ghost predicate NeverThrows(fault: nat -> nat -> Fault) {
    forall i: nat, j: nat :: fault(i)(j) == Works
  }

  /** Once the listed rows are out of the way, only a hidden one can still be active on the target. */
  lemma ConflictIsHidden(before: Rows, now: Rows, chosen: nat, ids: seq<nat>)
    requires Within(before, now, chosen, ids) && chosen < |before|
    requires forall id: nat ::
               id in ids <==> Listed(before, before[chosen].tenant, before[chosen].target, Some(chosen), id)
    requires forall id :: id in ids ==> id < |now| && now[id].status != Active
    ensures Conflicts(now, chosen) <==> Hidden(before, before[chosen].tenant, before[chosen].target, Some(chosen))
  {
  }

  /** Appending a paused row changes neither what is listed nor what is hidden. */
  lemma SameListed(before: Rows, now: Rows, tenant: nat, target: nat)
    requires |now| == |before| + 1 && before <= now && now[|before|].status == Paused
    ensures forall i: nat :: Listed(now, tenant, target, Some(|before|), i) <==> Listed(before, tenant, target, None, i)
    ensures Hidden(now, tenant, target, Some(|before|)) <==> Hidden(before, tenant, target, None)
  {
  }

  lemma ListedOnce(before: Rows, tenant: nat, target: nat, except: Option<nat>, i: nat, j: nat)
    requires OneActive(before) && Listed(before, tenant, target, except, i)
    ensures j < |before| && before[j].status == Active && before[j].target == target ==> i == j
  {
  }

  /** A chosen row that was active had no others beside it. */
  lemma NoOtherActive(before: Rows, now: Rows, chosen: nat, ids: seq<nat>)
    requires OneActive(before) && Within(before, now, chosen, ids)
    requires chosen < |before| && before[chosen].status == Active
    requires forall id :: id in ids ==> Listed(before, before[chosen].tenant, before[chosen].target, Some(chosen), id)
    ensures !Conflicts(now, chosen) && ids == []
  {
    if ids != [] {
      ListedOnce(before, before[chosen].tenant, before[chosen].target, Some(chosen), ids[0], chosen);
    }
  }

  /** While the snapshot is being restored, no row but itself keeps a displaced one from becoming active again. */
  lemma NothingElseActive(before: Rows, now: Rows, chosen: nat, ids: seq<nat>, id: nat)
    requires OneActive(before) && Within(before, now, chosen, ids) && chosen < |before| && now[chosen] == before[chosen]
    requires forall i :: i in ids ==> Listed(before, before[chosen].tenant, before[chosen].target, Some(chosen), i)
    requires id in ids
    ensures !Conflicts(now, id)
  {
    forall j: nat | j < |now| && j != id
      ensures !(now[j].status == Active && now[j].target == now[id].target)
    {
      ListedOnce(before, before[chosen].tenant, before[chosen].target, Some(chosen), id, j);
    }
  }
}
