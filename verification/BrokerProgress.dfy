/** No accepted order is ever stuck: what recovery, the relay and answers can still do to a saga,
    from every slice that a run reaches. A run's every prefix is a run, so statements about the
    last slice of all runs are about every reachable slice. */
module BrokerProgress {
  import opened Contracts
  import opened StateMachine
  import opened Broker
  import opened BrokerInvariant
  import opened BrokerTheorems

  function Last(r: Run): Slice
    requires r.slices != []
  {
    r.slices[|r.slices| - 1]
  }

  predicate Past(times: seq<nat>, now: nat) {
    forall i :: 0 <= i < |times| ==> times[i] <= now
  }

  predicate Extends(r: Run, longer: Run) {
    r.slices <= longer.slices && r.actions <= longer.actions && r.times <= longer.times
  }

  /** The run continued by one action. */
  function With(cfg: Config, r: Run, a: Action, now: nat): Run
    requires r.slices != []
  {
    Run(r.slices + [Perform(cfg, Last(r), a, now)], r.actions + [a], r.times + [now])
  }

  lemma WithIsRun(cfg: Config, r: Run, a: Action, now: nat)
    requires IsRun(cfg, r) && Past(r.times, now) && Enabled(Last(r), a)
    ensures var longer := With(cfg, r, a, now);
      && IsRun(cfg, longer) && Extends(r, longer) && Past(longer.times, now) && longer.slices != []
      && Ok(Last(r)) && Ok(Last(longer)) && Last(longer) == Perform(cfg, Last(r), a, now)
  {
    hide Ok, Perform, Enabled;
    LastIsOk(cfg, r);
    PerformKeepsOk(cfg, Last(r), a, now);
    var longer := With(cfg, r, a, now);
    var n := |r.actions|;
    forall i | 0 <= i < |longer.actions|
      ensures Enabled(longer.slices[i], longer.actions[i])
      ensures longer.slices[i + 1] == Perform(cfg, longer.slices[i], longer.actions[i], longer.times[i])
    {
      if i < n {
        assert longer.slices[i] == r.slices[i] && longer.slices[i + 1] == r.slices[i + 1];
        assert longer.actions[i] == r.actions[i] && longer.times[i] == r.times[i];
      } else {
        assert longer.slices[i] == Last(r) && longer.actions[i] == a && longer.times[i] == now;
      }
    }
    assert longer.slices[0] == r.slices[0];
  }

  lemma LastIsOk(cfg: Config, r: Run)
    requires IsRun(cfg, r)
    ensures Ok(Last(r))
  {
    RunsStayOk(cfg, r, |r.slices| - 1);
  }

  /** A time that has not passed yet, and not before a given one. */
  lemma {:induction false} SomeTime(times: seq<nat>, atLeast: nat) returns (now: nat)
    ensures Past(times, now) && atLeast <= now
    decreases |times|
  {
    if times == [] {
      now := atLeast;
    } else {
      var front := times[..|times| - 1];
      now := SomeTime(front, atLeast + times[|times| - 1]);
      forall i | 0 <= i < |times| ensures times[i] <= now {
        if i < |times| - 1 { assert front[i] <= now; }
      }
    }
  }

  /** Some id is free. */
  lemma {:induction false} SomeId(used: set<Uuid>) returns (id: Uuid)
    ensures id !in used && forall u | u in used :: u < id
    decreases |used|
  {
    if used == {} {
      id := 0;
    } else {
      var u :| u in used;
      var above := SomeId(used - {u});
      id := above + u + 1;
      forall v | v in used ensures v < id {
        if v != u { assert v in used - {u}; }
      }
    }
  }

  // ---------- Recovery ----------

  /** The pending command goes out again, as a new message. */
  predicate Redelivered(d: Slice, d': Slice, mid: Uuid, now: nat) {
    && d.row.pending.Some? && d.row.pending.value in d.outbox
    && d'.row.pending == Some(mid) && d'.row.progress == d.row.progress && !Flagged(d')
    && d'.row.brokerAttempts == d.row.brokerAttempts + 1 && d'.row.attempts == d.row.attempts + 1
    && d'.outbox == d.outbox[mid := Outgoing(d.outbox[d.row.pending.value].body, now, false, None)]
  }

  /** The deadline is counted from the message's publication and set again. */
  predicate WaitsAgain(cfg: Config, d: Slice, d': Slice, now: nat) {
    && d.row.pending.Some? && d.row.pending.value in d.outbox
    && d'.row.pending == d.row.pending && d'.row.progress == d.row.progress && !Flagged(d')
    && d'.row.brokerAttempts == d.row.brokerAttempts && d'.row.attempts == d.row.attempts && d'.row.lease.None?
    && d'.row.nextAttemptAt == ResponseDeadline(cfg, d.outbox[d.row.pending.value], now)
    && d'.outbox == d.outbox
  }

  /** The saga is left to an operator. */
  predicate GivenUp(d: Slice, d': Slice) {
    && d'.row.reason == Some(RecoveryRetriesExhausted) && d'.row.progress == d.row.progress
    && d'.outbox == d.outbox
  }

  /** Exactly when a claimed recovery waits, gives up and sends the command again. */
  predicate RecoveryEnds(cfg: Config, d: Slice, d': Slice, mid: Uuid, now: nat) {
    && d.row.pending.Some? && d.row.pending.value in d.outbox
    && if AwaitingDelivery(cfg, d.outbox[d.row.pending.value], now) then WaitsAgain(cfg, d, d', now)
       else if d.row.brokerAttempts >= 3 then GivenUp(d, d')
       else Redelivered(d, d', mid, now)
  }

  lemma ClaimShape(cfg: Config, d: Slice, now: nat, token: Uuid, leaseMs: nat)
    requires Ok(d) && Claimable(d.row, now) && leaseMs > 0
    ensures var d' := Perform(cfg, d, DoClaim(token, leaseMs), now);
      && HoldsLease(d'.row, token, now) && d'.outbox == d.outbox && d'.inbox == d.inbox
      && d'.row == d.row.(lease := Some(Lease(token, now + leaseMs)), version := d.row.version + 1)
  {
  }

  lemma RecoverEnds(cfg: Config, d: Slice, token: Uuid, now: nat, mid: Uuid)
    requires Ok(d) && HoldsLease(d.row, token, now) && mid !in d.outbox
    ensures RecoveryEnds(cfg, d, Perform(cfg, d, DoRecover(token, mid), now), mid, now)
  {
    RecoverShape(cfg, d, token, now, mid);
    var saga := d.row;
    var recovered := Save(d, saga,
      saga.(pending := None, recoveryAttempts := saga.recoveryAttempts + 1, lease := None),
      RecoveryResumed, None, ForwardDirection, saga.progress.step);
    assert PendingOk(d);
    hide Ok, Recover, Dispatch, NextOperation, AwaitingDelivery, ResponseDeadline;
    DispatchShape(cfg, recovered, recovered.row, now, mid);
  }

  lemma ClaimIsNoObstacle(cfg: Config, d: Slice, claimed: Slice, d': Slice, mid: Uuid, now: nat)
    requires claimed.outbox == d.outbox
    requires claimed.row == d.row.(lease := claimed.row.lease, version := claimed.row.version)
    ensures RecoveryEnds(cfg, claimed, d', mid, now) == RecoveryEnds(cfg, d, d', mid, now)
  {
    hide AwaitingDelivery, ResponseDeadline;
  }

  /** A worker's claim and recovery at the same time. */
  function Round(cfg: Config, d: Slice, token: Uuid, leaseMs: nat, mid: Uuid, now: nat): Slice {
    Perform(cfg, Perform(cfg, d, DoClaim(token, leaseMs), now), DoRecover(token, mid), now)
  }

  lemma RoundEnds(cfg: Config, d: Slice, token: Uuid, leaseMs: nat, mid: Uuid, now: nat)
    requires Ok(d) && Claimable(d.row, now) && leaseMs > 0 && mid !in d.outbox
    ensures Perform(cfg, d, DoClaim(token, leaseMs), now).outbox == d.outbox
    ensures RecoveryEnds(cfg, d, Round(cfg, d, token, leaseMs, mid, now), mid, now)
  {
    hide Ok, Perform, RecoveryEnds, Claimable, HoldsLease, AwaitingDelivery, ResponseDeadline;
    ClaimShape(cfg, d, now, token, leaseMs);
    PerformKeepsOk(cfg, d, DoClaim(token, leaseMs), now);
    var claimed := Perform(cfg, d, DoClaim(token, leaseMs), now);
    RecoverEnds(cfg, claimed, token, now, mid);
    ClaimIsNoObstacle(cfg, d, claimed, Round(cfg, d, token, leaseMs, mid, now), mid, now);
  }

  /** The run in which a worker claims the saga and recovers it at once. */
  function Worked(cfg: Config, r: Run, token: Uuid, leaseMs: nat, mid: Uuid, now: nat): Run
    requires r.slices != []
  {
    With(cfg, With(cfg, r, DoClaim(token, leaseMs), now), DoRecover(token, mid), now)
  }

  predicate WorkerActs(cfg: Config, r: Run, token: Uuid, leaseMs: nat, mid: Uuid, now: nat) {
    && r.slices != []
    && var worked := Worked(cfg, r, token, leaseMs, mid, now);
       IsRun(cfg, worked) && Extends(r, worked) && Past(worked.times, now)
         && RecoveryEnds(cfg, Last(r), Last(worked), mid, now)
  }

  lemma WorkerActsOnClaim(cfg: Config, r: Run, token: Uuid, leaseMs: nat, mid: Uuid, now: nat)
    requires IsRun(cfg, r) && Past(r.times, now) && leaseMs > 0 && mid !in Last(r).outbox
    requires Claimable(Last(r).row, now)
    ensures WorkerActs(cfg, r, token, leaseMs, mid, now)
  {
    assert r.slices != [];
    hide Ok, Perform, IsRun, With, RecoveryEnds, Claimable, Past;
    hide HoldsLease, Extends, AwaitingDelivery, ResponseDeadline;
    LastIsOk(cfg, r);
    WithIsRun(cfg, r, DoClaim(token, leaseMs), now);
    RoundEnds(cfg, Last(r), token, leaseMs, mid, now);
    var claimed := With(cfg, r, DoClaim(token, leaseMs), now);
    WithIsRun(cfg, claimed, DoRecover(token, mid), now);
    ExtendsChains(r, claimed, Worked(cfg, r, token, leaseMs, mid, now));
  }

  lemma ExtendsChains(r: Run, r': Run, r'': Run)
    requires Extends(r, r') && Extends(r', r'')
    ensures Extends(r, r'')
  {
  }

  /** From every reachable slice of a running saga that is not flagged, a worker can act from some
      time on, whoever held its lease: the command is sent again, waited for, or the saga is left
      to an operator. Once the command was published the waiting ends too. */
  lemma RecoveryActs(cfg: Config, r: Run, token: Uuid, leaseMs: nat, mid: Uuid) returns (t: nat)
    requires IsRun(cfg, r) && Active(Last(r).row.progress.status) && !Flagged(Last(r))
    requires leaseMs > 0 && mid !in Last(r).outbox
    ensures forall now: nat :: t <= now ==> WorkerActs(cfg, r, token, leaseMs, mid, now)
    ensures
      var d := Last(r);
      && d.row.pending.Some? && d.row.pending.value in d.outbox
      && (d.outbox[d.row.pending.value].publishedAt.Some? ==>
            forall now: nat :: t <= now ==> !AwaitingDelivery(cfg, d.outbox[d.row.pending.value], now))
  {
    var d := Last(r);
    LastIsOk(cfg, r);
    assert PendingOk(d);
    hide Ok, IsRun, WorkerActs, Recover;
    var free := if d.row.lease.Some? then d.row.lease.value.expiresAt else 0;
    var sent := d.outbox[d.row.pending.value];
    var due := if sent.publishedAt.Some? then sent.publishedAt.value + cfg.commandTimeout else 0;
    t := SomeTime(r.times, d.row.nextAttemptAt + free + due);
    forall now: nat | t <= now ensures WorkerActs(cfg, r, token, leaseMs, mid, now) {
      WorkerActsOnClaim(cfg, r, token, leaseMs, mid, now);
    }
  }

  // ---------- Silence ----------

  /** Nobody answers and nobody intervenes. */
  predicate Silent(a: Action) {
    a.DoHandOver? || a.DoMarkPublished? || a.DoClaim? || a.DoRecover?
  }

  predicate SilentSince(r: Run, longer: Run) {
    Extends(r, longer) && forall i :: |r.actions| <= i < |longer.actions| ==> Silent(longer.actions[i])
  }

  /** Publishing a message ticks its boxes and changes nothing else. */
  lemma PublishShape(d: Slice, m: Uuid, now: nat)
    requires Ok(d) && d.row.pending == Some(m) && m in d.outbox && d.outbox[m].availableAt <= now
    ensures
      var d' := MarkPublished(HandOver(d, m, now), m, now);
      && d'.row == d.row && CommandIds(d') == CommandIds(d)
      && m in d'.outbox && d'.outbox[m].publishedAt.Some? && d'.outbox[m].handed
  {
    assert RelayOk(d);
    hide Ok;
  }

  lemma PendingIsSent(d: Slice)
    requires Ok(d) && Active(d.row.progress.status) && !Flagged(d)
    ensures d.row.pending.Some? && d.row.pending.value in d.outbox && NextOperation(d.row.progress).Next?
    ensures d.outbox[d.row.pending.value].body
         == CommandBody(CommandFor(d.row, NextOperation(d.row.progress).operation))
    ensures d.row.brokerAttempts <= 3
  {
    assert PendingOk(d) && BudgetOk(d);
  }

  /** The relay can publish the pending command, and changes nothing else. */
  lemma PublishPending(cfg: Config, r: Run) returns (longer: Run)
    requires IsRun(cfg, r) && Active(Last(r).row.progress.status) && !Flagged(Last(r))
    ensures IsRun(cfg, longer) && SilentSince(r, longer) && |longer.actions| == |r.actions| + 2
    ensures Last(longer).row == Last(r).row && CommandIds(Last(longer)) == CommandIds(Last(r))
    ensures Last(r).row.pending.Some? && Last(r).row.pending.value in Last(longer).outbox
    ensures Last(longer).outbox[Last(r).row.pending.value].publishedAt.Some?
    ensures Last(longer).outbox[Last(r).row.pending.value].handed
  {
    hide Ok, Past, CommandIds, HandOver, MarkPublished, NextOperation;
    var d := Last(r);
    LastIsOk(cfg, r);
    PendingIsSent(d);
    var m := d.row.pending.value;
    var now := SomeTime(r.times, d.outbox[m].availableAt);
    WithIsRun(cfg, r, DoHandOver(m), now);
    var handed := With(cfg, r, DoHandOver(m), now);
    hide IsRun;
    WithIsRun(cfg, handed, DoMarkPublished(m), now);
    longer := With(cfg, handed, DoMarkPublished(m), now);
    PublishShape(d, m, now);
  }

  lemma WorkedIsSilent(cfg: Config, r: Run, token: Uuid, leaseMs: nat, mid: Uuid, now: nat)
    requires WorkerActs(cfg, r, token, leaseMs, mid, now)
    ensures
      var worked := Worked(cfg, r, token, leaseMs, mid, now);
      SilentSince(r, worked) && |worked.actions| == |r.actions| + 2
  {
    hide IsRun, RecoveryEnds, Past, Perform;
  }

  /** What one unanswered attempt leaves. */
  predicate Attempted(d: Slice, d': Slice) {
    && d'.row.progress == d.row.progress
    && if d.row.brokerAttempts >= 3
       then d'.row.reason == Some(RecoveryRetriesExhausted) && |CommandIds(d')| == |CommandIds(d)|
       else !Flagged(d') && d'.row.brokerAttempts == d.row.brokerAttempts + 1
            && |CommandIds(d')| == |CommandIds(d)| + 1
  }

  lemma PublishedEnds(cfg: Config, d: Slice, d': Slice, mid: Uuid, now: nat)
    requires RecoveryEnds(cfg, d, d', mid, now) && mid !in d.outbox
    requires !AwaitingDelivery(cfg, d.outbox[d.row.pending.value], now)
    requires d.outbox[d.row.pending.value].body.CommandBody?
    ensures Attempted(d, d')
  {
    hide AwaitingDelivery, ResponseDeadline;
    if d.row.brokerAttempts >= 3 {
      assert CommandIds(d') == CommandIds(d);
    } else {
      assert CommandIds(d') == CommandIds(d) + {mid};
    }
  }

  /** The relay publishes the pending command, nothing answers it, and a worker acts. */
  lemma SilentAttempt(cfg: Config, r: Run) returns (longer: Run)
    requires IsRun(cfg, r) && Active(Last(r).row.progress.status) && !Flagged(Last(r))
    ensures IsRun(cfg, longer) && SilentSince(r, longer) && |longer.actions| == |r.actions| + 4
    ensures Attempted(Last(r), Last(longer))
  {
    hide Ok, Past, Perform, Extends, SilentSince, AwaitingDelivery, CommandIds, NextOperation, RecoveryEnds;
    var published := PublishPending(cfg, r);
    var d := Last(published);
    LastIsOk(cfg, published);
    PendingIsSent(d);
    var mid := SomeId(d.outbox.Keys);
    var now := RecoveryActs(cfg, published, 0, 1, mid);
    hide IsRun;
    assert WorkerActs(cfg, published, 0, 1, mid, now);
    longer := Worked(cfg, published, 0, 1, mid, now);
    WorkedIsSilent(cfg, published, 0, 1, mid, now);
    PublishedEnds(cfg, d, Last(longer), mid, now);
    SilentChains(r, published, longer);
  }

  /** Unanswered, the pending command is sent again until three attempts are spent, and then the
      saga is left to an operator: from every reachable slice, in four actions for each attempt. */
  lemma {:induction false} SilenceIsFlagged(cfg: Config, r: Run) returns (longer: Run)
    requires IsRun(cfg, r) && Active(Last(r).row.progress.status) && !Flagged(Last(r))
    ensures IsRun(cfg, longer) && SilentSince(r, longer)
    ensures Last(r).row.brokerAttempts <= 3
    ensures |longer.actions| == |r.actions| + 4 * (4 - Last(r).row.brokerAttempts)
    ensures Last(longer).row.reason == Some(RecoveryRetriesExhausted)
    ensures Last(longer).row.progress == Last(r).row.progress
    ensures |CommandIds(Last(longer))| == |CommandIds(Last(r))| + 3 - Last(r).row.brokerAttempts
    decreases 3 - Last(r).row.brokerAttempts
  {
    hide Ok, Past, SilentSince, CommandIds, NextOperation;
    LastIsOk(cfg, r);
    PendingIsSent(Last(r));
    longer := SilentAttempt(cfg, r);
    if Last(r).row.brokerAttempts < 3 {
      var attempted := longer;
      longer := SilenceIsFlagged(cfg, attempted);
      SilentChains(r, attempted, longer);
    }
  }

  lemma SilentChains(r: Run, r': Run, r'': Run)
    requires SilentSince(r, r') && SilentSince(r', r'')
    ensures SilentSince(r, r'')
  {
    ExtendsChains(r, r', r'');
  }
}
