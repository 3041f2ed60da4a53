/** The schedule of whole runs: the relay hands no message over before it is available, no worker
    claims a saga before its answer is overdue, and no command is sent again within its time. */
module BrokerSchedule {
  import opened Contracts
  import opened StateMachine
  import opened Broker
  import opened BrokerInvariant
  import opened BrokerTheorems
  import opened BrokerTiming

  // ---------- One message ----------

  /** What one transaction may do to the times of a message: the relay hands it over when it is
      due, and marks it once. */
  predicate Ticks(d: Slice, a: Action, now: nat, d': Slice, m: Uuid)
    requires m in d.outbox
  {
    && m in d'.outbox
    && var o, o' := d.outbox[m], d'.outbox[m];
       && o'.body == o.body && o'.availableAt == o.availableAt
       && (o'.handed != o.handed ==> o'.handed && a == DoHandOver(m) && o.availableAt <= now)
       && (o'.publishedAt != o.publishedAt ==>
             a == DoMarkPublished(m) && o.publishedAt.None? && o'.publishedAt == Some(now) && o.handed)
  }

  /** The messages stay as they are, and new ones have not been with the broker. */
  predicate KeepsMessages(d: Slice, d': Slice) {
    && (forall m | m in d.outbox :: m in d'.outbox && d'.outbox[m] == d.outbox[m])
    && (forall m | m in d'.outbox && m !in d.outbox :: !d'.outbox[m].handed && d'.outbox[m].publishedAt.None?)
  }

  lemma ReceiveKeepsMessages(cfg: Config, d: Slice, env: ResultEnvelope, now: nat, mid: Uuid)
    requires Ok(d) && mid !in d.outbox
    ensures KeepsMessages(d, Perform(cfg, d, DoReceive(env, mid), now))
  {
    hide Ok, Perform, Decides, Awaited;
    if Awaited(d, env) {
      ReceiveTimes(cfg, d, env, now, mid);
    } else {
      UnawaitedTimes(cfg, d, env, now, mid);
    }
  }

  lemma RecoverKeepsMessages(cfg: Config, d: Slice, token: Uuid, now: nat, mid: Uuid)
    requires Ok(d) && mid !in d.outbox
    ensures KeepsMessages(d, Perform(cfg, d, DoRecover(token, mid), now))
  {
    hide Ok, Perform, HoldsLease, Sends;
    if HoldsLease(d.row, token, now) {
      RecoverTimes(cfg, d, token, now, mid);
    } else {
      UnheldRecovery(cfg, d, token, now, mid);
    }
  }

  lemma UnheldRecovery(cfg: Config, d: Slice, token: Uuid, now: nat, mid: Uuid)
    requires !HoldsLease(d.row, token, now)
    ensures Perform(cfg, d, DoRecover(token, mid), now) == d
  {
    hide NextOperation, Dispatch, AwaitingDelivery, HoldsLease;
  }

  /** Only the relay touches a message once it is in the outbox. */
  lemma OthersKeepMessages(cfg: Config, d: Slice, a: Action, now: nat)
    requires Ok(d) && Enabled(d, a) && !a.DoHandOver? && !a.DoMarkPublished?
    ensures KeepsMessages(d, Perform(cfg, d, a, now))
  {
    hide Ok;
    match a {
      case DoConfirm(mid) => hide Perform; ConfirmTimes(cfg, d, now, mid);
      case DoResume(mid) => hide Perform; ResumeTimes(cfg, d, now, mid);
      case DoReceive(env, mid) => hide Perform, KeepsMessages; ReceiveKeepsMessages(cfg, d, env, now, mid);
      case DoRecover(token, mid) => hide Perform, KeepsMessages; RecoverKeepsMessages(cfg, d, token, now, mid);
      case _ =>
    }
  }

  lemma PerformTicks(cfg: Config, d: Slice, a: Action, now: nat, m: Uuid)
    requires Ok(d) && Enabled(d, a) && m in d.outbox
    ensures Ticks(d, a, now, Perform(cfg, d, a, now), m)
  {
    hide Ok;
    if !a.DoHandOver? && !a.DoMarkPublished? {
      hide Perform;
      OthersKeepMessages(cfg, d, a, now);
    }
  }

  lemma NewIsUnpublished(cfg: Config, d: Slice, a: Action, now: nat, m: Uuid)
    requires Ok(d) && Enabled(d, a) && m !in d.outbox && m in Perform(cfg, d, a, now).outbox
    ensures !Perform(cfg, d, a, now).outbox[m].handed && Perform(cfg, d, a, now).outbox[m].publishedAt.None?
  {
    hide Ok;
    if !a.DoHandOver? && !a.DoMarkPublished? {
      hide Perform;
      OthersKeepMessages(cfg, d, a, now);
    }
  }

  /** The moment a message was handed over: it was available by then. */
  lemma {:induction false} HandedOver(cfg: Config, r: Run, i: nat, j: nat, m: Uuid) returns (k: nat)
    requires IsRun(cfg, r) && i <= j < |r.slices| && m in r.slices[i].outbox && !r.slices[i].outbox[m].handed
    ensures m in r.slices[j].outbox && r.slices[j].outbox[m].availableAt == r.slices[i].outbox[m].availableAt
    ensures r.slices[j].outbox[m].handed ==>
      i <= k < j && r.actions[k] == DoHandOver(m) && r.slices[i].outbox[m].availableAt <= r.times[k]
    decreases j
  {
    hide Ok, Perform, Enabled;
    k := i;
    if i < j {
      k := HandedOver(cfg, r, i, j - 1, m);
      StepOf(cfg, r, j - 1);
      PerformTicks(cfg, r.slices[j - 1], r.actions[j - 1], r.times[j - 1], m);
      if !r.slices[j - 1].outbox[m].handed { k := j - 1; }
    }
  }

  /** The moment a message was marked: the mark is the time it was made. */
  lemma {:induction false} Marked(cfg: Config, r: Run, j: nat, m: Uuid) returns (i: nat)
    requires IsRun(cfg, r) && j < |r.slices| && m in r.slices[j].outbox && r.slices[j].outbox[m].publishedAt.Some?
    requires m in r.slices[0].outbox ==> r.slices[0].outbox[m].publishedAt.None?
    ensures i < j && r.actions[i] == DoMarkPublished(m) && r.slices[j].outbox[m].publishedAt == Some(r.times[i])
    decreases j
  {
    hide Ok, Perform, Enabled;
    StepOf(cfg, r, j - 1);
    var d, d' := r.slices[j - 1], r.slices[j];
    if m in d.outbox {
      PerformTicks(cfg, d, r.actions[j - 1], r.times[j - 1], m);
      if d.outbox[m].publishedAt == d'.outbox[m].publishedAt {
        i := Marked(cfg, r, j - 1, m);
      } else {
        i := j - 1;
      }
    } else {
      NewIsUnpublished(cfg, d, r.actions[j - 1], r.times[j - 1], m);
    }
  }

  // ---------- Retries back off ----------

  /** An awaited answer that decides nothing, to a saga with attempts left. */
  predicate Undecided(d: Slice, a: Action) {
    a.DoReceive? && Awaited(d, a.envelope) && !Decides(a.envelope.result) && d.row.brokerAttempts < 3
  }

  /** A retry reaches the broker only after a delay for every attempt already made. */
  lemma RetriesBackOff(cfg: Config, r: Run, i: nat, j: nat) returns (k: nat)
    requires IsRun(cfg, r) && i < j < |r.slices| && Undecided(r.slices[i], r.actions[i])
    ensures r.slices[i + 1].row.pending == Some(r.actions[i].mid) && r.actions[i].mid in r.slices[j].outbox
    ensures r.slices[j].outbox[r.actions[i].mid].handed ==>
      && i < k < j && r.actions[k] == DoHandOver(r.actions[i].mid)
      && r.times[i] + cfg.retryDelay * r.slices[i].row.brokerAttempts <= r.times[k]
  {
    StepOf(cfg, r, i);
    hide Ok, Perform, Decides, Awaited;
    ReceiveTimes(cfg, r.slices[i], r.actions[i].envelope, r.times[i], r.actions[i].mid);
    k := HandedOver(cfg, r, i + 1, j, r.actions[i].mid);
  }

  // ---------- Recoveries wait ----------

  /** The transaction sends a command, or leaves the saga to an operator. */
  predicate Acts(d: Slice, d': Slice) {
    d'.row.attempts != d.row.attempts || (Flagged(d') && !Flagged(d))
  }

  /** No recovery sends a command again, or gives the saga up, within the time-out of the moment
      at which its pending command was marked as published: over every run in which that command
      was not published before. */
  lemma RepeatsAreOverdue(cfg: Config, r: Run, j: nat) returns (i: nat)
    requires IsRun(cfg, r) && j < |r.actions| && r.actions[j].DoRecover? && Acts(r.slices[j], r.slices[j + 1])
    requires forall m | m in r.slices[0].outbox :: r.slices[0].outbox[m].publishedAt.None?
    ensures r.slices[j].row.pending.Some?
    ensures i < j && r.actions[i] == DoMarkPublished(r.slices[j].row.pending.value)
    ensures r.times[i] + cfg.commandTimeout <= r.times[j]
  {
    StepOf(cfg, r, j);
    var d, token, mid := r.slices[j], r.actions[j].token, r.actions[j].mid;
    hide Ok, Perform, Sends;
    if HoldsLease(d.row, token, r.times[j]) {
      RecoverTimes(cfg, d, token, r.times[j], mid);
      i := Marked(cfg, r, j, d.row.pending.value);
    } else {
      UnheldRecovery(cfg, d, token, r.times[j], mid);
    }
  }

  // ---------- Claims ----------

  /** Where a saga stands in time: its answer is not overdue before the time-out of its pending
      command, its lease was given no earlier than that, and no message was with the broker before
      it was available. */
  predicate Timely(cfg: Config, d: Slice, now: nat) {
    && (Active(d.row.progress.status) && !Flagged(d) ==> IsDue(cfg, d, d.row.nextAttemptAt))
    && (d.row.lease.Some? ==> d.row.nextAttemptAt <= now)
    && (forall m | m in d.outbox && d.outbox[m].handed :: d.outbox[m].availableAt <= now)
    && (forall m | m in d.outbox && d.outbox[m].publishedAt.Some? ::
          d.outbox[m].availableAt <= d.outbox[m].publishedAt.value)
  }

  /** The pending command became available a whole time-out ago. */
  predicate IsDue(cfg: Config, d: Slice, now: nat) {
    && d.row.pending.Some? && d.row.pending.value in d.outbox
    && d.outbox[d.row.pending.value].availableAt + cfg.commandTimeout <= now
  }

  lemma StaysTimely(cfg: Config, d: Slice, now: nat, later: nat)
    requires Timely(cfg, d, now) && now <= later
    ensures Timely(cfg, d, later)
  {
  }

  lemma AcceptedIsTimely(cfg: Config, id: Uuid, orderId: Uuid, payload: OrderPayload, now: nat, mid: Uuid, later: nat)
    ensures Timely(cfg, Accept(cfg, id, orderId, payload, now, mid), later)
  {
    hide FaithfulLog, ProgressOk, CommandsOk, RelayOk, BudgetOk;
    AcceptIsOk(cfg, id, orderId, payload, now, mid);
    var d := Accept(cfg, id, orderId, payload, now, mid);
    assert PendingOk(d);
  }

  lemma SendingIsTimely(cfg: Config, d: Slice, d': Slice, mid: Uuid, availableAt: nat, now: nat)
    requires Timely(cfg, d, now) && Sends(cfg, d, d', mid, availableAt)
    ensures Timely(cfg, d', now)
  {
  }

  lemma RestingIsTimely(cfg: Config, d: Slice, d': Slice, now: nat)
    requires Timely(cfg, d, now) && KeepsMessages(d, d') && d'.row.lease.None?
    requires Active(d'.row.progress.status) ==> Flagged(d')
    ensures Timely(cfg, d', now)
  {
  }

  lemma ReceiveIsTimely(cfg: Config, d: Slice, env: ResultEnvelope, now: nat, mid: Uuid)
    requires Ok(d) && mid !in d.outbox && Timely(cfg, d, now)
    ensures Timely(cfg, Perform(cfg, d, DoReceive(env, mid), now), now)
  {
    var d' := Perform(cfg, d, DoReceive(env, mid), now);
    if Awaited(d, env) {
      hide Ok, Perform, Decides, Awaited, Sends, Timely;
      ReceiveTimes(cfg, d, env, now, mid);
      if Sends(cfg, d, d', mid, now) {
        SendingIsTimely(cfg, d, d', mid, now, now);
      } else if Sends(cfg, d, d', mid, now + cfg.retryDelay * d.row.brokerAttempts) {
        SendingIsTimely(cfg, d, d', mid, now + cfg.retryDelay * d.row.brokerAttempts, now);
      } else {
        RestingIsTimely(cfg, d, d', now);
      }
    } else {
      hide Ok, Perform, Awaited;
      UnawaitedTimes(cfg, d, env, now, mid);
    }
  }

  lemma RecoverIsTimely(cfg: Config, d: Slice, token: Uuid, now: nat, mid: Uuid)
    requires Ok(d) && mid !in d.outbox && Timely(cfg, d, now)
    ensures Timely(cfg, Perform(cfg, d, DoRecover(token, mid), now), now)
  {
    var d' := Perform(cfg, d, DoRecover(token, mid), now);
    if HoldsLease(d.row, token, now) {
      hide Ok, Perform, Sends;
      RecoverTimes(cfg, d, token, now, mid);
      if Sends(cfg, d, d', mid, now) {
        SendingIsTimely(cfg, d, d', mid, now, now);
      }
    } else {
      UnheldRecovery(cfg, d, token, now, mid);
    }
  }

  lemma PerformIsTimely(cfg: Config, d: Slice, a: Action, now: nat)
    requires Ok(d) && Enabled(d, a) && Timely(cfg, d, now)
    ensures Timely(cfg, Perform(cfg, d, a, now), now)
  {
    hide Ok;
    match a {
      case DoConfirm(mid) =>
        hide Perform, Sends, Timely;
        ConfirmTimes(cfg, d, now, mid);
        if d.row.progress.status == PendingPayment {
          SendingIsTimely(cfg, d, Perform(cfg, d, a, now), mid, now, now);
        }
      case DoResume(mid) =>
        hide Perform, Sends, Timely;
        ResumeTimes(cfg, d, now, mid);
        if Flagged(d) { SendingIsTimely(cfg, d, Perform(cfg, d, a, now), mid, now, now); }
      case DoReceive(env, mid) => hide Perform, Timely; ReceiveIsTimely(cfg, d, env, now, mid);
      case DoRecover(token, mid) => hide Perform, Timely; RecoverIsTimely(cfg, d, token, now, mid);
      case _ =>
    }
  }

  /** A run whose first slice is timely, as an accepted order is. */
  predicate TimelyRun(cfg: Config, r: Run) {
    IsRun(cfg, r) && (r.times != [] ==> Timely(cfg, r.slices[0], r.times[0]))
  }

  lemma {:induction false} SlicesAreTimely(cfg: Config, r: Run, i: nat)
    requires TimelyRun(cfg, r) && i < |r.times|
    ensures Timely(cfg, r.slices[i], r.times[i])
  {
    hide Ok, Perform, Enabled, Timely;
    if i > 0 {
      SlicesAreTimely(cfg, r, i - 1);
      StepOf(cfg, r, i - 1);
      PerformIsTimely(cfg, r.slices[i - 1], r.actions[i - 1], r.times[i - 1]);
      StaysTimely(cfg, r.slices[i], r.times[i - 1], r.times[i]);
    }
  }

  /** A claim succeeds only on a running saga that no operator has to look at, that no other worker
      holds, and whose pending command has been available for a whole time-out; it holds for
      exactly the time asked for. */
  lemma ClaimsAreDue(cfg: Config, r: Run, i: nat)
    requires TimelyRun(cfg, r) && i < |r.actions| && r.actions[i].DoClaim? && r.slices[i + 1] != r.slices[i]
    ensures
      var d, now := r.slices[i], r.times[i];
      && Active(d.row.progress.status) && !Flagged(d) && IsDue(cfg, d, now)
      && (d.row.lease.Some? ==> d.row.lease.value.expiresAt <= now)
      && r.slices[i + 1].row.lease == Some(Lease(r.actions[i].token, now + r.actions[i].leaseMs))
      && r.slices[i + 1].outbox == d.outbox && r.slices[i + 1].row.pending == d.row.pending
  {
    hide Ok;
    SlicesAreTimely(cfg, r, i);
    StepOf(cfg, r, i);
  }

  lemma RecoverLeases(cfg: Config, d: Slice, token: Uuid, now: nat, mid: Uuid)
    requires Ok(d) && mid !in d.outbox
    ensures
      var d' := Perform(cfg, d, DoRecover(token, mid), now);
      d'.row.lease.None? || d'.row.lease == d.row.lease
  {
    hide Ok, HoldsLease, Recover;
    if HoldsLease(d.row, token, now) {
      RecoveryEndsLease(cfg, d, token, now, mid);
    } else {
      UnheldRecovery(cfg, d, token, now, mid);
    }
  }

  lemma PerformLeases(cfg: Config, d: Slice, a: Action, now: nat)
    requires Ok(d) && Enabled(d, a)
    ensures
      var d' := Perform(cfg, d, a, now);
      || d'.row.lease.None? || d'.row.lease == d.row.lease
      || (a.DoClaim? && d' != d && d'.row.lease == Some(Lease(a.token, now + a.leaseMs)))
  {
    hide Ok, Recover, Receive, NextOperation, Awaited;
    match a
    case DoReceive(env, mid) => ReceiveGivesNoLease(cfg, d, env, now, mid);
    case DoRecover(token, mid) => RecoverLeases(cfg, d, token, now, mid);
    case _ =>
  }

  /** A lease was given by a claim in the run, for as long as that claim asked. */
  lemma {:induction false} LeasesAreClaimed(cfg: Config, r: Run, j: nat) returns (i: nat)
    requires IsRun(cfg, r) && j < |r.slices| && r.slices[j].row.lease.Some?
    ensures i < j && r.actions[i].DoClaim? && r.slices[i + 1] != r.slices[i]
    ensures r.slices[j].row.lease == Some(Lease(r.actions[i].token, r.times[i] + r.actions[i].leaseMs))
  {
    hide Ok, Perform, Enabled;
    StepOf(cfg, r, j - 1);
    PerformLeases(cfg, r.slices[j - 1], r.actions[j - 1], r.times[j - 1]);
    if r.slices[j].row.lease == r.slices[j - 1].row.lease {
      i := LeasesAreClaimed(cfg, r, j - 1);
    } else {
      i := j - 1;
    }
  }

  /** A recovery changes anything only within the time of a claim under its own token, and that
      claim was due. */
  lemma RecoveriesAreClaimed(cfg: Config, r: Run, j: nat) returns (i: nat)
    requires TimelyRun(cfg, r) && j < |r.actions| && r.actions[j].DoRecover? && r.slices[j + 1] != r.slices[j]
    ensures i < j && r.actions[i].DoClaim? && r.actions[i].token == r.actions[j].token
    ensures r.times[i] <= r.times[j] < r.times[i] + r.actions[i].leaseMs
    ensures IsDue(cfg, r.slices[i], r.times[i])
  {
    hide Ok, Perform, Enabled, IsDue, Timely;
    StepOf(cfg, r, j);
    var d, token := r.slices[j], r.actions[j].token;
    if d.row.lease.None? || d.row.lease.value.owner != token || d.row.lease.value.expiresAt <= r.times[j] {
      NoLeaseNoRecovery(cfg, d, token, r.times[j], r.actions[j].mid);
    }
    i := LeasesAreClaimed(cfg, r, j);
    ClaimsAreDue(cfg, r, i);
  }
}
