/** What a payment or shipping service keeps under every interleaving of its steps, crashes and
    late provider calls, for arbitrary commands under arbitrary keys. */
module ServiceInvariant {
  import opened Contracts
  import opened Provider
  import opened Mailbox
  import opened Service

  // ---------- One order ----------

  /** Everything stored about one order, with the provider's memory of its two calls. */
  datatype View = View(
    effect: Option<Effect>,
    undo: Option<Undo>,
    account: Option<Account>,
    forward: Option<Cached>,
    reverse: Option<Cached>)

  function SagaOf(s: State, o: Uuid): Uuid {
    if o in s.effects then s.effects[o].sagaId else 0
  }

  function ViewAt(kind: Kind, s: State, o: Uuid): View {
    View(Get(s.effects, o), Get(s.undos, o), Get(s.provider.accounts, o),
         Get(s.provider.requests, SagaKey(SagaOf(s, o), ForwardOp(kind))),
         Get(s.provider.requests, SagaKey(SagaOf(s, o), ReverseOp(kind))))
  }

  function ForwardContent(kind: Kind, o: Uuid, e: Effect): Content {
    Fingerprint(ForwardCall(kind, o, e))
  }

  function ReverseContent(kind: Kind, o: Uuid, e: Effect): Content {
    Fingerprint(ReverseCall(kind, o, e.sagaId))
  }

  function AppliedTo(o: Uuid): Outcome { Succeeded(Applied(ReferenceOf(o))) }

  /** How the provider refuses this row's forward call: by its rejection, if it knows the call by its
      key, and otherwise because the key was used for something else. */
  function Refused(kind: Kind, o: Uuid, e: Effect, v: View): Outcome {
    Failed(if v.forward.Some? && v.forward.value.content == ForwardContent(kind, o, e) then Rejection(kind)
           else IdempotencyConflict)
  }

  /** The provider holds an account exactly when it answered this order's own forward call with
      success, and the account is undone exactly when it answered the reverse call. */
  predicate ProviderTells(kind: Kind, o: Uuid, e: Effect, v: View) {
    && (v.account.Some? ==>
          && v.account.value == Account(e.sagaId, Some(ForwardContent(kind, o, e)), v.account.value.status,
                                        Some(ReferenceOf(o)))
          && v.account.value.status in {LiveAccount, UndoneAccount})
    && (v.account.Some? <==> v.forward == Some(Cached(ForwardContent(kind, o, e), AppliedTo(o))))
    && (v.forward.Some? && v.forward.value.content == ForwardContent(kind, o, e) && v.account.None? ==>
          v.forward.value.outcome == Failed(Rejection(kind)))
    && (v.account.Some? && v.account.value.status == UndoneAccount <==>
          v.reverse == Some(Cached(ReverseContent(kind, o, e), Succeeded(Undone))))
    && (v.reverse.Some? && v.reverse.value.content == ReverseContent(kind, o, e) ==>
          v.reverse.value.outcome == Succeeded(Undone))
  }

  /** The local row tells the truth about the provider. */
  predicate EffectOk(kind: Kind, o: Uuid, e: Effect, v: View) {
    && WellFormed(kind, ForwardCall(kind, o, e))
    && (e.status == PendingEffect <==> e.result.None?)
    && (e.result.None? ==> e.reference.None?)
    && (e.result.Some? ==>
          match e.result.value
          case Unknown => false
          case Succeeded(data) =>
            && e.result.value == AppliedTo(o) && e.reference == Some(ReferenceOf(o))
            && v.account.Some?
            && e.status in {SettledStatus(e.details), UndoneEffect}
          case Failed(_) =>
            && e.result.value == Refused(kind, o, e, v) && e.status == FailedEffect && e.reference.None?
            && v.account.None? && v.forward.Some?)
    && (e.status == UndoneEffect ==> v.account.Some? && v.account.value.status == UndoneAccount)
    && (e.status == UndoneEffect <==> v.undo.Some? && v.undo.value.status == UndoneUndo)
    && (v.undo.Some? ==> v.undo.value.sagaId == e.sagaId && v.undo.value.linked)
    && (v.undo.Some? && v.undo.value.status == NoopUndo ==> e.status in {FailedEffect, OnDelivery})
    && (v.account.Some? && v.account.value.status == UndoneAccount ==> v.undo.Some?)
  }

  predicate OrderOk(kind: Kind, o: Uuid, v: View) {
    match v.effect
    case Some(e) => ProviderTells(kind, o, e, v) && EffectOk(kind, o, e, v)
    case None => v.account.None? && (v.undo.Some? ==> !v.undo.value.linked && v.undo.value.status != UndoneUndo)
  }

  // ---------- Calls, receipts, executions ----------

  /** Calls are made only for recorded rows, and undo only what was done. */
  predicate CallOk(kind: Kind, c: Command, v: View) {
    && v.effect.Some?
    && (|| c == ForwardCall(kind, c.orderId, v.effect.value)
        || (&& c == ReverseCall(kind, c.orderId, v.effect.value.sagaId)
            && v.effect.value.result == Some(AppliedTo(c.orderId))
            && v.undo.Some?))
  }

  function CommandOf(key: Key, content: Content): Command {
    Command(content.orderId, content.sagaId, key, content.operation, content.payload)
  }

  /** The forward effect this command asks for was settled as the outcome says. */
  predicate SettledAs(c: Content, v: View, outcome: Outcome) {
    && v.effect.Some? && v.effect.value.sagaId == c.sagaId && v.effect.value.details == c.payload
    && v.effect.value.result == Some(outcome)
  }

  /** The order's rows are another saga's, or of other details, than the command asks for. */
  predicate Clashes(c: Content, v: View) {
    || (v.effect.Some? && (v.effect.value.sagaId != c.sagaId || v.effect.value.details != c.payload))
    || (v.undo.Some? && v.undo.value.sagaId != c.sagaId)
  }

  /** A forward command is refused by the service itself for a clash, and otherwise because its own
      compensation came before. */
  predicate RefusedByRows(c: Content, v: View, code: FailureCode) {
    || (code == IdempotencyConflict && Clashes(c, v))
    || (code == AlreadyCompensated && v.undo.Some? && !Clashes(c, v))
  }

  /** A completed receipt is backed by the rows. */
  predicate ReceiptOk(kind: Kind, r: Receipt, v: View) {
    && r.content.operation in {ForwardOp(kind), ReverseOp(kind)}
    && (r.result.Some? ==>
          if r.content.operation == ForwardOp(kind) then
            match r.result.value
            case Unknown => false
            case Succeeded(_) => SettledAs(r.content, v, r.result.value)
            case Failed(code) => RefusedByRows(r.content, v, code) || SettledAs(r.content, v, r.result.value)
          else
            && r.result.value in {Succeeded(Undone), Succeeded(Noop)}
            && v.undo.Some? && v.undo.value.sagaId == r.content.sagaId
            && v.undo.value.status == if r.result.value == Succeeded(Undone) then UndoneUndo else NoopUndo)
  }

  /** The pending compensation an execution works on. */
  predicate UndoPending(c: Command, v: View) {
    v.undo.Some? && v.undo.value.sagaId == c.sagaId && v.undo.value.status == PendingUndo
  }

  /** The row an execution works on is its own. */
  predicate OwnsRow(kind: Kind, x: Execution, v: View) {
    && v.effect.Some? && v.effect.value.sagaId == x.command.sagaId
    && if x.command.operation == ForwardOp(kind)
       then v.undo.None? && v.effect.value.details == x.command.payload
       else UndoPending(x.command, v) && x.effect.Some? && x.effect.value.status == PendingEffect
  }

  predicate ExecutionOk(kind: Kind, o: Uuid, x: Execution, v: View, r: Option<Receipt>, issued: set<Command>) {
    var c := x.command;
    && c.orderId == o && WellFormed(kind, c)
    && r == Some(Receipt(Fingerprint(c), None))
    && match x.position
       case Opened => x.effect == v.effect && x.undo == v.undo
       case Resolving => OwnsRow(kind, x, v)
       case AwaitingForward =>
         OwnsRow(kind, x, v) && v.effect.value.result.None? && ForwardCall(kind, o, v.effect.value) in issued
       case GotForward(outcome) =>
         && OwnsRow(kind, x, v) && v.effect.value.result.None?
         && (|| (outcome == AppliedTo(o) && v.account.Some?)
             || (outcome == Refused(kind, o, v.effect.value, v) && v.account.None? && v.forward.Some?))
       case Undoing =>
         && c.operation == ReverseOp(kind) && x.effect.Some? && UndoPending(c, v)
         && v.effect.Some? && v.effect.value.sagaId == c.sagaId && v.effect.value.result == Some(AppliedTo(o))
       case AwaitingReverse =>
         && c.operation == ReverseOp(kind) && x.effect.Some? && UndoPending(c, v)
         && v.effect.Some? && v.effect.value.sagaId == c.sagaId && v.effect.value.result == Some(AppliedTo(o))
         && ReverseCall(kind, o, c.sagaId) in issued
       case Committing(outcome) =>
         if c.operation == ForwardOp(kind) then
           || (outcome.Failed? && RefusedByRows(Fingerprint(c), v, outcome.code))
           || (!outcome.Unknown? && SettledAs(Fingerprint(c), v, outcome))
         else
           && v.undo.Some? && v.undo.value.sagaId == c.sagaId
           && (|| (&& outcome == Succeeded(Undone) && v.undo.value.status in {PendingUndo, UndoneUndo}
                   && x.effect.Some? && v.effect.Some? && v.effect.value.result == Some(AppliedTo(o))
                   && v.account.Some? && v.account.value.status == UndoneAccount)
               || (&& outcome == Succeeded(Noop) && v.undo.value.status in {PendingUndo, NoopUndo}
                   && (v.effect.Some? ==> v.effect.value.status in {FailedEffect, OnDelivery})))
  }

  /** Anything definite but a conflict is reported only when the receipt was completed with it. */
  predicate Backed(receipts: map<Key, Receipt>, c: Command, outcome: Outcome) {
    !outcome.Unknown? && outcome != Failed(IdempotencyConflict) ==>
      c.key in receipts && receipts[c.key] == Receipt(Fingerprint(c), Some(outcome))
  }

  // ---------- The whole service ----------

  ghost predicate DataOk(kind: Kind, s: State) {
    && (forall o: Uuid :: OrderOk(kind, o, ViewAt(kind, s, o)))
    && (forall c | c in s.issued :: CallOk(kind, c, ViewAt(kind, s, c.orderId)))
    && (forall k | k in s.provider.requests :: CommandOf(k, s.provider.requests[k].content) in s.issued)
    && (forall k | k in s.receipts :: ReceiptOk(kind, s.receipts[k], ViewAt(kind, s, s.receipts[k].content.orderId)))
  }

  predicate AnswersOk(s: State) {
    && Coupled(s.mail)
    && (forall a | a in s.answers :: Backed(s.receipts, a.command, a.outcome))
    && (forall i | 0 <= i < |s.mail.outbox| ::
          Backed(s.receipts, s.mail.inbox[s.mail.outbox[i].causationId], s.mail.outbox[i].result.outcome))
  }

  predicate ExecutionAtOk(kind: Kind, s: State, o: Uuid)
    requires o in s.executions
  {
    ExecutionOk(kind, o, s.executions[o], ViewAt(kind, s, o), Get(s.receipts, s.executions[o].command.key), s.issued)
  }

  ghost predicate Consistent(kind: Kind, s: State) {
    && DataOk(kind, s)
    && AnswersOk(s)
    && (forall o | o in s.executions :: ExecutionAtOk(kind, s, o))
  }

  // ---------- Evolution: compensation is final, answers are stable ----------

  predicate EffectEvolves(e: Option<Effect>, e': Option<Effect>) {
    e.Some? ==>
      && e'.Some? && e'.value.sagaId == e.value.sagaId && e'.value.details == e.value.details
      && (e.value.result.Some? ==>
          e'.value.result == e.value.result && e'.value.status in {e.value.status, UndoneEffect})
      && (e.value.status in {UndoneEffect, FailedEffect} ==> e'.value.status == e.value.status)
  }

  predicate UndoEvolves(u: Option<Undo>, u': Option<Undo>) {
    u.Some? ==>
      && u'.Some? && u'.value.sagaId == u.value.sagaId && u'.value.linked == u.value.linked
      && (u.value.status != PendingUndo ==> u' == u)
  }

  predicate AccountEvolves(a: Option<Account>, a': Option<Account>) {
    a.Some? ==> a'.Some? && (a' == a || (a.value.status == LiveAccount
                                         && a'.value == a.value.(status := UndoneAccount)))
  }

  predicate Evolves(v: View, v': View) {
    && EffectEvolves(v.effect, v'.effect) && UndoEvolves(v.undo, v'.undo) && AccountEvolves(v.account, v'.account)
    && (v.effect.Some? && v.forward.Some? ==> v'.forward == v.forward)
    && (v.effect.Some? && v.reverse.Some? ==> v'.reverse == v.reverse)
    && (v.undo.Some? && v.effect.None? ==> v'.effect.None?)
  }

  lemma ReceiptStays(kind: Kind, r: Receipt, v: View, v': View)
    requires ReceiptOk(kind, r, v) && Evolves(v, v')
    ensures ReceiptOk(kind, r, v')
  {
  }

  lemma CallStays(kind: Kind, c: Command, v: View, v': View)
    requires CallOk(kind, c, v) && Evolves(v, v')
    ensures CallOk(kind, c, v')
  {
  }

  // ---------- The provider ----------

  /** What a reply to one of the service's own calls can be, and what it then proves. */
  predicate ReplyTells(kind: Kind, c: Command, outcome: Outcome, v: View) {
    || outcome.Unknown?
    || (&& c.operation == ForwardOp(kind)
        && (|| (outcome == AppliedTo(c.orderId) && v.account.Some?)
            || (&& v.effect.Some? && outcome == Refused(kind, c.orderId, v.effect.value, v)
                && v.account.None? && v.forward.Some?)))
    || (&& c.operation == ReverseOp(kind)
        && (|| outcome == Failed(IdempotencyConflict)
            || (outcome == Succeeded(Undone) && v.account.Some? && v.account.value.status == UndoneAccount)))
  }

  /** What a call does to its own order. */
  predicate TakesEffect(kind: Kind, s: State, c: Command, mode: Mode) {
    var (tables, reply) := Execute(kind, s.provider, c, mode);
    var v, v' := ViewAt(kind, s, c.orderId), ViewAt(kind, s.(provider := tables), c.orderId);
    && OrderOk(kind, c.orderId, v') && Evolves(v, v') && ReplyTells(kind, c, reply, v')
    && v'.effect == v.effect && v'.undo == v.undo
  }

  lemma RepetitionTakesEffect(kind: Kind, s: State, c: Command, mode: Mode)
    requires OrderOk(kind, c.orderId, ViewAt(kind, s, c.orderId)) && CallOk(kind, c, ViewAt(kind, s, c.orderId))
    requires c.key in s.provider.requests
    ensures TakesEffect(kind, s, c, mode)
  {
    hide Decide;
    assert Execute(kind, s.provider, c, mode).0 == s.provider;
  }

  lemma ForwardTakesEffect(kind: Kind, s: State, c: Command, mode: Mode)
    requires OrderOk(kind, c.orderId, ViewAt(kind, s, c.orderId)) && CallOk(kind, c, ViewAt(kind, s, c.orderId))
    requires c.operation == ForwardOp(kind) && c.key !in s.provider.requests
    ensures TakesEffect(kind, s, c, mode)
  {
  }

  lemma ReverseTakesEffect(kind: Kind, s: State, c: Command, mode: Mode)
    requires OrderOk(kind, c.orderId, ViewAt(kind, s, c.orderId)) && CallOk(kind, c, ViewAt(kind, s, c.orderId))
    requires c.operation == ReverseOp(kind) && c.key !in s.provider.requests
    ensures TakesEffect(kind, s, c, mode)
  {
  }

  /** The called order itself. */
  lemma CallTakesEffect(kind: Kind, s: State, c: Command, mode: Mode)
    requires DataOk(kind, s) && c in s.issued
    ensures
      var (tables, reply) := Execute(kind, s.provider, c, mode);
      var v, v' := ViewAt(kind, s, c.orderId), ViewAt(kind, s.(provider := tables), c.orderId);
      && OrderOk(kind, c.orderId, v') && Evolves(v, v') && ReplyTells(kind, c, reply, v')
      && v'.effect == v.effect && v'.undo == v.undo
  {
    hide Execute, OrderOk, Evolves, ReplyTells;
    var v := ViewAt(kind, s, c.orderId);
    assert OrderOk(kind, c.orderId, v);
    assert CallOk(kind, c, v);
    if c.key in s.provider.requests {
      RepetitionTakesEffect(kind, s, c, mode);
    } else if c.operation == ForwardOp(kind) {
      ForwardTakesEffect(kind, s, c, mode);
    } else {
      ReverseTakesEffect(kind, s, c, mode);
    }
  }

  lemma ExecuteFrame(kind: Kind, t: Tables, c: Command, mode: Mode)
    ensures
      var t' := Execute(kind, t, c, mode).0;
      && (forall o :: o != c.orderId ==> Get(t'.accounts, o) == Get(t.accounts, o))
      && (forall k :: k != c.key ==> Get(t'.requests, k) == Get(t.requests, k))
      && c.key in t'.requests
      && (c.key in t.requests ==> t' == t)
      && (c.key !in t.requests ==> t'.requests[c.key].content == Fingerprint(c))
      && t'.requests.Keys == t.requests.Keys + {c.key}
  {
  }

  /** A key of the saga may be taken by another order's call; nothing else changes. */
  predicate Taken(o: Uuid, before: Option<Cached>, after: Option<Cached>) {
    after == before || (before.None? && after.Some? && after.value.content.orderId != o)
  }

  lemma TakenKeysAreHarmless(kind: Kind, o: Uuid, v: View, v': View)
    requires OrderOk(kind, o, v)
    requires v' == v.(forward := v'.forward, reverse := v'.reverse)
    requires Taken(o, v.forward, v'.forward) && Taken(o, v.reverse, v'.reverse)
    ensures OrderOk(kind, o, v') && Evolves(v, v')
  {
  }

  /** Other orders see at most a key of their saga taken by this call's content. */
  lemma CallSparesOthers(kind: Kind, s: State, c: Command, mode: Mode, o: Uuid)
    requires DataOk(kind, s) && o != c.orderId
    ensures
      var s' := s.(provider := Execute(kind, s.provider, c, mode).0);
      && OrderOk(kind, o, ViewAt(kind, s', o)) && Evolves(ViewAt(kind, s, o), ViewAt(kind, s', o))
      && ViewAt(kind, s', o).effect == ViewAt(kind, s, o).effect && ViewAt(kind, s', o).undo == ViewAt(kind, s, o).undo
      && ViewAt(kind, s', o).account == ViewAt(kind, s, o).account
  {
    ExecuteFrame(kind, s.provider, c, mode);
    TakenKeysAreHarmless(kind, o, ViewAt(kind, s, o),
                         ViewAt(kind, s.(provider := Execute(kind, s.provider, c, mode).0), o));
  }

  ghost predicate AllEvolve(kind: Kind, s: State, s': State) {
    forall o: Uuid :: Evolves(ViewAt(kind, s, o), ViewAt(kind, s', o))
  }

  /** Receipts and calls survive anything that evolves; a change of data need only show its orders. */
  lemma EvolvingKeepsData(kind: Kind, s: State, s': State)
    requires DataOk(kind, s) && AllEvolve(kind, s, s')
    requires forall o: Uuid :: OrderOk(kind, o, ViewAt(kind, s', o))
    requires s'.issued == s.issued
    requires forall k | k in s'.provider.requests :: CommandOf(k, s'.provider.requests[k].content) in s.issued
    requires forall k | k in s'.receipts ::
      (k in s.receipts && s'.receipts[k] == s.receipts[k])
        || ReceiptOk(kind, s'.receipts[k], ViewAt(kind, s', s'.receipts[k].content.orderId))
    ensures DataOk(kind, s')
  {
    hide OrderOk, Evolves, ReceiptOk, CallOk;
    forall c | c in s'.issued ensures CallOk(kind, c, ViewAt(kind, s', c.orderId)) {
      CallStays(kind, c, ViewAt(kind, s, c.orderId), ViewAt(kind, s', c.orderId));
    }
    forall k | k in s'.receipts ensures ReceiptOk(kind, s'.receipts[k],
                                                  ViewAt(kind, s', s'.receipts[k].content.orderId)) {
      if k in s.receipts && s'.receipts[k] == s.receipts[k] {
        var o := s.receipts[k].content.orderId;
        ReceiptStays(kind, s.receipts[k], ViewAt(kind, s, o), ViewAt(kind, s', o));
      }
    }
  }

  /** A provider call, in time or late, keeps everything but the caller's own execution in order. */
  lemma CallKeepsData(kind: Kind, s: State, c: Command, mode: Mode)
    requires DataOk(kind, s) && c in s.issued
    ensures
      var s' := s.(provider := Execute(kind, s.provider, c, mode).0);
      DataOk(kind, s') && AllEvolve(kind, s, s')
  {
    hide OrderOk, Evolves, ReceiptOk, CallOk, Execute;
    var s' := s.(provider := Execute(kind, s.provider, c, mode).0);
    forall o: Uuid ensures OrderOk(kind, o, ViewAt(kind, s', o)) && Evolves(ViewAt(kind, s, o), ViewAt(kind, s', o)) {
      if o == c.orderId {
        CallTakesEffect(kind, s, c, mode);
      } else {
        CallSparesOthers(kind, s, c, mode, o);
      }
    }
    ExecuteFrame(kind, s.provider, c, mode);
    forall k | k in s'.provider.requests ensures CommandOf(k, s'.provider.requests[k].content) in s.issued {
      if k != c.key {
        assert Get(s'.provider.requests, k) == Get(s.provider.requests, k);
      } else if c.key !in s.provider.requests {
        assert CommandOf(k, Fingerprint(c)) == c;
      }
    }
    EvolvingKeepsData(kind, s, s');
  }

  // ---------- Control: executions and answers ----------

  /** Everything but the execution of order `o`, which is under way. */
  ghost predicate Others(kind: Kind, s: State, o: Uuid) {
    && DataOk(kind, s)
    && AnswersOk(s)
    && (forall p | p in s.executions && p != o :: ExecutionAtOk(kind, s, p))
  }

  predicate SameData(s: State, s': State) {
    && s'.effects == s.effects && s'.undos == s.undos && s'.provider == s.provider
    && s'.issued == s.issued && s'.receipts == s.receipts
  }

  lemma ControlKeepsData(kind: Kind, s: State, s': State)
    requires DataOk(kind, s) && SameData(s, s')
    ensures DataOk(kind, s')
    ensures forall o: Uuid :: ViewAt(kind, s', o) == ViewAt(kind, s, o)
  {
    hide OrderOk, ReceiptOk, CallOk;
    assert forall o: Uuid :: ViewAt(kind, s', o) == ViewAt(kind, s, o);
  }

  lemma MoveKeeps(kind: Kind, s: State, x: Execution, position: Position)
    requires Others(kind, s, x.command.orderId)
    requires ExecutionOk(kind, x.command.orderId, x.(position := position), ViewAt(kind, s, x.command.orderId),
                         Get(s.receipts, x.command.key), s.issued)
    ensures Consistent(kind, MoveTo(s, x, position))
  {
    hide OrderOk, ReceiptOk, CallOk, ExecutionOk, Coupled;
    var s' := MoveTo(s, x, position);
    ControlKeepsData(kind, s, s');
    forall p | p in s'.executions ensures ExecutionAtOk(kind, s', p) {
      assert p != x.command.orderId ==> ExecutionAtOk(kind, s, p);
    }
  }

  lemma LeaveKeeps(kind: Kind, s: State, x: Execution, outcome: Outcome)
    requires Others(kind, s, x.command.orderId)
    requires Backed(s.receipts, x.command, outcome)
    ensures Consistent(kind, Leave(s, x, outcome))
  {
    hide OrderOk, ReceiptOk, CallOk, ExecutionOk, Coupled;
    var s' := Leave(s, x, outcome);
    ControlKeepsData(kind, s, s');
    forall p | p in s'.executions ensures ExecutionAtOk(kind, s', p) {
      assert ExecutionAtOk(kind, s, p);
    }
  }

  // ---------- Data steps of one order ----------

  /** Rows of other orders, and receipts of other orders, are not touched. */
  ghost predicate Local(kind: Kind, s: State, s': State, o: Uuid) {
    && AllEvolve(kind, s, s')
    && (forall p: Uuid :: p != o ==>
          ViewAt(kind, s', p).effect == ViewAt(kind, s, p).effect
            && ViewAt(kind, s', p).undo == ViewAt(kind, s, p).undo)
    && s.issued <= s'.issued
    && s'.executions == s.executions
    && (forall k | k in s.receipts && s.receipts[k].content.orderId != o ::
        k in s'.receipts && s'.receipts[k] == s.receipts[k])
  }

  lemma ExecutionStays(kind: Kind, o: Uuid, x: Execution, v: View, v': View, r: Option<Receipt>,
                       issued: set<Command>, issued': set<Command>)
    requires ExecutionOk(kind, o, x, v, r, issued)
    requires OrderOk(kind, o, v) && OrderOk(kind, o, v') && Evolves(v, v')
    requires v'.effect == v.effect && v'.undo == v.undo && issued <= issued'
    ensures ExecutionOk(kind, o, x, v', r, issued')
  {
  }

  /** Lock, receipt and shape of an execution under way. */
  predicate Underway(kind: Kind, o: Uuid, x: Execution, r: Option<Receipt>) {
    x.command.orderId == o && WellFormed(kind, x.command) && r == Some(Receipt(Fingerprint(x.command), None))
  }

  lemma WorkingFacts(kind: Kind, o: Uuid, x: Execution, v: View, r: Option<Receipt>, issued: set<Command>)
    requires ExecutionOk(kind, o, x, v, r, issued)
    ensures Underway(kind, o, x, r)
    ensures x.position in {Resolving, AwaitingForward} || x.position.GotForward? ==> OwnsRow(kind, x, v)
    ensures x.position == AwaitingForward ==>
      v.effect.value.result.None? && ForwardCall(kind, o, v.effect.value) in issued
    ensures x.position == AwaitingReverse ==> ReverseCall(kind, o, x.command.sagaId) in issued
    ensures x.position == Opened ==> x.effect == v.effect && x.undo == v.undo
    ensures x.position != GotForward(Succeeded(Undone))
  {
  }

  lemma LocalKeepsOthers(kind: Kind, s: State, s': State, o: Uuid)
    requires DataOk(kind, s) && DataOk(kind, s') && Local(kind, s, s', o)
    requires forall p | p in s.executions && p != o :: ExecutionAtOk(kind, s, p)
    ensures forall p | p in s'.executions && p != o :: ExecutionAtOk(kind, s', p)
  {
    hide OrderOk, Evolves, ReceiptOk, CallOk, ExecutionOk;
    forall p | p in s'.executions && p != o ensures ExecutionAtOk(kind, s', p) {
      var x := s.executions[p];
      assert ExecutionAtOk(kind, s, p);
      assert OrderOk(kind, p, ViewAt(kind, s, p)) && OrderOk(kind, p, ViewAt(kind, s', p));
      WorkingFacts(kind, p, x, ViewAt(kind, s, p), Get(s.receipts, x.command.key), s.issued);
      ExecutionStays(kind, p, x, ViewAt(kind, s, p), ViewAt(kind, s', p), Get(s.receipts, x.command.key), s.issued,
                     s'.issued);
    }
  }

  /** A completed receipt is never touched again. */
  predicate ReceiptsStay(s: State, s': State) {
    forall k | k in s.receipts && s.receipts[k].result.Some? :: k in s'.receipts && s'.receipts[k] == s.receipts[k]
  }

  lemma AnswersStay(s: State, s': State)
    requires AnswersOk(s) && ReceiptsStay(s, s') && s'.mail == s.mail && s'.answers == s.answers
    ensures AnswersOk(s')
  {
    hide Coupled;
  }

  /** Steps after which everything evolved and no completed receipt changed. */
  ghost predicate Progresses(kind: Kind, s: State, s': State) {
    Consistent(kind, s') && AllEvolve(kind, s, s') && ReceiptsStay(s, s')
  }

  lemma EvolvesReflexively(v: View)
    ensures Evolves(v, v)
  {
  }

  lemma SameViewsEvolve(kind: Kind, s: State, s': State)
    requires s'.effects == s.effects && s'.undos == s.undos && s'.provider == s.provider
    ensures AllEvolve(kind, s, s')
  {
    forall o: Uuid ensures Evolves(ViewAt(kind, s, o), ViewAt(kind, s', o)) {
      assert ViewAt(kind, s', o) == ViewAt(kind, s, o);
      EvolvesReflexively(ViewAt(kind, s, o));
    }
  }

  lemma EvolvingChains(kind: Kind, s: State, s': State, s'': State)
    requires AllEvolve(kind, s, s') && AllEvolve(kind, s', s'')
    ensures AllEvolve(kind, s, s'')
  {
    hide Evolves;
    forall o: Uuid ensures Evolves(ViewAt(kind, s, o), ViewAt(kind, s'', o)) {
      EvolvesTransitively(ViewAt(kind, s, o), ViewAt(kind, s', o), ViewAt(kind, s'', o));
    }
  }

  lemma EvolvesTransitively(v: View, v': View, v'': View)
    requires Evolves(v, v') && Evolves(v', v'')
    ensures Evolves(v, v'')
  {
  }

  lemma AnswersKeepConsistency(kind: Kind, s: State, s': State)
    requires Consistent(kind, s) && SameData(s, s') && s'.executions == s.executions && AnswersOk(s')
    ensures Progresses(kind, s, s')
  {
    hide OrderOk, Evolves, ReceiptOk, CallOk, ExecutionOk, Coupled;
    ControlKeepsData(kind, s, s');
    SameViewsEvolve(kind, s, s');
    forall p | p in s'.executions ensures ExecutionAtOk(kind, s', p) {
      assert ExecutionAtOk(kind, s, p);
      assert ViewAt(kind, s', p) == ViewAt(kind, s, p);
    }
  }

  lemma AnswerKeeps(kind: Kind, s: State, message: Option<Uuid>, c: Command, outcome: Outcome)
    requires Consistent(kind, s) && Backed(s.receipts, c, outcome)
    ensures Progresses(kind, s, Answer(s, message, c, outcome))
  {
    hide OrderOk, ReceiptOk, CallOk, Coupled, Evolves;
    AnswersKeepConsistency(kind, s, Answer(s, message, c, outcome));
  }

  lemma WriteReceipt(kind: Kind, s: State, key: Key, r: Receipt)
    requires DataOk(kind, s) && ReceiptOk(kind, r, ViewAt(kind, s, r.content.orderId))
    ensures
      var s1 := s.(receipts := s.receipts[key := r]);
      && DataOk(kind, s1) && AllEvolve(kind, s, s1)
      && (forall o: Uuid :: ViewAt(kind, s1, o) == ViewAt(kind, s, o))
  {
    hide OrderOk, CallOk, Evolves, ReceiptOk;
    var s1 := s.(receipts := s.receipts[key := r]);
    SameViewsEvolve(kind, s, s1);
    assert forall o: Uuid :: ViewAt(kind, s1, o) == ViewAt(kind, s, o);
    EvolvingKeepsData(kind, s, s1);
  }

  lemma OpenedReceipt(kind: Kind, s: State, c: Command)
    requires Consistent(kind, s) && WellFormed(kind, c) && c.orderId !in s.executions
    requires c.key in s.receipts ==> s.receipts[c.key] == Receipt(Fingerprint(c), None)
    ensures
      var s1 := s.(receipts := s.receipts[c.key := Receipt(Fingerprint(c), None)]);
      Others(kind, s1, c.orderId) && AllEvolve(kind, s, s1) && ReceiptsStay(s, s1)
  {
    hide OrderOk, CallOk, ExecutionOk, Coupled, Evolves;
    var s1 := s.(receipts := s.receipts[c.key := Receipt(Fingerprint(c), None)]);
    WriteReceipt(kind, s, c.key, Receipt(Fingerprint(c), None));
    LocalKeepsOthers(kind, s, s1, c.orderId);
    AnswersStay(s, s1);
  }

  lemma StartKeeps(kind: Kind, s: State, message: Option<Uuid>, c: Command)
    requires Consistent(kind, s) && WellFormed(kind, c) && c.orderId !in s.executions
    requires c.key in s.receipts ==> s.receipts[c.key] == Receipt(Fingerprint(c), None)
    ensures Progresses(kind, s, Begin(s, message, c))
  {
    hide OrderOk, ReceiptOk, CallOk, Coupled, Evolves;
    var s1 := s.(receipts := s.receipts[c.key := Receipt(Fingerprint(c), None)]);
    OpenedReceipt(kind, s, c);
    var x := Execution(message, c, Get(s.effects, c.orderId), Get(s.undos, c.orderId), Opened);
    MoveKeeps(kind, s1, x, Opened);
    var s' := MoveTo(s1, x, Opened);
    assert s' == Begin(s, message, c);
    SameViewsEvolve(kind, s, s');
  }

  lemma BeginKeeps(kind: Kind, s: State, message: Option<Uuid>, c: Command)
    requires Consistent(kind, s) && WellFormed(kind, c)
    ensures Progresses(kind, s, Begin(s, message, c))
  {
    hide OrderOk, ReceiptOk, CallOk, Coupled, Evolves;
    if c.orderId in s.executions {
      AnswerKeeps(kind, s, message, c, Unknown);
    } else if c.key in s.receipts && s.receipts[c.key].content != Fingerprint(c) {
      AnswerKeeps(kind, s, message, c, Failed(IdempotencyConflict));
    } else if c.key in s.receipts && s.receipts[c.key].result.Some? {
      AnswerKeeps(kind, s, message, c, s.receipts[c.key].result.value);
    } else {
      StartKeeps(kind, s, message, c);
    }
  }

  // ---------- Data steps ----------

  /** Changing the rows of one order, as its execution does. */
  lemma RowStep(kind: Kind, s: State, s': State, o: Uuid)
    requires Others(kind, s, o)
    requires s' == s.(effects := s'.effects, undos := s'.undos)
    requires forall p :: p != o ==> Get(s'.effects, p) == Get(s.effects, p) && Get(s'.undos, p) == Get(s.undos, p)
    requires Evolves(ViewAt(kind, s, o), ViewAt(kind, s', o)) && OrderOk(kind, o, ViewAt(kind, s', o))
    ensures Others(kind, s', o) && AllEvolve(kind, s, s')
  {
    hide OrderOk, ReceiptOk, CallOk, ExecutionOk, Coupled, Evolves;
    forall p: Uuid
      ensures p != o ==> ViewAt(kind, s', p) == ViewAt(kind, s, p)
      ensures OrderOk(kind, p, ViewAt(kind, s', p)) && Evolves(ViewAt(kind, s, p), ViewAt(kind, s', p))
    {
      assert OrderOk(kind, p, ViewAt(kind, s, p));
      if p != o {
        assert Get(s'.effects, p) == Get(s.effects, p) && Get(s'.undos, p) == Get(s.undos, p);
        assert ViewAt(kind, s', p) == ViewAt(kind, s, p);
        EvolvesReflexively(ViewAt(kind, s, p));
      }
    }
    EvolvingKeepsData(kind, s, s');
    LocalKeepsOthers(kind, s, s', o);
    AnswersStay(s, s');
  }

  lemma IssuingKeepsViews(kind: Kind, s: State, s': State)
    requires s' == s.(issued := s'.issued)
    ensures forall o: Uuid :: ViewAt(kind, s', o) == ViewAt(kind, s, o)
  {
  }

  lemma IssueStep(kind: Kind, s: State, c: Command)
    requires Others(kind, s, c.orderId) && CallOk(kind, c, ViewAt(kind, s, c.orderId))
    ensures
      var s' := s.(issued := s.issued + {c});
      && Others(kind, s', c.orderId)
      && (forall o: Uuid :: ViewAt(kind, s', o) == ViewAt(kind, s, o))
  {
    hide OrderOk, ReceiptOk, CallOk, ExecutionOk, Coupled, Evolves;
    var s' := s.(issued := s.issued + {c});
    IssuingKeepsViews(kind, s, s');
    hide ViewAt;
    SameViewsEvolve(kind, s, s');
    LocalKeepsOthers(kind, s, s', c.orderId);
    AnswersStay(s, s');
  }

  lemma CallStep(kind: Kind, s: State, c: Command, mode: Mode)
    requires Others(kind, s, c.orderId) && c in s.issued
    ensures
      var s' := s.(provider := Execute(kind, s.provider, c, mode).0);
      Others(kind, s', c.orderId) && AllEvolve(kind, s, s')
  {
    hide OrderOk, ReceiptOk, CallOk, ExecutionOk, Coupled, Evolves, Decide;
    var s' := s.(provider := Execute(kind, s.provider, c, mode).0);
    CallKeepsData(kind, s, c, mode);
    LocalKeepsOthers(kind, s, s', c.orderId);
    AnswersStay(s, s');
  }

  /** An execution at hand in a consistent state. */
  ghost predicate At(kind: Kind, s: State, x: Execution) {
    && Consistent(kind, s)
    && x.command.orderId in s.executions && s.executions[x.command.orderId] == x
  }

  lemma Unpack(kind: Kind, s: State, x: Execution)
    requires At(kind, s, x)
    ensures Others(kind, s, x.command.orderId)
    ensures var o := x.command.orderId;
      && OrderOk(kind, o, ViewAt(kind, s, o))
      && ExecutionOk(kind, o, x, ViewAt(kind, s, o), Get(s.receipts, x.command.key), s.issued)
  {
    hide OrderOk, ReceiptOk, CallOk, ExecutionOk, Coupled;
    assert ExecutionAtOk(kind, s, x.command.orderId);
  }

  lemma MoveProgresses(kind: Kind, s: State, s1: State, x: Execution, position: Position)
    requires Others(kind, s1, x.command.orderId) && AllEvolve(kind, s, s1) && s1.receipts == s.receipts
    requires ExecutionOk(kind, x.command.orderId, x.(position := position), ViewAt(kind, s1, x.command.orderId),
                         Get(s1.receipts, x.command.key), s1.issued)
    ensures Progresses(kind, s, MoveTo(s1, x, position))
  {
    hide OrderOk, ReceiptOk, CallOk, ExecutionOk, Coupled, Evolves;
    MoveKeeps(kind, s1, x, position);
    SameViewsEvolve(kind, s1, MoveTo(s1, x, position));
    EvolvingChains(kind, s, s1, MoveTo(s1, x, position));
  }

  lemma LeaveProgresses(kind: Kind, s: State, s1: State, x: Execution, outcome: Outcome)
    requires Others(kind, s1, x.command.orderId) && AllEvolve(kind, s, s1) && ReceiptsStay(s, s1)
    requires Backed(s1.receipts, x.command, outcome)
    ensures Progresses(kind, s, Leave(s1, x, outcome))
  {
    hide OrderOk, ReceiptOk, CallOk, ExecutionOk, Coupled, Evolves;
    LeaveKeeps(kind, s1, x, outcome);
    SameViewsEvolve(kind, s1, Leave(s1, x, outcome));
    EvolvingChains(kind, s, s1, Leave(s1, x, outcome));
  }

  // ---------- Facts about one order, without the rest of the state ----------

  lemma AfterwardsOk(kind: Kind, o: Uuid, x: Execution, v: View, r: Option<Receipt>, issued: set<Command>,
                     outcome: Outcome)
    requires OrderOk(kind, o, v) && Underway(kind, o, x, r) && OwnsRow(kind, x, v)
    requires v.effect.value.result == Some(outcome)
    ensures ExecutionOk(kind, o, x.(position := Afterwards(kind, x.command, outcome)), v, r, issued)
  {
  }

  lemma ForwardIssuable(kind: Kind, o: Uuid, x: Execution, v: View, r: Option<Receipt>, issued: set<Command>)
    requires Underway(kind, o, x, r) && OwnsRow(kind, x, v) && v.effect.value.result.None?
    ensures CallOk(kind, ForwardCall(kind, o, v.effect.value), v)
    ensures ExecutionOk(kind, o, x.(position := AwaitingForward), v, r, issued + {ForwardCall(kind, o, v.effect.value)})
  {
  }

  lemma ReverseIssuable(kind: Kind, o: Uuid, x: Execution, v: View, r: Option<Receipt>, issued: set<Command>)
    requires ExecutionOk(kind, o, x, v, r, issued) && x.position == Undoing
    ensures CallOk(kind, ReverseCall(kind, o, x.command.sagaId), v)
    ensures ExecutionOk(kind, o, x.(position := AwaitingReverse), v, r,
                        issued + {ReverseCall(kind, o, x.command.sagaId)})
  {
  }

  lemma ReplyUsable(kind: Kind, o: Uuid, x: Execution, v: View, v': View, r: Option<Receipt>, issued: set<Command>,
                    outcome: Outcome)
    requires ExecutionOk(kind, o, x, v, r, issued) && x.position in {AwaitingForward, AwaitingReverse}
    requires v'.effect == v.effect && v'.undo == v.undo && !outcome.Unknown?
    requires ReplyTells(kind, if x.position == AwaitingForward then ForwardCall(kind, o, v.effect.value)
                        else ReverseCall(kind, o, x.command.sagaId), outcome, v')
    ensures x.position == AwaitingForward ==> ExecutionOk(kind, o, x.(position := GotForward(outcome)), v', r, issued)
    ensures x.position == AwaitingReverse && outcome.Succeeded? ==>
      ExecutionOk(kind, o, x.(position := Committing(outcome)), v', r, issued)
  {
  }

  lemma SettledOrder(kind: Kind, o: Uuid, x: Execution, v: View, r: Option<Receipt>, issued: set<Command>)
    requires OrderOk(kind, o, v) && ExecutionOk(kind, o, x, v, r, issued) && x.position.GotForward?
    ensures
      var v' := v.(effect := Some(Settled(v.effect.value, x.position.outcome)));
      && OrderOk(kind, o, v') && Evolves(v, v') && OwnsRow(kind, x, v')
      && v'.effect.value.result == Some(x.position.outcome) && !x.position.outcome.Unknown?
  {
  }

  lemma OpenedForward(kind: Kind, o: Uuid, x: Execution, v: View, r: Option<Receipt>, issued: set<Command>)
    requires OrderOk(kind, o, v)
    requires ExecutionOk(kind, o, x, v, r, issued) && x.position == Opened && x.command.operation == ForwardOp(kind)
    ensures OtherSaga(x) || (x.effect.Some? && x.effect.value.details != x.command.payload) ==>
              ExecutionOk(kind, o, x.(position := Committing(Failed(IdempotencyConflict))), v, r, issued)
    ensures !OtherSaga(x) && (x.effect.Some? ==> x.effect.value.details == x.command.payload)
            && (x.undo.Some? || (x.effect.Some? && x.effect.value.status == UndoneEffect)) ==>
              ExecutionOk(kind, o, x.(position := Committing(Failed(AlreadyCompensated))), v, r, issued)
    ensures !OtherSaga(x) && x.undo.None? && x.effect.Some? && x.effect.value.details == x.command.payload ==>
              ExecutionOk(kind, o, x.(position := Resolving), v, r, issued)
  {
  }

  function InsertedView(v: View, c: Command, forward: Option<Cached>, reverse: Option<Cached>): View {
    View(Some(Effect(c.sagaId, c.payload, PendingEffect, None, None)), v.undo, v.account, forward, reverse)
  }

  lemma InsertedOrder(kind: Kind, o: Uuid, x: Execution, v: View, r: Option<Receipt>, issued: set<Command>,
                      forward: Option<Cached>, reverse: Option<Cached>)
    requires OrderOk(kind, o, v) && ExecutionOk(kind, o, x, v, r, issued) && x.position == Opened
    requires x.command.operation == ForwardOp(kind) && v.effect.None? && v.undo.None?
    requires forward.Some? ==> forward.value.content.orderId != o
    requires reverse.Some? ==> reverse.value.content.orderId != o
    ensures
      var v' := InsertedView(v, x.command, forward, reverse);
      OrderOk(kind, o, v') && Evolves(v, v') && ExecutionOk(kind, o, x.(position := Resolving), v', r, issued)
  {
  }

  lemma OpenedReverse(kind: Kind, o: Uuid, x: Execution, v: View, r: Option<Receipt>, issued: set<Command>)
    requires OrderOk(kind, o, v) && ExecutionOk(kind, o, x, v, r, issued) && x.position == Opened
    requires x.command.operation == ReverseOp(kind) && !OtherSaga(x)
    ensures
      var v' := if v.undo.Some? then v else v.(undo := Some(Undo(x.command.sagaId, x.effect.Some?, PendingUndo)));
      OrderOk(kind, o, v') && Evolves(v, v') && ExecutionOk(kind, o, x.(position := ReverseStart(x)), v', r, issued)
  {
  }

  // ---------- One execution, position by position ----------

  lemma AfterForwardProgresses(kind: Kind, s: State, s1: State, x: Execution, outcome: Outcome)
    requires Others(kind, s1, x.command.orderId) && AllEvolve(kind, s, s1) && s1.receipts == s.receipts
    requires Underway(kind, x.command.orderId, x, Get(s1.receipts, x.command.key))
    requires OwnsRow(kind, x, ViewAt(kind, s1, x.command.orderId))
    requires !outcome.Unknown? ==> ViewAt(kind, s1, x.command.orderId).effect.value.result == Some(outcome)
    ensures Progresses(kind, s, AfterForward(kind, s1, x, outcome))
  {
    hide OrderOk, ReceiptOk, CallOk, ExecutionOk, Coupled, Evolves, ReplyTells;
    var o := x.command.orderId;
    assert OrderOk(kind, o, ViewAt(kind, s1, o));
    if outcome.Unknown? {
      LeaveProgresses(kind, s, s1, x, Unknown);
    } else {
      AfterwardsOk(kind, o, x, ViewAt(kind, s1, o), Get(s1.receipts, x.command.key), s1.issued, outcome);
      MoveProgresses(kind, s, s1, x, Afterwards(kind, x.command, outcome));
    }
  }

  lemma ResolvingKeeps(kind: Kind, s: State, x: Execution)
    requires At(kind, s, x) && x.position == Resolving
    ensures Progresses(kind, s, Advance(kind, s, x.command.orderId, SuccessMode, true))
  {
    hide OrderOk, ReceiptOk, CallOk, ExecutionOk, Coupled, Evolves, ReplyTells;
    var o := x.command.orderId;
    var v, r := ViewAt(kind, s, o), Get(s.receipts, x.command.key);
    Unpack(kind, s, x);
    WorkingFacts(kind, o, x, v, r, s.issued);
    SameViewsEvolve(kind, s, s);
    if s.effects[o].result.Some? {
      ResultsAreDefinite(kind, o, v);
      AfterForwardProgresses(kind, s, s, x, s.effects[o].result.value);
    } else {
      var c := ForwardCall(kind, o, s.effects[o]);
      var s1 := s.(issued := s.issued + {c});
      ForwardIssuable(kind, o, x, v, r, s.issued);
      IssueStep(kind, s, c);
      SameViewsEvolve(kind, s, s1);
      MoveProgresses(kind, s, s1, x, AwaitingForward);
    }
  }

  lemma ResultsAreDefinite(kind: Kind, o: Uuid, v: View)
    requires OrderOk(kind, o, v) && v.effect.Some?
    ensures v.effect.value.result !in {Some(Unknown), Some(Succeeded(Undone))}
  {
  }

  lemma AwaitingForwardKeeps(kind: Kind, s: State, x: Execution, mode: Mode, timely: bool)
    requires At(kind, s, x) && x.position == AwaitingForward
    ensures Progresses(kind, s, Advance(kind, s, x.command.orderId, mode, timely))
  {
    hide OrderOk, ReceiptOk, CallOk, ExecutionOk, Coupled, Evolves, ReplyTells;
    var o := x.command.orderId;
    var v, r := ViewAt(kind, s, o), Get(s.receipts, x.command.key);
    Unpack(kind, s, x);
    WorkingFacts(kind, o, x, v, r, s.issued);
    SameViewsEvolve(kind, s, s);
    if !timely {
      AfterForwardProgresses(kind, s, s, x, Unknown);
    } else {
      var c := ForwardCall(kind, o, s.effects[o]);
      var (tables, outcome) := Execute(kind, s.provider, c, mode);
      var s1 := s.(provider := tables);
      CallStep(kind, s, c, mode);
      CallTakesEffect(kind, s, c, mode);
      if outcome.Unknown? {
        AfterForwardProgresses(kind, s, s1, x, Unknown);
      } else {
        ReplyUsable(kind, o, x, v, ViewAt(kind, s1, o), r, s.issued, outcome);
        MoveProgresses(kind, s, s1, x, GotForward(outcome));
      }
    }
  }

  lemma GotForwardKeeps(kind: Kind, s: State, x: Execution)
    requires At(kind, s, x) && x.position.GotForward?
    ensures Progresses(kind, s, Advance(kind, s, x.command.orderId, SuccessMode, true))
  {
    hide OrderOk, ReceiptOk, CallOk, ExecutionOk, Coupled, Evolves, ReplyTells;
    var o := x.command.orderId;
    var v, r := ViewAt(kind, s, o), Get(s.receipts, x.command.key);
    Unpack(kind, s, x);
    WorkingFacts(kind, o, x, v, r, s.issued);
    SettledOrder(kind, o, x, v, r, s.issued);
    var s1 := s.(effects := s.effects[o := Settled(s.effects[o], x.position.outcome)]);
    assert ViewAt(kind, s1, o) == v.(effect := Some(Settled(v.effect.value, x.position.outcome)));
    RowStep(kind, s, s1, o);
    AfterForwardProgresses(kind, s, s1, x, x.position.outcome);
  }

  lemma UndoingKeeps(kind: Kind, s: State, x: Execution)
    requires At(kind, s, x) && x.position == Undoing
    ensures Progresses(kind, s, Advance(kind, s, x.command.orderId, SuccessMode, true))
  {
    hide OrderOk, ReceiptOk, CallOk, ExecutionOk, Coupled, Evolves, ReplyTells;
    var o := x.command.orderId;
    var v, r := ViewAt(kind, s, o), Get(s.receipts, x.command.key);
    Unpack(kind, s, x);
    var c := ReverseCall(kind, o, x.command.sagaId);
    var s1 := s.(issued := s.issued + {c});
    ReverseIssuable(kind, o, x, v, r, s.issued);
    IssueStep(kind, s, c);
    SameViewsEvolve(kind, s, s1);
    MoveProgresses(kind, s, s1, x, AwaitingReverse);
  }

  lemma AwaitingReverseKeeps(kind: Kind, s: State, x: Execution, mode: Mode, timely: bool)
    requires At(kind, s, x) && x.position == AwaitingReverse
    ensures Progresses(kind, s, Advance(kind, s, x.command.orderId, mode, timely))
  {
    hide OrderOk, ReceiptOk, CallOk, ExecutionOk, Coupled, Evolves, ReplyTells;
    var o := x.command.orderId;
    var v, r := ViewAt(kind, s, o), Get(s.receipts, x.command.key);
    Unpack(kind, s, x);
    WorkingFacts(kind, o, x, v, r, s.issued);
    SameViewsEvolve(kind, s, s);
    if !timely {
      LeaveProgresses(kind, s, s, x, Unknown);
    } else {
      var c := ReverseCall(kind, o, x.command.sagaId);
      var (tables, outcome) := Execute(kind, s.provider, c, mode);
      var s1 := s.(provider := tables);
      CallStep(kind, s, c, mode);
      CallTakesEffect(kind, s, c, mode);
      if outcome.Succeeded? {
        ReplyUsable(kind, o, x, v, ViewAt(kind, s1, o), r, s.issued, outcome);
        MoveProgresses(kind, s, s1, x, Committing(outcome));
      } else {
        UndoRefused(kind, c, outcome, ViewAt(kind, s1, o));
        LeaveProgresses(kind, s, s1, x, outcome);
      }
    }
  }

  lemma UndoRefused(kind: Kind, c: Command, outcome: Outcome, v: View)
    requires ReplyTells(kind, c, outcome, v) && c.operation == ReverseOp(kind) && !outcome.Succeeded?
    ensures outcome in {Unknown, Failed(IdempotencyConflict)}
  {
  }

  /** The provider has heard nothing of an order without a row. */
  lemma UnknownToProvider(kind: Kind, s: State, o: Uuid, k: Key)
    requires DataOk(kind, s) && o !in s.effects && k in s.provider.requests
    ensures s.provider.requests[k].content.orderId != o
  {
    var c := CommandOf(k, s.provider.requests[k].content);
    assert CallOk(kind, c, ViewAt(kind, s, c.orderId));
  }

  lemma InsertKeeps(kind: Kind, s: State, x: Execution)
    requires At(kind, s, x) && x.position == Opened && x.command.operation == ForwardOp(kind)
    requires x.effect.None? && x.undo.None?
    ensures
      var c := x.command;
      Progresses(kind, s,
        MoveTo(s.(effects := s.effects[c.orderId := Effect(c.sagaId, c.payload, PendingEffect, None, None)]), x,
               Resolving))
  {
    hide OrderOk, ReceiptOk, CallOk, ExecutionOk, Coupled, Evolves, ReplyTells;
    var c, o := x.command, x.command.orderId;
    var v, r := ViewAt(kind, s, o), Get(s.receipts, x.command.key);
    Unpack(kind, s, x);
    WorkingFacts(kind, o, x, v, r, s.issued);
    var s1 := s.(effects := s.effects[o := Effect(c.sagaId, c.payload, PendingEffect, None, None)]);
    var v' := ViewAt(kind, s1, o);
    forall k | k in s.provider.requests ensures s.provider.requests[k].content.orderId != o {
      UnknownToProvider(kind, s, o, k);
    }
    InsertedOrder(kind, o, x, v, r, s.issued, v'.forward, v'.reverse);
    assert v' == InsertedView(v, c, v'.forward, v'.reverse);
    RowStep(kind, s, s1, o);
    MoveProgresses(kind, s, s1, x, Resolving);
  }

  lemma OpenForwardKeeps(kind: Kind, s: State, x: Execution)
    requires At(kind, s, x) && x.position == Opened && x.command.operation == ForwardOp(kind)
    ensures Progresses(kind, s, Open(kind, s, x))
  {
    hide OrderOk, ReceiptOk, CallOk, ExecutionOk, Coupled, Evolves, ReplyTells;
    var o := x.command.orderId;
    var v, r := ViewAt(kind, s, o), Get(s.receipts, x.command.key);
    Unpack(kind, s, x);
    OpenedForward(kind, o, x, v, r, s.issued);
    SameViewsEvolve(kind, s, s);
    if OtherSaga(x) || (x.effect.Some? && x.effect.value.details != x.command.payload) {
      MoveProgresses(kind, s, s, x, Committing(Failed(IdempotencyConflict)));
    } else if x.undo.Some? || (x.effect.Some? && x.effect.value.status == UndoneEffect) {
      MoveProgresses(kind, s, s, x, Committing(Failed(AlreadyCompensated)));
    } else if x.effect.Some? {
      MoveProgresses(kind, s, s, x, Resolving);
    } else {
      InsertKeeps(kind, s, x);
    }
  }

  lemma OpenReverseKeeps(kind: Kind, s: State, x: Execution)
    requires At(kind, s, x) && x.position == Opened && x.command.operation == ReverseOp(kind)
    ensures Progresses(kind, s, Open(kind, s, x))
  {
    hide OrderOk, ReceiptOk, CallOk, ExecutionOk, Coupled, Evolves, ReplyTells;
    var o := x.command.orderId;
    var v, r := ViewAt(kind, s, o), Get(s.receipts, x.command.key);
    Unpack(kind, s, x);
    WorkingFacts(kind, o, x, v, r, s.issued);
    SameViewsEvolve(kind, s, s);
    if OtherSaga(x) {
      LeaveProgresses(kind, s, s, x, Failed(IdempotencyConflict));
    } else {
      OpenedReverse(kind, o, x, v, r, s.issued);
      var requested := Undo(x.command.sagaId, x.effect.Some?, PendingUndo);
      var s1 := if o in s.undos then s else s.(undos := s.undos[o := requested]);
      assert ViewAt(kind, s1, o) == if v.undo.Some? then v else v.(undo := Some(requested));
      RowStep(kind, s, s1, o);
      MoveProgresses(kind, s, s1, x, ReverseStart(x));
    }
  }

  // ---------- The final transaction ----------

  function CompensatedView(kind: Kind, v: View, x: Execution, data: Data): View {
    v.(undo := if v.undo.Some? then Some(v.undo.value.(status := if data == Undone then UndoneUndo else NoopUndo))
       else None,
       effect := if x.effect.Some? && v.effect.Some? then Some(UndoneRow(kind, v.effect.value, data)) else v.effect)
  }

  lemma CompensatedOrder(kind: Kind, o: Uuid, x: Execution, v: View, r: Option<Receipt>, issued: set<Command>)
    requires OrderOk(kind, o, v) && ExecutionOk(kind, o, x, v, r, issued)
    requires x.command.operation == ReverseOp(kind) && x.position.Committing?
    ensures x.position.outcome.Succeeded?
    ensures
      var v' := CompensatedView(kind, v, x, x.position.outcome.data);
      && OrderOk(kind, o, v') && Evolves(v, v')
      && ReceiptOk(kind, Receipt(Fingerprint(x.command), Some(x.position.outcome)), v')
  {
  }

  lemma CompensateKeeps(kind: Kind, s: State, x: Execution)
    requires At(kind, s, x) && x.command.operation == ReverseOp(kind)
    requires x.position.Committing? && x.position.outcome.Succeeded?
    ensures
      var s1 := Compensate(kind, s, x, x.position.outcome.data);
      && Others(kind, s1, x.command.orderId) && AllEvolve(kind, s, s1)
      && ReceiptOk(kind, Receipt(Fingerprint(x.command), Some(x.position.outcome)), ViewAt(kind, s1, x.command.orderId))
  {
    hide OrderOk, CallOk, Coupled, Evolves, ReceiptOk, ExecutionOk;
    var o := x.command.orderId;
    var s1 := Compensate(kind, s, x, x.position.outcome.data);
    Unpack(kind, s, x);
    CompensatedOrder(kind, o, x, ViewAt(kind, s, o), Get(s.receipts, x.command.key), s.issued);
    assert ViewAt(kind, s1, o) == CompensatedView(kind, ViewAt(kind, s, o), x, x.position.outcome.data);
    RowStep(kind, s, s1, o);
  }

  /** Completing the receipt. */
  lemma CompleteKeeps(kind: Kind, s: State, c: Command, outcome: Outcome)
    requires Others(kind, s, c.orderId)
    requires c.key in s.receipts && s.receipts[c.key] == Receipt(Fingerprint(c), None)
    requires ReceiptOk(kind, Receipt(Fingerprint(c), Some(outcome)), ViewAt(kind, s, c.orderId))
    ensures
      var s1 := s.(receipts := s.receipts[c.key := Receipt(Fingerprint(c), Some(outcome))]);
      Others(kind, s1, c.orderId) && AllEvolve(kind, s, s1) && ReceiptsStay(s, s1)
  {
    hide OrderOk, CallOk, Coupled, Evolves, ReceiptOk, ExecutionOk;
    var s1 := s.(receipts := s.receipts[c.key := Receipt(Fingerprint(c), Some(outcome))]);
    WriteReceipt(kind, s, c.key, Receipt(Fingerprint(c), Some(outcome)));
    LocalKeepsOthers(kind, s, s1, c.orderId);
    AnswersStay(s, s1);
  }

  lemma MailStays(s: State, message: Uuid, c: Command, outcome: Outcome)
    requires AnswersOk(s) && !Altered(s.mail, message, c) && Backed(s.receipts, c, outcome)
    ensures AnswersOk(s.(mail := Commit(s.mail, message, c, outcome)))
  {
    CommitKeepsCoupled(s.mail, message, c, outcome);
    var mail := Commit(s.mail, message, c, outcome);
    forall i | 0 <= i < |mail.outbox|
      ensures Backed(s.receipts, mail.inbox[mail.outbox[i].causationId], mail.outbox[i].result.outcome)
    {
      if i < |s.mail.outbox| {
        assert mail.outbox[i] == s.mail.outbox[i];
      }
    }
  }

  lemma DeliverKeeps(kind: Kind, s: State, o: Uuid, message: Uuid, c: Command, outcome: Outcome)
    requires Others(kind, s, o) && !Altered(s.mail, message, c) && Backed(s.receipts, c, outcome)
    ensures
      var s' := s.(mail := Commit(s.mail, message, c, outcome));
      Others(kind, s', o) && AllEvolve(kind, s, s')
  {
    hide OrderOk, CallOk, Coupled, Evolves, ReceiptOk, ExecutionOk;
    var s' := s.(mail := Commit(s.mail, message, c, outcome));
    MailStays(s, message, c, outcome);
    ControlKeepsData(kind, s, s');
    SameViewsEvolve(kind, s, s');
    forall p | p in s'.executions && p != o ensures ExecutionAtOk(kind, s', p) {
      assert ExecutionAtOk(kind, s, p);
      assert ViewAt(kind, s', p) == ViewAt(kind, s, p);
    }
  }

  lemma CommitKeeps(kind: Kind, s: State, x: Execution, s1: State, outcome: Outcome)
    requires Others(kind, s1, x.command.orderId) && AllEvolve(kind, s, s1) && s1.receipts == s.receipts
      && s1.mail == s.mail
    requires x.command.key in s1.receipts && s1.receipts[x.command.key] == Receipt(Fingerprint(x.command), None)
    requires ReceiptOk(kind, Receipt(Fingerprint(x.command), Some(outcome)), ViewAt(kind, s1, x.command.orderId))
    requires x.message.Some? ==> !Altered(s.mail, x.message.value, x.command)
    ensures
      var done := s1.(
        receipts := s1.receipts[x.command.key := Receipt(Fingerprint(x.command), Some(outcome))],
        mail := if x.message.Some? then Commit(s.mail, x.message.value, x.command, outcome) else s.mail);
      Progresses(kind, s, Leave(done, x, outcome))
  {
    hide OrderOk, CallOk, Coupled, Evolves, ReceiptOk, ExecutionOk;
    var c := x.command;
    var s2 := s1.(receipts := s1.receipts[c.key := Receipt(Fingerprint(c), Some(outcome))]);
    CompleteKeeps(kind, s1, c, outcome);
    EvolvingChains(kind, s, s1, s2);
    if x.message.Some? {
      var s3 := s2.(mail := Commit(s.mail, x.message.value, c, outcome));
      DeliverKeeps(kind, s2, c.orderId, x.message.value, c, outcome);
      EvolvingChains(kind, s, s2, s3);
      LeaveProgresses(kind, s, s3, x, outcome);
    } else {
      LeaveProgresses(kind, s, s2, x, outcome);
    }
  }

  lemma DropKeeps(kind: Kind, s: State, o: Uuid)
    requires Consistent(kind, s)
    ensures Progresses(kind, s, s.(executions := s.executions - {o}))
  {
    hide OrderOk, CallOk, Coupled, Evolves, ReceiptOk, ExecutionOk;
    var s' := s.(executions := s.executions - {o});
    ControlKeepsData(kind, s, s');
    SameViewsEvolve(kind, s, s');
    forall p | p in s'.executions ensures ExecutionAtOk(kind, s', p) {
      assert ExecutionAtOk(kind, s, p);
      assert ViewAt(kind, s', p) == ViewAt(kind, s, p);
    }
  }

  lemma FinalizeKeeps(kind: Kind, s: State, x: Execution)
    requires At(kind, s, x) && x.position.Committing?
    ensures Progresses(kind, s, Finalize(kind, s, x, x.position.outcome))
  {
    hide OrderOk, CallOk, Coupled, Evolves;
    var outcome := x.position.outcome;
    Unpack(kind, s, x);
    if x.message.Some? && Altered(s.mail, x.message.value, x.command) {
      DropKeeps(kind, s, x.command.orderId);
    } else if x.command.operation == ReverseOp(kind) {
      CompensatedOrder(kind, x.command.orderId, x, ViewAt(kind, s, x.command.orderId), Get(s.receipts, x.command.key),
                       s.issued);
      CompensateKeeps(kind, s, x);
      CommitKeeps(kind, s, x, Compensate(kind, s, x, outcome.data), outcome);
    } else {
      SameViewsEvolve(kind, s, s);
      CommitKeeps(kind, s, x, s, outcome);
    }
  }

  // ---------- Every step ----------

  lemma AdvanceKeeps(kind: Kind, s: State, o: Uuid, mode: Mode, timely: bool)
    requires Consistent(kind, s) && Possible(kind, s, Continue(o, mode, timely))
    ensures Progresses(kind, s, Advance(kind, s, o, mode, timely))
  {
    hide OrderOk, ReceiptOk, CallOk, Coupled, Evolves;
    var x := s.executions[o];
    Unpack(kind, s, x);
    match x.position
    case Opened =>
      if x.command.operation == ForwardOp(kind) { OpenForwardKeeps(kind, s, x); } else { OpenReverseKeeps(kind, s, x); }
    case Resolving => ResolvingKeeps(kind, s, x);
    case AwaitingForward => AwaitingForwardKeeps(kind, s, x, mode, timely);
    case GotForward(_) => GotForwardKeeps(kind, s, x);
    case Undoing => UndoingKeeps(kind, s, x);
    case AwaitingReverse => AwaitingReverseKeeps(kind, s, x, mode, timely);
    case Committing(_) => FinalizeKeeps(kind, s, x);
  }

  lemma LateCallKeeps(kind: Kind, s: State, c: Command, mode: Mode)
    requires Consistent(kind, s) && c in s.issued
    ensures Progresses(kind, s, s.(provider := Execute(kind, s.provider, c, mode).0))
  {
    hide OrderOk, ReceiptOk, CallOk, ExecutionOk, Coupled, Evolves;
    var s' := s.(provider := Execute(kind, s.provider, c, mode).0);
    CallStep(kind, s, c, mode);
    if c.orderId in s.executions {
      var x := s.executions[c.orderId];
      assert ExecutionAtOk(kind, s, c.orderId);
      CallTakesEffect(kind, s, c, mode);
      ExecutionStays(kind, c.orderId, x, ViewAt(kind, s, c.orderId), ViewAt(kind, s', c.orderId),
                     Get(s.receipts, x.command.key), s.issued, s'.issued);
    }
  }

  lemma AcknowledgeKeeps(kind: Kind, s: State, a: Return)
    requires Consistent(kind, s) && a in s.answers
    ensures Progresses(kind, s, Step(kind, s, Acknowledge(a)))
    ensures Progresses(kind, s, Step(kind, s, Lose(a)))
  {
    hide OrderOk, ReceiptOk, CallOk, ExecutionOk, Coupled, Evolves;
    var s1 := s.(answers := s.answers - {a});
    AnswersKeepConsistency(kind, s, s1);
    if !Altered(s.mail, a.message, a.command) {
      MailStays(s1, a.message, a.command, a.outcome);
      AnswersKeepConsistency(kind, s, s1.(mail := Commit(s.mail, a.message, a.command, a.outcome)));
    }
  }

  /** Every step of every execution, crash and late call keeps the service consistent; rows only
      evolve, compensations stay final, and a completed receipt is never touched again. */
  lemma StepKeepsConsistent(kind: Kind, s: State, e: Event)
    requires Consistent(kind, s) && Possible(kind, s, e)
    ensures Progresses(kind, s, Step(kind, s, e))
  {
    hide OrderOk, ReceiptOk, CallOk, ExecutionOk, Coupled, Evolves;
    match e
    case Start(message, c) => BeginKeeps(kind, s, message, c);
    case Continue(o, mode, timely) => AdvanceKeeps(kind, s, o, mode, timely);
    case Crash(o) => DropKeeps(kind, s, o);
    case LateCall(c, mode) => LateCallKeeps(kind, s, c, mode);
    case Acknowledge(a) => if a in s.answers { AcknowledgeKeeps(kind, s, a); }
      else { AnswersKeepConsistency(kind, s, s); }
    case Lose(a) => if a in s.answers { AcknowledgeKeeps(kind, s, a); }
      else { AnswersKeepConsistency(kind, s, s.(answers := s.answers - {a})); }
  }

  lemma EmptyIsConsistent(kind: Kind)
    ensures Consistent(kind, EMPTY)
  {
    forall o: Uuid ensures OrderOk(kind, o, ViewAt(kind, EMPTY, o)) {
    }
  }
}
