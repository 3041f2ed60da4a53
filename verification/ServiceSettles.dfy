/** A payment or shipping service that is left to work in peace answers: under the orchestrator's
    protocol every execution ends with a definite result within five more steps, and what it will
    be is decided by the provider's tables. */
module ServiceSettles {
  import opened Contracts
  import opened Provider
  import opened Mailbox
  import opened Service
  import opened ServiceInvariant
  import opened ServiceProtocol

  /** The provider has answered the saga's forward key, and not with an account. */
  predicate Refuses(kind: Kind, s: State, o: Uuid, sagaId: Uuid) {
    SagaKey(sagaId, ForwardOp(kind)) in s.provider.requests && o !in s.provider.accounts
  }

  /** The answer to the saga's forward command, if the provider is in this mode from now on. */
  predicate Grants(kind: Kind, s: State, o: Uuid, sagaId: Uuid, mode: Mode) {
    if mode == RejectMode then o in s.provider.accounts else !Refuses(kind, s, o, sagaId)
  }

  /** The answer to a command: an undo that is asked for is granted. */
  predicate Foretells(kind: Kind, s: State, c: Command, mode: Mode) {
    c.operation == ForwardOp(kind) ==> Grants(kind, s, c.orderId, c.sagaId, mode)
  }

  function StepsToCommit(p: Position): nat {
    match p
    case Opened => 4
    case Resolving => 3
    case AwaitingForward => 2
    case GotForward(_) => 1
    case Undoing => 2
    case AwaitingReverse => 1
    case Committing(_) => 0
  }

  /** The provider learns of this order and of this key at most. */
  predicate OnlyOwnCalls(t: Tables, t': Tables, c: Command) {
    && t'.accounts.Keys - {c.orderId} == t.accounts.Keys - {c.orderId}
    && t'.requests.Keys - {c.key} == t.requests.Keys - {c.key}
  }

  lemma OwnCallsChain(t: Tables, t': Tables, t'': Tables, c: Command)
    requires OnlyOwnCalls(t, t', c) && OnlyOwnCalls(t', t'', c)
    ensures OnlyOwnCalls(t, t'', c)
  {
  }

  lemma CallIsOnlyOwn(kind: Kind, t: Tables, c: Command, mode: Mode)
    ensures OnlyOwnCalls(t, Execute(kind, t, c, mode).0, c)
  {
    hide Decide;
  }

  /** The execution goes on, nearer to its end, and the answer to expect is the same. */
  predicate GoesOn(kind: Kind, s: State, s': State, x: Execution, mode: Mode) {
    var o := x.command.orderId;
    && o in s'.executions && s'.executions[o] == x.(position := s'.executions[o].position)
    && StepsToCommit(s'.executions[o].position) < StepsToCommit(x.position)
    && s'.mail == s.mail && OnlyOwnCalls(s.provider, s'.provider, x.command)
    && (Foretells(kind, s', x.command, mode) <==> Foretells(kind, s, x.command, mode))
  }

  lemma SameProvider(kind: Kind, s: State, s1: State, c: Command, mode: Mode)
    requires s1.provider == s.provider
    ensures Foretells(kind, s1, c, mode) <==> Foretells(kind, s, c, mode)
  {
  }

  lemma MoveGoesOn(kind: Kind, s: State, s1: State, x: Execution, position: Position, mode: Mode)
    requires StepsToCommit(position) < StepsToCommit(x.position) && s1.mail == s.mail
    requires Foretells(kind, s1, x.command, mode) <==> Foretells(kind, s, x.command, mode)
    requires OnlyOwnCalls(s.provider, s1.provider, x.command)
    ensures GoesOn(kind, s, MoveTo(s1, x, position), x, mode)
  {
    hide Foretells;
    SameProvider(kind, s1, MoveTo(s1, x, position), x.command, mode);
  }

  /** The first step finds nothing to refuse. */
  lemma OpenMoves(kind: Kind, s: State, sent: set<Command>, x: Execution) returns (s1: State, position: Position)
    requires InProtocol(kind, s, sent) && At(kind, s, x) && x.position == Opened
    ensures Open(kind, s, x) == MoveTo(s1, x, position) && StepsToCommit(position) < 4
    ensures s1.provider == s.provider && s1.mail == s.mail
  {
    hide InProtocol, At, Foretells, GoesOn, ReverseStart, OrderOk, ExecutionOk, Harmless, MoveTo, Leave, OtherSaga;
    var c, o := x.command, x.command.orderId;
    if c.operation == ForwardOp(kind) {
      ForwardOpensClean(kind, s, sent, x);
      s1 := if x.effect.Some? then s
        else s.(effects := s.effects[o := Effect(c.sagaId, c.payload, PendingEffect, None, None)]);
      position := Resolving;
    } else {
      assert c.operation == ReverseOp(kind) by { AtHand(kind, s, sent, x); }
      ReverseOpensClean(kind, s, sent, x);
      s1 := if o in s.undos then s else s.(undos := s.undos[o := Undo(c.sagaId, x.effect.Some?, PendingUndo)]);
      position := ReverseStart(x);
    }
  }

  // ---------- Provider calls ----------

  /** In time and in a mode that replies, a reply is definite. */
  lemma ReplyIsDefinite(kind: Kind, s: State, sent: set<Command>, c: Command, mode: Mode)
    requires InProtocol(kind, s, sent) && c in s.issued && mode != TimeoutAfterSuccess
    ensures !Execute(kind, s.provider, c, mode).1.Unknown?
  {
    hide CallOk, OrderOk, ReceiptOk, AnswersOk, ExecutionAtOk, AllBenign, Decide;
    assert CallOk(kind, c, ViewAt(kind, s, c.orderId));
    assert OrderOk(kind, c.orderId, ViewAt(kind, s, c.orderId));
    if c.key in s.provider.requests {
      OwnKey(kind, s, sent, c);
      CachedIsDefinite(kind, c, ViewAt(kind, s, c.orderId));
    } else {
      DecisionIsDefinite(kind, s, c, mode);
    }
  }

  lemma DecisionIsDefinite(kind: Kind, s: State, c: Command, mode: Mode)
    ensures !Decide(kind, Get(s.provider.accounts, c.orderId), c, mode).1.Unknown?
  {
  }

  lemma CachedIsDefinite(kind: Kind, c: Command, v: View)
    requires OrderOk(kind, c.orderId, v) && CallOk(kind, c, v)
    ensures v.effect.Some? && c.operation in {ForwardOp(kind), ReverseOp(kind)}
    ensures c.key == SagaKey(v.effect.value.sagaId, c.operation)
    ensures c.operation == ForwardOp(kind) && v.forward.Some? && v.forward.value.content == Fingerprint(c) ==>
      !v.forward.value.outcome.Unknown?
    ensures c.operation == ReverseOp(kind) && v.reverse.Some? && v.reverse.value.content == Fingerprint(c) ==>
      !v.reverse.value.outcome.Unknown?
  {
  }

  /** A forward call decides the answer as foretold. */
  lemma CallForetells(kind: Kind, s: State, c: Command, mode: Mode)
    requires c.operation == ForwardOp(kind) && c.key == SagaKey(c.sagaId, c.operation) && mode != TimeoutAfterSuccess
    ensures
      Foretells(kind, s.(provider := Execute(kind, s.provider, c, mode).0), c, mode) <==> Foretells(kind, s, c, mode)
  {
  }

  /** The calls an execution makes are its own command's. */
  lemma CallIsOwn(kind: Kind, s: State, sent: set<Command>, x: Execution)
    requires InProtocol(kind, s, sent) && At(kind, s, x)
    ensures x.command.key == SagaKey(x.command.sagaId, x.command.operation) && x.command in sent
    ensures x.position == AwaitingForward ==>
      && x.command.orderId in s.effects && x.command.operation == ForwardOp(kind)
      && ForwardCall(kind, x.command.orderId, s.effects[x.command.orderId]) == x.command && x.command in s.issued
    ensures x.position == AwaitingReverse ==>
      && x.command.operation == ReverseOp(kind)
      && ReverseCall(kind, x.command.orderId, x.command.sagaId) == x.command && x.command in s.issued
  {
    hide OrderOk, Benign, Consistent, AllBenign, SentOnly, ServiceProtocol.Done;
    AtHand(kind, s, sent, x);
  }

  lemma ForwardCallGoesOn(kind: Kind, s: State, sent: set<Command>, x: Execution, mode: Mode)
    requires InProtocol(kind, s, sent) && At(kind, s, x) && x.position == AwaitingForward
    requires mode != TimeoutAfterSuccess
    ensures GoesOn(kind, s, Advance(kind, s, x.command.orderId, mode, true), x, mode)
  {
    hide InProtocol, GoesOn, Execute, Foretells, MoveTo, Leave, Consistent, OnlyOwnCalls;
    var c := x.command;
    CallIsOwn(kind, s, sent, x);
    ReplyIsDefinite(kind, s, sent, c, mode);
    CallForetells(kind, s, c, mode);
    CallIsOnlyOwn(kind, s.provider, c, mode);
    var (tables, outcome) := Execute(kind, s.provider, c, mode);
    MoveGoesOn(kind, s, s.(provider := tables), x, GotForward(outcome), mode);
  }

  lemma ReverseCallGoesOn(kind: Kind, s: State, sent: set<Command>, x: Execution, mode: Mode)
    requires InProtocol(kind, s, sent) && At(kind, s, x) && x.position == AwaitingReverse
    requires mode != TimeoutAfterSuccess
    ensures GoesOn(kind, s, Advance(kind, s, x.command.orderId, mode, true), x, mode)
  {
    hide InProtocol, GoesOn, Execute, MoveTo, Leave, Grants, Consistent, OnlyOwnCalls;
    var c := x.command;
    CallIsOwn(kind, s, sent, x);
    ReplyIsDefinite(kind, s, sent, c, mode);
    UndoIsGranted(kind, s, sent, c, mode);
    CallIsOnlyOwn(kind, s.provider, c, mode);
    var (tables, outcome) := Execute(kind, s.provider, c, mode);
    MoveGoesOn(kind, s, s.(provider := tables), x, Committing(outcome), mode);
  }

  lemma UndoIsGranted(kind: Kind, s: State, sent: set<Command>, c: Command, mode: Mode)
    requires InProtocol(kind, s, sent) && c in s.issued && c.operation == ReverseOp(kind)
    requires !Execute(kind, s.provider, c, mode).1.Unknown?
    ensures Execute(kind, s.provider, c, mode).1.Succeeded?
  {
    hide Execute, Rely, SentOnly, AllBenign, DataOk;
    assert Consistent(kind, s);
    RepliesAreBenign(kind, s, sent, c, mode);
  }

  // ---------- Every step but the last ----------

  lemma ResultIsAtHand(kind: Kind, s: State, sent: set<Command>, x: Execution)
    requires InProtocol(kind, s, sent) && At(kind, s, x) && (x.position == Resolving || x.position.GotForward?)
    ensures x.command.operation == ForwardOp(kind) && x.command.orderId in s.effects
    ensures s.effects[x.command.orderId].result != Some(Unknown)
    ensures x.position != GotForward(Unknown)
  {
    AtHand(kind, s, sent, x);
    hide Benign, Consistent, AllBenign, SentOnly, Rely;
  }

  /** The steps that make no call. */
  lemma QuietMoves(kind: Kind, s: State, sent: set<Command>, x: Execution, mode: Mode)
      returns (s1: State, position: Position)
    requires InProtocol(kind, s, sent) && At(kind, s, x)
    requires x.position in {Opened, Resolving, Undoing} || x.position.GotForward?
    ensures Advance(kind, s, x.command.orderId, mode, true) == MoveTo(s1, x, position)
    ensures StepsToCommit(position) < StepsToCommit(x.position) && s1.provider == s.provider && s1.mail == s.mail
  {
    hide InProtocol, Consistent, MoveTo, Leave, Open, Settled;
    var o := x.command.orderId;
    s1 := s;
    match x.position {
      case Opened => s1, position := OpenMoves(kind, s, sent, x);
      case Resolving =>
        ResultIsAtHand(kind, s, sent, x);
        position := AwaitingForward;
        if s.effects[o].result.Some? {
          position := Afterwards(kind, x.command, s.effects[o].result.value);
        } else {
          s1 := s.(issued := s.issued + {ForwardCall(kind, o, s.effects[o])});
        }
      case GotForward(outcome) =>
        ResultIsAtHand(kind, s, sent, x);
        s1 := s.(effects := s.effects[o := Settled(s.effects[o], outcome)]);
        position := Afterwards(kind, x.command, outcome);
      case Undoing =>
        s1 := s.(issued := s.issued + {ReverseCall(kind, o, x.command.sagaId)});
        position := AwaitingReverse;
    }
  }

  lemma AdvanceGoesOn(kind: Kind, s: State, sent: set<Command>, x: Execution, mode: Mode)
    requires InProtocol(kind, s, sent) && At(kind, s, x) && !x.position.Committing? && mode != TimeoutAfterSuccess
    ensures GoesOn(kind, s, Advance(kind, s, x.command.orderId, mode, true), x, mode)
  {
    hide InProtocol, GoesOn, Consistent, Advance, MoveTo, Foretells;
    match x.position {
      case AwaitingForward => ForwardCallGoesOn(kind, s, sent, x, mode);
      case AwaitingReverse => ReverseCallGoesOn(kind, s, sent, x, mode);
      case _ =>
        var s1, position := QuietMoves(kind, s, sent, x, mode);
        SameProvider(kind, s, s1, x.command, mode);
        MoveGoesOn(kind, s, s1, x, position, mode);
    }
  }

  // ---------- The last step ----------

  lemma SettledTells(kind: Kind, o: Uuid, v: View, c: Content, outcome: Outcome)
    requires OrderOk(kind, o, v) && SettledAs(c, v, outcome)
    ensures !outcome.Unknown? && (outcome.Succeeded? <==> v.account.Some?)
    ensures outcome.Failed? ==> v.forward.Some?
    ensures v.effect.Some? && v.effect.value.sagaId == c.sagaId
  {
  }

  lemma SettledIsForetold(kind: Kind, s: State, c: Command, outcome: Outcome, mode: Mode)
    requires OrderOk(kind, c.orderId, ViewAt(kind, s, c.orderId)) && c.operation == ForwardOp(kind)
    requires SettledAs(Fingerprint(c), ViewAt(kind, s, c.orderId), outcome)
    ensures !outcome.Unknown? && (outcome.Succeeded? <==> Foretells(kind, s, c, mode))
  {
    hide OrderOk, SettledAs;
    SettledTells(kind, c.orderId, ViewAt(kind, s, c.orderId), Fingerprint(c), outcome);
  }

  lemma CommittingTells(kind: Kind, o: Uuid, x: Execution, v: View, r: Option<Receipt>, issued: set<Command>,
                        outcome: Outcome)
    requires ExecutionOk(kind, o, x, v, r, issued) && x.position == Committing(outcome)
    requires Benign(kind, x.command.operation, outcome)
    ensures if x.command.operation == ForwardOp(kind) then SettledAs(Fingerprint(x.command), v, outcome)
      else outcome.Succeeded?
  {
  }

  /** What the execution commits is definite and as foretold. */
  lemma CommitIsForetold(kind: Kind, s: State, sent: set<Command>, x: Execution, outcome: Outcome, mode: Mode)
    requires InProtocol(kind, s, sent) && At(kind, s, x) && x.position == Committing(outcome)
    ensures !outcome.Unknown? && (outcome.Succeeded? <==> Foretells(kind, s, x.command, mode))
  {
    hide InProtocol, Consistent, OrderOk, ExecutionOk, SettledAs, Grants, WellFormed, Benign;
    var o := x.command.orderId;
    AtHand(kind, s, sent, x);
    CommittingTells(kind, o, x, ViewAt(kind, s, o), Get(s.receipts, x.command.key), s.issued, outcome);
    if x.command.operation == ForwardOp(kind) {
      SettledIsForetold(kind, s, x.command, outcome, mode);
    }
  }

  /** Its message was not seen before: the answer goes out. */
  lemma CommitAnswers(kind: Kind, s: State, x: Execution, m: Uuid, outcome: Outcome)
    requires Get(s.executions, x.command.orderId) == Some(x)
    requires x.position == Committing(outcome) && x.message == Some(m) && m !in s.mail.inbox
    ensures
      var s' := Advance(kind, s, x.command.orderId, SuccessMode, true);
      && s'.mail.outbox == s.mail.outbox + [ResultEnvelope(ResultId(m), m, ResultFor(x.command, outcome))]
      && s'.provider == s.provider
  {
    hide UndoneRow;
  }

  // ---------- A completed command, repeated ----------

  lemma ReceiptTells(kind: Kind, r: Receipt, v: View, outcome: Outcome)
    requires ReceiptOk(kind, r, v) && r.result == Some(outcome) && Benign(kind, r.content.operation, outcome)
    ensures if r.content.operation == ForwardOp(kind) then SettledAs(r.content, v, outcome) else outcome.Succeeded?
  {
  }

  lemma ReceiptAt(kind: Kind, s: State, sent: set<Command>, c: Command)
    requires InProtocol(kind, s, sent) && c in sent && AnswerAt(s, c.key).Some?
    ensures s.receipts[c.key].content == Fingerprint(c)
    ensures ReceiptOk(kind, s.receipts[c.key], ViewAt(kind, s, c.orderId))
    ensures OrderOk(kind, c.orderId, ViewAt(kind, s, c.orderId))
    ensures Benign(kind, c.operation, AnswerAt(s, c.key).value)
  {
    KeyDetermines(kind, s, sent, c);
    hide OrderOk, ReceiptOk, Benign, CallOk, ExecutionAtOk, AnswersOk;
  }

  /** A completed receipt's answer is definite and as foretold. */
  lemma ReceiptIsForetold(kind: Kind, s: State, sent: set<Command>, c: Command, mode: Mode)
    requires InProtocol(kind, s, sent) && c in sent && AnswerAt(s, c.key).Some?
    ensures s.receipts[c.key].content == Fingerprint(c)
    ensures
      var outcome := AnswerAt(s, c.key).value;
      !outcome.Unknown? && (outcome.Succeeded? <==> Foretells(kind, s, c, mode))
  {
    hide InProtocol, OrderOk, ReceiptOk, SettledAs, Grants, Benign;
    ReceiptAt(kind, s, sent, c);
    ReceiptTells(kind, s.receipts[c.key], ViewAt(kind, s, c.orderId), AnswerAt(s, c.key).value);
    if c.operation == ForwardOp(kind) {
      SettledIsForetold(kind, s, c, AnswerAt(s, c.key).value, mode);
    }
  }

  lemma RepetitionAnswers(kind: Kind, s: State, c: Command, m: Uuid)
    requires c.orderId !in s.executions && AnswerAt(s, c.key).Some? && s.receipts[c.key].content == Fingerprint(c)
    requires m !in s.mail.inbox
    ensures
      var outcome := AnswerAt(s, c.key).value;
      var s1 := Begin(s, Some(m), c);
      && s1 == s.(answers := s.answers + {Return(m, c, outcome)})
      && s1.(answers := s1.answers - {Return(m, c, outcome)}, mail := Commit(s.mail, m, c, outcome))
         == Step(kind, s1, Acknowledge(Return(m, c, outcome)))
      && Commit(s.mail, m, c, outcome).outbox
         == s.mail.outbox + [ResultEnvelope(ResultId(m), m, ResultFor(c, outcome))]
  {
  }

  /** A command that is not completed opens an execution. */
  lemma NewExecution(kind: Kind, s: State, sent: set<Command>, c: Command, m: Uuid)
    requires InProtocol(kind, s, sent) && c in sent && AnswerAt(s, c.key).None? && c.orderId !in s.executions
    ensures
      var s1 := Begin(s, Some(m), c);
      && c.orderId in s1.executions && s1.mail == s.mail && s1.provider == s.provider
      && s1.executions[c.orderId].command == c && s1.executions[c.orderId].message == Some(m)
  {
    if c.key in s.receipts { KeyDetermines(kind, s, sent, c); }
    hide Consistent, AllBenign, SentOnly, Rely;
  }
}
