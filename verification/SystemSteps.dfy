/** Every step of the system keeps its invariant. */
module SystemSteps {
  import opened Contracts
  import opened StateMachine
  import opened Broker
  import opened BrokerLinks
  import opened Provider
  import opened System
  import opened SystemInvariant
  import Service
  import SI = ServiceInvariant
  import SP = ServiceProtocol
  import Inventory
  import II = InventoryInvariant
  import IP = InventoryProtocol

  // ---------- Participants: where their messages come from ----------

  lemma LeaveFrom(network: map<Uuid, Command>, s: Service.State, x: Service.Execution, outcome: Outcome)
    requires ServiceFrom(network, s) && MessageFrom(network, x)
    ensures ServiceFrom(network, Service.Leave(s, x, outcome))
  {
  }

  lemma MoveFrom(network: map<Uuid, Command>, s: Service.State, x: Service.Execution, position: Service.Position)
    requires ServiceFrom(network, s) && MessageFrom(network, x)
    ensures ServiceFrom(network, Service.MoveTo(s, x, position))
  {
  }

  lemma AfterForwardFrom(network: map<Uuid, Command>, kind: Kind, s: Service.State, x: Service.Execution,
                         outcome: Outcome)
    requires ServiceFrom(network, s) && MessageFrom(network, x)
    ensures ServiceFrom(network, Service.AfterForward(kind, s, x, outcome))
  {
    hide ServiceFrom, MessageFrom, Service.Leave, Service.MoveTo;
    LeaveFrom(network, s, x, outcome);
    LeaveFrom(network, s, x, Unknown);
    MoveFrom(network, s, x, Service.Afterwards(kind, x.command, outcome));
  }

  /** Rows, calls and provider tables carry no messages. */
  lemma DataFrom(network: map<Uuid, Command>, s: Service.State, s': Service.State)
    requires ServiceFrom(network, s)
    requires s'.mail == s.mail && s'.answers == s.answers && s'.executions == s.executions
    ensures ServiceFrom(network, s')
  {
  }

  lemma OpenFrom(network: map<Uuid, Command>, kind: Kind, s: Service.State, x: Service.Execution)
    requires ServiceFrom(network, s) && MessageFrom(network, x)
    ensures ServiceFrom(network, Service.Open(kind, s, x))
  {
    hide ServiceFrom, MessageFrom, Service.Leave, Service.MoveTo;
    forall e, u ensures ServiceFrom(network, s.(effects := e, undos := u)) {
      DataFrom(network, s, s.(effects := e, undos := u));
    }
    forall outcome ensures ServiceFrom(network, Service.Leave(s, x, outcome)) {
      LeaveFrom(network, s, x, outcome);
    }
    forall s1, position | ServiceFrom(network, s1) ensures ServiceFrom(network, Service.MoveTo(s1, x, position)) {
      MoveFrom(network, s1, x, position);
    }
  }

  lemma FinalizeFrom(network: map<Uuid, Command>, kind: Kind, s: Service.State, x: Service.Execution, outcome: Outcome)
    requires ServiceFrom(network, s) && MessageFrom(network, x)
    ensures ServiceFrom(network, Service.Finalize(kind, s, x, outcome))
  {
  }

  lemma CallsFrom(network: map<Uuid, Command>, s: Service.State, provider: Tables, issued: set<Command>,
                  effects: map<Uuid, Service.Effect>)
    requires ServiceFrom(network, s)
    ensures ServiceFrom(network, s.(provider := provider))
    ensures ServiceFrom(network, s.(issued := issued))
    ensures ServiceFrom(network, s.(effects := effects))
  {
    DataFrom(network, s, s.(provider := provider));
    DataFrom(network, s, s.(issued := issued));
    DataFrom(network, s, s.(effects := effects));
  }

  lemma ForwardFrom(network: map<Uuid, Command>, kind: Kind, s: Service.State, x: Service.Execution, o: Uuid,
                    mode: Mode, timely: bool)
    requires ServiceFrom(network, s) && MessageFrom(network, x)
    requires o in s.executions && s.executions[o] == x && x.command.orderId == o
    requires x.position in {Service.Resolving, Service.AwaitingForward} || x.position.GotForward?
    ensures ServiceFrom(network, Service.Advance(kind, s, o, mode, timely))
  {
    hide ServiceFrom, MessageFrom, Service.Leave, Service.MoveTo, Service.AfterForward, Execute, Service.Settled;
    if o in s.effects {
      var call := Service.ForwardCall(kind, o, s.effects[o]);
      var (tables, outcome) := Execute(kind, s.provider, call, mode);
      var settled := if x.position.GotForward? then s.effects[o := Service.Settled(s.effects[o], x.position.outcome)]
        else s.effects;
      CallsFrom(network, s, tables, s.issued + {call}, settled);
      AfterForwardFrom(network, kind, s.(provider := tables), x, Unknown);
      MoveFrom(network, s.(provider := tables), x, Service.GotForward(outcome));
      MoveFrom(network, s.(issued := s.issued + {call}), x, Service.AwaitingForward);
      if s.effects[o].result.Some? { AfterForwardFrom(network, kind, s, x, s.effects[o].result.value); }
      if x.position.GotForward? { AfterForwardFrom(network, kind, s.(effects := settled), x, x.position.outcome); }
    }
    AfterForwardFrom(network, kind, s, x, Unknown);
  }

  lemma ReverseFrom(network: map<Uuid, Command>, kind: Kind, s: Service.State, x: Service.Execution, o: Uuid,
                    mode: Mode, timely: bool)
    requires ServiceFrom(network, s) && MessageFrom(network, x)
    requires o in s.executions && s.executions[o] == x && x.command.orderId == o
    requires x.position in {Service.Undoing, Service.AwaitingReverse}
    ensures ServiceFrom(network, Service.Advance(kind, s, o, mode, timely))
  {
    hide ServiceFrom, MessageFrom, Service.Leave, Service.MoveTo, Execute;
    var call := Service.ReverseCall(kind, o, x.command.sagaId);
    var (tables, outcome) := Execute(kind, s.provider, call, mode);
    CallsFrom(network, s, tables, s.issued + {call}, s.effects);
    LeaveFrom(network, s, x, Unknown);
    LeaveFrom(network, s.(provider := tables), x, outcome);
    MoveFrom(network, s.(provider := tables), x, Service.Committing(outcome));
    MoveFrom(network, s.(issued := s.issued + {call}), x, Service.AwaitingReverse);
  }

  lemma AdvanceFrom(network: map<Uuid, Command>, kind: Kind, s: Service.State, o: Uuid, mode: Mode, timely: bool)
    requires o in s.executions && s.executions[o].command.orderId == o && ServiceFrom(network, s)
    ensures ServiceFrom(network, Service.Advance(kind, s, o, mode, timely))
  {
    var x := s.executions[o];
    assert MessageFrom(network, x);
    match x.position {
      case Opened =>
        hide ServiceFrom, MessageFrom, Service.Open;
        OpenFrom(network, kind, s, x);
      case Committing(outcome) =>
        hide ServiceFrom, MessageFrom, Service.Finalize;
        FinalizeFrom(network, kind, s, x, outcome);
      case Undoing => hide *; ReverseFrom(network, kind, s, x, o, mode, timely);
      case AwaitingReverse => hide *; ReverseFrom(network, kind, s, x, o, mode, timely);
      case _ => hide *; ForwardFrom(network, kind, s, x, o, mode, timely);
    }
  }

  lemma BeginFrom(network: map<Uuid, Command>, s: Service.State, message: Option<Uuid>, c: Command)
    requires ServiceFrom(network, s)
    requires message.Some? ==> message.value in network && network[message.value] == c
    ensures ServiceFrom(network, Service.Begin(s, message, c))
  {
  }

  lemma ServiceStepFrom(network: map<Uuid, Command>, kind: Kind, s: Service.State, e: Service.Event)
    requires ServiceFrom(network, s) && Service.Possible(kind, s, e)
    requires e.Start? && e.message.Some? ==> e.message.value in network && network[e.message.value] == e.command
    ensures ServiceFrom(network, Service.Step(kind, s, e))
  {
    hide Execute, Service.Advance, Service.Begin;
    match e {
      case Continue(o, mode, timely) => AdvanceFrom(network, kind, s, o, mode, timely);
      case Start(message, c) => BeginFrom(network, s, message, c);
      case _ =>
    }
  }

  // ---------- Answers only accumulate ----------

  ghost predicate AnswersGrow(w: World, w': World) {
    forall sagaId: Uuid, op: Operation :: AnswerOf(w, sagaId, op).Some? ==>
      AnswerOf(w', sagaId, op) == AnswerOf(w, sagaId, op)
  }

  lemma MoreIsEarned(w: World, w': World)
    requires AllEarned(w) && AnswersGrow(w, w') && w'.orders == w.orders
    ensures AllEarned(w')
  {
    hide AnswerOf, Earned;
    forall o | o in w'.orders ensures EarnedAt(w', o) {
      assert EarnedAt(w, o);
      var row := w.orders[o].row;
      EarnedGrows(row.progress, DoneFor(w, row.id), RejectedFor(w, row.id), DoneFor(w', row.id),
                  RejectedFor(w', row.id));
    }
  }

  lemma EarnedGrows(p: Progress, done: set<Operation>, rejected: set<Operation>, done': set<Operation>,
                    rejected': set<Operation>)
    requires IsForward(p.operation) && Earned(p, done, rejected) && done <= done' && rejected <= rejected'
    ensures Earned(p, done', rejected')
  {
  }

  // ---------- Participants' steps ----------

  lemma CarriedWasSent(network: map<Uuid, Command>, message: Option<Uuid>, c: Command, participant: Participant)
    requires Carried(network, message, c, participant)
    ensures c in Sent(network, participant)
  {
    if message.None? {
      var m :| m in network && network[m] == c;
    }
  }

  /** A better-informed payment service. */
  lemma PaymentKeeps(initial: map<Uuid, nat>, w: World, s': Service.State)
    requires SP.InProtocol(Payments, s', Sent(w.network, PaymentParticipant))
    requires SI.ReceiptsStay(w.payments, s') && ServiceFrom(w.network, s')
    requires WorldOk(initial, w)
    ensures WorldOk(initial, w.(payments := s'))
  {
    hide OrdersOk, NetworkOk, AllEarned, SP.InProtocol, IP.InProtocol, ServiceFrom, MailFrom, AnswersFrom, Sent;
    MoreIsEarned(w, w.(payments := s'));
  }

  lemma ShipmentKeeps(initial: map<Uuid, nat>, w: World, s': Service.State)
    requires SP.InProtocol(Shipments, s', Sent(w.network, ShippingParticipant))
    requires SI.ReceiptsStay(w.shipments, s') && ServiceFrom(w.network, s')
    requires WorldOk(initial, w)
    ensures WorldOk(initial, w.(shipments := s'))
  {
    hide OrdersOk, NetworkOk, AllEarned, SP.InProtocol, IP.InProtocol, ServiceFrom, MailFrom, AnswersFrom, Sent;
    MoreIsEarned(w, w.(shipments := s'));
  }

  lemma InventoryKeeps(initial: map<Uuid, nat>, w: World, s': Inventory.State)
    requires IP.InProtocol(initial, s', Sent(w.network, InventoryParticipant))
    requires II.StockEvolves(w.inventory.stock, s'.stock)
    requires MailFrom(w.network, s'.mail) && AnswersFrom(w.network, s'.answers)
    requires WorldOk(initial, w)
    ensures WorldOk(initial, w.(inventory := s'))
  {
    hide OrdersOk, NetworkOk, AllEarned, SP.InProtocol, IP.InProtocol;
    hide ServiceFrom, MailFrom, AnswersFrom, Sent, II.Evolves;
    MoreIsEarned(w, w.(inventory := s'));
  }

  lemma ServiceStepKeeps(kind: Kind, participant: Participant, network: map<Uuid, Command>, s: Service.State,
                         e: Service.Event)
    requires SP.InProtocol(kind, s, Sent(network, participant)) && ServiceFrom(network, s)
      && Service.Possible(kind, s, e)
    requires e.Start? ==> Carried(network, e.message, e.command, participant)
    ensures var s' := Service.Step(kind, s, e);
      SP.InProtocol(kind, s', Sent(network, participant)) && SI.ReceiptsStay(s, s') && ServiceFrom(network, s')
  {
    hide SP.InProtocol, ServiceFrom, Sent, Service.Step, SI.AllEvolve, SI.Consistent;
    if e.Start? { CarriedWasSent(network, e.message, e.command, participant); }
    SP.StepStaysInProtocol(kind, s, Sent(network, participant), e);
    ServiceStepFrom(network, kind, s, e);
  }

  lemma InventoryStepKeeps(initial: map<Uuid, nat>, network: map<Uuid, Command>, s: Inventory.State, e: Inventory.Event)
    requires Inventory.Possible(e)
    requires IP.InProtocol(initial, s, Sent(network, InventoryParticipant)) && MailFrom(network, s.mail)
      && AnswersFrom(network, s.answers)
    requires e.Deliver? ==> Carried(network, Some(e.message), e.command, InventoryParticipant)
    requires e.Direct? ==> Carried(network, None, e.command, InventoryParticipant)
    ensures var s' := Inventory.Step(s, e);
      && IP.InProtocol(initial, s', Sent(network, InventoryParticipant)) && II.StockEvolves(s.stock, s'.stock)
      && MailFrom(network, s'.mail) && AnswersFrom(network, s'.answers)
  {
    hide IP.InProtocol, Sent, Inventory.Execute, Inventory.Normalize, II.StockEvolves, II.Evolves;
    if e.Deliver? {
      CarriedWasSent(network, Some(e.message), e.command, InventoryParticipant);
      IP.SentIsNormal(initial, s, Sent(network, InventoryParticipant), e.command);
    }
    if e.Direct? { CarriedWasSent(network, None, e.command, InventoryParticipant); }
    IP.StepStaysInProtocol(initial, s, Sent(network, InventoryParticipant), e);
  }
}
