/** A participant's inbox and result outbox
    (shared/src/messaging/store.ts and participant.ts). */
module Mailbox {
  import opened Contracts

  datatype Mail = Mail(inbox: map<Uuid, Command>, outbox: seq<ResultEnvelope>)

  /** A finished execution whose message handler has yet to commit and acknowledge. */
  datatype Return = Return(message: Uuid, command: Command, outcome: Outcome)

  /** A message id that was used for another command makes the commit hook throw. */
  predicate Altered(mail: Mail, message: Uuid, c: Command) {
    message in mail.inbox && mail.inbox[message] != c
  }

  /** The commit hook: `remember` the command, and `enqueue` its result the first time. */
  function Commit(mail: Mail, message: Uuid, c: Command, outcome: Outcome): Mail {
    if message in mail.inbox then mail
    else Mail(mail.inbox[message := c], mail.outbox
              + [ResultEnvelope(ResultId(message), message, ResultFor(c, outcome))])
  }

  /** The result of message `m` is in the outbox. */
  predicate Answered(outbox: seq<ResultEnvelope>, m: Uuid) {
    exists i :: 0 <= i < |outbox| && outbox[i].causationId == m
  }

  /** A command is in the inbox exactly when one result names it as its cause, and that result
      answers that command. */
  predicate Coupled(mail: Mail) {
    && (forall i :: 0 <= i < |mail.outbox| ==>
          && mail.outbox[i].causationId in mail.inbox
          && mail.outbox[i].messageId == ResultId(mail.outbox[i].causationId)
          && mail.outbox[i].result == ResultFor(mail.inbox[mail.outbox[i].causationId], mail.outbox[i].result.outcome))
    && (forall m :: m in mail.inbox ==> Answered(mail.outbox, m))
    && (forall i, j :: 0 <= i < j < |mail.outbox| ==> mail.outbox[i].causationId != mail.outbox[j].causationId)
  }

  lemma AnsweredStays(outbox: seq<ResultEnvelope>, env: ResultEnvelope, m: Uuid)
    ensures Answered(outbox + [env], m) <==> Answered(outbox, m) || m == env.causationId
  {
    var more := outbox + [env];
    assert more[|outbox|] == env;
    if i :| 0 <= i < |outbox| && outbox[i].causationId == m {
      assert more[i].causationId == m;
    }
  }

  /** Committing keeps the coupling and never touches an answer already given. */
  lemma CommitKeepsCoupled(mail: Mail, message: Uuid, c: Command, outcome: Outcome)
    requires Coupled(mail)
    ensures var mail' := Commit(mail, message, c, outcome);
      && Coupled(mail') && message in mail'.inbox
      && mail.outbox <= mail'.outbox && (message in mail.inbox <==> mail' == mail)
  {
    hide Answered;
    var mail' := Commit(mail, message, c, outcome);
    if message !in mail.inbox {
      var env := ResultEnvelope(ResultId(message), message, ResultFor(c, outcome));
      forall m | m in mail'.inbox ensures Answered(mail'.outbox, m) {
        AnsweredStays(mail.outbox, env, m);
      }
      assert forall i | 0 <= i < |mail.outbox| ::
        mail'.outbox[i] == mail.outbox[i] && mail.outbox[i].causationId != message;
    }
  }
}
