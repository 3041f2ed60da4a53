/** A participant's message tables, and the handler's commit hook
    (shared/src/messaging/store.ts and participant.ts). */
module MessageStore {
  import opened Contracts
  import opened Mailbox

  class Store {
    var inbox: map<Uuid, Command>
    var outbox: seq<ResultEnvelope>

    constructor ()
      ensures Value() == Mail(map[], [])
    {
      inbox, outbox := map[], [];
    }

    ghost function Value(): Mail
      reads this
    {
      Mail(inbox, outbox)
    }

    /** True the first time; the code throws, here `ok` is false, on changed content. */
    method Remember(message: Uuid, c: Command) returns (ok: bool, first: bool)
      modifies this`inbox
      ensures ok <==> !Altered(old(Value()), message, c)
      ensures first <==> message !in old(inbox)
      ensures inbox == if first then old(inbox)[message := c] else old(inbox)
    {
      if message !in inbox {
        inbox := inbox[message := c];
        return true, true;
      }
      return inbox[message] == c, false;
    }

    method Enqueue(env: ResultEnvelope)
      modifies this`outbox
      ensures outbox == old(outbox) + [env]
    {
      outbox := outbox + [env];
    }

    /** The hook: nothing happens when it throws. */
    method CommitResult(message: Uuid, c: Command, outcome: Outcome) returns (ok: bool)
      modifies this
      ensures ok <==> !Altered(old(Value()), message, c)
      ensures Value() == if ok then Commit(old(Value()), message, c, outcome) else old(Value())
    {
      var first;
      ok, first := Remember(message, c);
      if ok && first {
        Enqueue(ResultEnvelope(ResultId(message), message, ResultFor(c, outcome)));
      }
    }
  }
}
