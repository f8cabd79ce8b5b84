/**
 `process_packet`'s delivery of one message: a snapshot of the handlers registered for its type,
 called one after the other while they add, remove or raise as they like.
 */
module MessageDispatch {
  import opened MessageWaits

  /** What one handler does to the handler table, and whether it then raises. */
  datatype Effect = Effect(table: Table, raises: bool)

  type Reaction = (nat, Msg, Table) -> Effect

  /** The table after the handlers in `order`, each of which sees what the ones before it did. */
  function Replay(react: Reaction, m: Msg, t: Table, order: seq<nat>): Table {
    if order == [] then t
    else react(order[|order| - 1], m, Replay(react, m, t, order[..|order| - 1])).table
  }

  /** The handlers in `order` that raised. */
  function Raisers(react: Reaction, m: Msg, t: Table, order: seq<nat>): seq<nat> {
    if order == [] then []
    else
      var init := order[..|order| - 1];
      var last := order[|order| - 1];
      Raisers(react, m, t, init) + if react(last, m, Replay(react, m, t, init)).raises then [last] else []
  }

  lemma ReplayOneMore(react: Reaction, m: Msg, t: Table, order: seq<nat>, h: nat)
    ensures var effect := react(h, m, Replay(react, m, t, order));
            && Replay(react, m, t, order + [h]) == effect.table
            && Raisers(react, m, t, order + [h]) == Raisers(react, m, t, order) + if effect.raises then [h] else []
  {
    assert (order + [h])[..|order|] == order;
  }

  lemma NothingReplayed(react: Reaction, m: Msg, t: Table)
    ensures Replay(react, m, t, []) == t && Raisers(react, m, t, []) == []
  {
  }

  lemma OneMoreInvoked(handlers: set<nat>, todo: set<nat>, h: nat)
    requires h in todo && todo <= handlers
    ensures multiset(handlers - (todo - {h})) == multiset(handlers - todo) + multiset{h}
  {
    assert handlers - (todo - {h}) == (handlers - todo) + {h};
  }

  class MessageHandlers<C> {
    var messageHandlers: Table
    var waits: map<nat, Wait<C>>
    var logged: seq<nat>   // the handlers whose exceptions were logged

    constructor ()
      ensures messageHandlers == map[] && waits == map[] && logged == []
    {
      messageHandlers, waits, logged := map[], map[], [];
    }

    /**
     Calls each handler registered for the message's type when it arrives exactly once, in some order,
     and no other, although some of them may raise; these are logged.  The table afterwards is what the
     handlers made of it.
     */
    method ProcessPacket(m: Msg, react: Reaction) returns (invoked: seq<nat>)
      modifies this`messageHandlers, this`logged
      ensures multiset(invoked) == multiset(HandlersFor(old(messageHandlers), m.kind))
      ensures messageHandlers == Replay(react, m, old(messageHandlers), invoked)
      ensures logged == old(logged) + Raisers(react, m, old(messageHandlers), invoked)
    {
      invoked := [];
      if m.kind !in messageHandlers {
        return;
      }
      var handlers := messageHandlers[m.kind];
      if |handlers| > 1 {
        invoked := CallCopied(handlers, m, react);
      } else if handlers != {} { // a single handler is called without a copy, and the loop left at once
        var h :| h in handlers;
        CallProtected(h, m, react, messageHandlers, []);
        invoked := [h];
        assert handlers == {h} by {
          assert |handlers - {h}| == 0;
        }
      }
    }

    method CallCopied(handlers: set<nat>, m: Msg, react: Reaction) returns (invoked: seq<nat>)
      modifies this`messageHandlers, this`logged
      ensures multiset(invoked) == multiset(handlers)
      ensures messageHandlers == Replay(react, m, old(messageHandlers), invoked)
      ensures logged == old(logged) + Raisers(react, m, old(messageHandlers), invoked)
    {
      hide Replay, Raisers;
      invoked := [];
      NothingReplayed(react, m, messageHandlers);
      var todo := handlers;
      while todo != {}
        invariant todo <= handlers
        invariant multiset(invoked) == multiset(handlers - todo)
        invariant messageHandlers == Replay(react, m, old(messageHandlers), invoked)
        invariant logged == old(logged) + Raisers(react, m, old(messageHandlers), invoked)
      {
        var h :| h in todo;
        CallProtected(h, m, react, old(messageHandlers), invoked);
        invoked := invoked + [h];
        OneMoreInvoked(handlers, todo, h);
        todo := todo - {h};
      }
      assert handlers - {} == handlers;
    }

    /** The call inside `try`: an exception is caught and logged, and the caller goes on. */
    method CallProtected(h: nat, m: Msg, react: Reaction, ghost before: Table, ghost invoked: seq<nat>)
      requires messageHandlers == Replay(react, m, before, invoked)
      modifies this`messageHandlers, this`logged
      ensures messageHandlers == Replay(react, m, before, invoked + [h])
      ensures logged == old(logged) + if react(h, m, old(messageHandlers)).raises then [h] else []
      ensures Raisers(react, m, before, invoked + [h]) ==
              Raisers(react, m, before, invoked) + if react(h, m, old(messageHandlers)).raises then [h] else []
    {
      ReplayOneMore(react, m, before, invoked, h);
      var raised := CallHandler(h, m, react);
      if raised {
        logged := logged + [h];
      }
    }

    /** The handler itself; what it did to the table before it raised stays done. */
    method CallHandler(h: nat, m: Msg, react: Reaction) returns (raised: bool)
      modifies this`messageHandlers
      ensures Effect(messageHandlers, raised) == react(h, m, old(messageHandlers))
    {
      var effect := react(h, m, messageHandlers);
      messageHandlers := effect.table;
      return effect.raises;
    }

    /** The handlers of the pending requests: called in any order, they act as if all at once. */
    method DeliverToWaits(m: Msg)
      modifies this`waits
      ensures waits == Deliver(old(waits), HandlersFor(messageHandlers, m.kind), m)
    {
      var snapshot := if m.kind in messageHandlers then messageHandlers[m.kind] else {};
      var todo := snapshot;
      while todo != {}
        invariant todo <= snapshot
        invariant waits == Deliver(old(waits), snapshot - todo, m)
      {
        var id :| id in todo;
        if id in waits {
          waits := waits[id := HandleComplexMessage(waits[id], m)];
        }
        todo := todo - {id};
      }
      assert snapshot - {} == snapshot;
    }

    method AddMessageCallback(id: nat, kinds: seq<nat>)
      modifies this`messageHandlers
      ensures messageHandlers == AddHandler(old(messageHandlers), (set k | k in kinds), id)
    {
      ghost var before := messageHandlers;
      for i := 0 to |kinds|
        invariant forall k :: k in messageHandlers <==> k in before || k in kinds[..i]
        invariant forall k | k in messageHandlers ::
                    messageHandlers[k] == HandlersFor(before, k) + (if k in kinds[..i] then {id} else {})
      {
        assert kinds[..i + 1] == kinds[..i] + [kinds[i]];
        if kinds[i] !in messageHandlers {
          messageHandlers := messageHandlers[kinds[i] := {id}];
        } else {
          messageHandlers := messageHandlers[kinds[i] := messageHandlers[kinds[i]] + {id}];
        }
      }
      assert kinds[..|kinds|] == kinds;
      assert messageHandlers == AddHandler(before, (set k | k in kinds), id);
    }
  }
}
