// Pool's critical sections as the source writes them: a class whose fields change under mu. An
// object shows a state of PoolProtocol when its fields are those of that state. CachedClient finds
// what the protocol's check finds there, and AccountLock, Publish and Close take the object to one
// that shows where the matching steps of the protocol lead.
module PoolSections {
  import opened Wrappers
  import opened PoolProtocol

  // Where a build goes from inserting its client: on to releasing the mutex, by way of stopping
  // its own keepalive if the pool is closed.
  ghost function AfterPublish(c: Config, t: Tid, sh: Shared, key: Key, mutex: Mutex, choice: Choice): Shared {
    var inserted := LoginStep(c, t, sh, key, Build, Publish(mutex), choice);
    if sh.life.closed then LoginStep(c, t, inserted.sh, key, Build, StopOwn(mutex), choice).sh else inserted.sh
  }

  // Where Close goes from its snapshot when it stops the clients in this order.
  ghost predicate Stops(t: Tid, sh: Shared, order: seq<Tid>, pending: set<Tid>, sh': Shared)
    decreases |order|
  {
    if order == [] then pending == {} && sh' == sh
    else
      var m := StoppingStep(t, sh, pending, order[0]);
      m.Move? && m.pc.Stopping? && Stops(t, m.sh, order[1..], m.pc.pending, sh')
  }

  // In whatever order, each pending client's keepalive is stopped and no other field is touched.
  lemma {:induction false} StopsAll(t: Tid, sh: Shared, order: seq<Tid>, pending: set<Tid>, sh': Shared)
    requires Stops(t, sh, order, pending, sh')
    ensures sh'.life.running == sh.life.running - pending && sh'.life.closed == sh.life.closed && sh'.table == sh.table
    decreases |order|
  {
    if order != [] {
      var m := StoppingStep(t, sh, pending, order[0]);
      StopsAll(t, m.sh, order[1..], m.pc.pending, sh');
    }
  }

  // Close's first step.
  ghost function Closing(t: Tid, sh: Shared): Shared {
    EnterStep(Config(map[], false), t, sh, Request.Close).sh
  }

  class Pool {
    var clients: map<Key, Tid>
    var closed: bool
    var loginLocks: map<Key, Mutex>
    var nextMutex: Mutex        // stands for the allocation of a new mutex
    var running: set<Tid>       // keepalive goroutines, by client

    constructor ()
      ensures clients == map[] && !closed && loginLocks == map[] && nextMutex == 0 && running == {}
    {
      clients, closed, loginLocks, nextMutex, running := map[], false, map[], 0, {};
    }

    ghost predicate Shows(sh: Shared)
      reads this
    {
      && clients == sh.table.clients && loginLocks == sh.table.loginLocks && nextMutex == sh.table.nextMutex
      && closed == sh.life.closed && running == sh.life.running
    }

    // cached: the lookup that For makes before and inside byAccount.
    method CachedClient(key: Key) returns (client: Option<Tid>)
      ensures client.Some? <==> key in clients
      ensures client.Some? ==> clients[key] == client.value
      ensures forall sh, c, t, request :: Shows(sh) ==>
                ForStep(c, t, sh, request, FirstCheck(key)) ==
                Move(sh, InFor(if client.None? then EnterAccount(key) else LeaveSubject(Client(key, client.value))))
    {
      if key in clients {
        client := Some(clients[key]);
      } else {
        client := None;
      }
    }

    // loginLock: a second call for the same key finds the first call's mutex.
    method AccountLock(key: Key) returns (mutex: Mutex)
      modifies this`loginLocks, this`nextMutex
      ensures key in loginLocks && loginLocks[key] == mutex
      ensures forall k :: k in old(loginLocks) ==> k in loginLocks && loginLocks[k] == old(loginLocks[k])
      ensures forall k :: k in loginLocks && k !in old(loginLocks) ==> k == key && mutex == old(nextMutex)
      ensures forall sh, c, t, mode, choice :: old(Shows(sh)) ==>
                var m := LoginStep(c, t, sh, key, mode, GetLock, choice);
                Shows(m.sh) && m.pc == InLogin(key, mode, AwaitLock(mutex))
    {
      if key !in loginLocks {
        loginLocks := loginLocks[key := nextMutex];
        nextMutex := nextMutex + 1;
      }
      mutex := loginLocks[key];
    }

    // The end of buildAndLogin: insert the client and read closed in one section, then stop
    // the keepalive here if Close has already been and gone.
    method Publish(key: Key, client: Tid)
      modifies this`clients, this`running
      ensures clients == old(clients)[key := client]
      ensures running == if closed then old(running) - {client} else old(running)
      ensures forall sh, c, mutex, choice :: old(Shows(sh)) ==> Shows(AfterPublish(c, client, sh, key, mutex, choice))
    {
      clients := clients[key := client];
      if closed {
        running := running - {client};
      }
    }

    // Close: collect the stop functions of every pooled client, then call them.
    method Close()
      modifies this`closed, this`running
      ensures closed && running == old(running) - clients.Values
      ensures forall sh, t, order, sh' ::
        old(Shows(sh)) && Stops(t, Closing(t, sh), order, sh.table.clients.Values, sh') ==> Shows(sh')
    {
      closed := true;
      var stops: seq<Tid> := [];
      var todo := clients.Keys;
      while todo != {}
        invariant todo <= clients.Keys
        invariant forall x :: x in stops <==> exists k :: k in clients.Keys - todo && clients[k] == x
        decreases |todo|
      {
        var k :| k in todo;
        todo := todo - {k};
        stops := stops + [clients[k]];
      }
      assert forall x :: x in stops <==> x in clients.Values;
      for i := 0 to |stops|
        invariant closed
        invariant running == old(running) - (set x | x in stops[..i])
      {
        running := running - {stops[i]};
      }
      assert stops[..|stops|] == stops;
      assert running == old(running) - clients.Values;
      forall sh, t, order, sh' | old(Shows(sh)) && Stops(t, Closing(t, sh), order, sh.table.clients.Values, sh')
        ensures Shows(sh')
      {
        StopsAll(t, Closing(t, sh), order, sh.table.clients.Values, sh');
      }
    }
  }
}
