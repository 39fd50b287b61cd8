/** The broker's distribution engine (processMessages, storeMessage and reportMessage in
    cmd/server/main.go) as functions on a value of its bookkeeping. The class
    Broker.Server changes its fields exactly as these functions say. */
module Distribution {
  import opened Messages
  import opened Registry

  /** The three arms of the select that hands a message to the chosen client. */
  datatype SendResult = Delivered | Disconnected | WouldBlock

  /** What the environment decides in one iteration of the attempt loop: the number drawn
      for the client choice (the client taken is clients[pick % |clients|], so every index
      can be drawn) and the arm the select takes. */
  datatype Choice = Choice(pick: nat, send: SendResult)

  /** The broker's shared bookkeeping; the bbolt bucket is the map `store` from id to message. */
  datatype BrokerState = BrokerState(
    clients: seq<Client>,
    numMsgRetries: map<string, int>,
    sentMsgs: set<string>,
    reportedMsgs: set<string>,
    store: map<string, Message>)

  /** What one iteration of the attempt loop did. */
  datatype Event =
    | Backoff                        // no client registered: sleep, then `continue`
    | SentTo(client: Client)         // the send to the chosen client went through
    | RemovedClient(client: Client)  // the chosen client's disconnect signal fired
    | SendFailed(client: Client)     // the send would have blocked
    | Archived                       // already sent and the counter is exactly 3: storeMessage
    | MaxRetries                     // already sent and the counter is not 3: a log line only

  /** The event of an iteration that tried to send to a client. */
  predicate IsSend(e: Event)
  {
    e.SentTo? || e.RemovedClient? || e.SendFailed?
  }

  datatype Round = Round(state: BrokerState, event: Event)
  datatype Trace = Trace(state: BrokerState, events: seq<Event>)

  /** A Go map read: the stored count, or the zero value for a missing key. */
  function Retries(m: map<string, int>, id: string): int
  {
    if id in m then m[id] else 0
  }

  function Chosen(clients: seq<Client>, pick: nat): (c: Client)
    requires |clients| > 0
    ensures c in clients
  {
    clients[pick % |clients|]
  }

  /** Every stored value sits under its own id, as bucket.Put([]byte(msg.Id), ...) does. */
  ghost predicate StoreKeyed(s: BrokerState)
  {
    forall k :: k in s.store ==> s.store[k].id == k
  }

  /** storeMessage (cmd/server/main.go:169-195) as a map put. */
  function Store(s: BrokerState, msg: Message): (r: BrokerState)
    ensures msg.id in r.store && r.store[msg.id] == msg
    ensures r.store.Keys == s.store.Keys + {msg.id}
    ensures forall k :: k in s.store && k != msg.id ==> r.store[k] == s.store[k]
    ensures r.(store := s.store) == s
    ensures StoreKeyed(s) ==> StoreKeyed(r)
  {
    s.(store := s.store[msg.id := msg])
  }

  /** A put overwrites the entry at the id: storing the same message again changes
      nothing, and neither does storing a message already held under its id. */
  lemma StoreIdempotent(s: BrokerState, msg: Message)
    ensures Store(Store(s, msg), msg) == Store(s, msg)
    ensures msg.id in s.store && s.store[msg.id] == msg ==> Store(s, msg) == s
  {
  }

  /** The bookkeeping of reportMessage (cmd/server/main.go:257-262): the id is marked
      reported and its retry counter is discarded. */
  function Report(s: BrokerState, id: string): (r: BrokerState)
    ensures id in r.reportedMsgs && id !in r.numMsgRetries
    ensures r.reportedMsgs == s.reportedMsgs + {id}
    ensures r.numMsgRetries.Keys == s.numMsgRetries.Keys - {id}
    ensures forall k :: k in r.numMsgRetries ==> r.numMsgRetries[k] == s.numMsgRetries[k]
    ensures r.(numMsgRetries := s.numMsgRetries, reportedMsgs := s.reportedMsgs) == s
  {
    s.(reportedMsgs := s.reportedMsgs + {id}, numMsgRetries := s.numMsgRetries - {id})
  }

  /** Reporting again changes nothing more. */
  lemma ReportIdempotent(s: BrokerState, id: string)
    ensures Report(Report(s, id), id) == Report(s, id)
  {
  }

  /** Reporting an id that has no retry counter leaves the counters alone, and reporting
      an id that is already reported and has no counter leaves the whole state alone. */
  lemma ReportUnknown(s: BrokerState, id: string)
    requires id !in s.numMsgRetries
    ensures Report(s, id).numMsgRetries == s.numMsgRetries
    ensures id in s.reportedMsgs ==> Report(s, id) == s
  {
    assert s.numMsgRetries - {id} == s.numMsgRetries;
  }

  /** The body of a report request, as the JSON decoder sees it. */
  datatype Body = Decoded(id: string) | Undecodable

  datatype Response = Response(state: BrokerState, status: int)

  const StatusOK := 200
  const StatusBadRequest := 400

  /** reportMessage (cmd/server/main.go:248-265). An undecodable body makes http.Error write
      400, but the handler does not return: it goes on to record the zero-value id "" and its
      later WriteHeader(200) is ignored, since the status line is already written. */
  function ReportRequest(s: BrokerState, body: Body): (r: Response)
    ensures r.status == StatusBadRequest <==> body.Undecodable?
    ensures r.status == StatusOK <==> body.Decoded?
    ensures body.Decoded? ==> r.state == Report(s, body.id)
    ensures body.Undecodable? ==> r.state == Report(s, "") && "" in r.state.reportedMsgs
  {
    match body
    case Decoded(id) => Response(Report(s, id), StatusOK)
    case Undecodable => Response(Report(s, ""), StatusBadRequest)
  }

  /** One iteration of the attempt loop (cmd/server/main.go:128-160). The `count = 3` at
      line 157 assigns the `count` declared by the `else if` at 152, not the loop counter,
      so it has no effect on the loop and is not modelled. */
  function Iterate(s: BrokerState, msg: Message, choice: Choice): (r: Round)
    ensures r.event == Backoff <==> |s.clients| == 0
    ensures r.event == Backoff ==> r.state == s
    ensures Retries(r.state.numMsgRetries, msg.id)
              == Retries(s.numMsgRetries, msg.id) + (if r.event == Backoff then 0 else 1)
    ensures r.state.numMsgRetries - {msg.id} == s.numMsgRetries - {msg.id}
    ensures r.state.reportedMsgs == s.reportedMsgs
    ensures IsSend(r.event) <==> |s.clients| > 0 && msg.id !in s.sentMsgs
    ensures IsSend(r.event) ==> r.event.client == Chosen(s.clients, choice.pick)
    ensures IsSend(r.event) ==> (r.event.SentTo? <==> choice.send == Delivered)
    ensures IsSend(r.event) ==> (r.event.RemovedClient? <==> choice.send == Disconnected)
    ensures r.state.sentMsgs == if r.event.SentTo? then s.sentMsgs + {msg.id} else s.sentMsgs
    ensures r.state.clients
              == if r.event.RemovedClient? then Without(s.clients, r.event.client.id) else s.clients
    ensures r.event == Archived <==>
              |s.clients| > 0 && msg.id in s.sentMsgs && Retries(s.numMsgRetries, msg.id) == 2
    ensures r.state.store == if r.event == Archived then s.store[msg.id := msg] else s.store
  {
    if |s.clients| == 0 then Round(s, Backoff)
    else
      var retries := s.numMsgRetries[msg.id := Retries(s.numMsgRetries, msg.id) + 1];
      var t := s.(numMsgRetries := retries);
      if msg.id !in s.sentMsgs then
        var c := Chosen(s.clients, choice.pick);
        match choice.send
        case Delivered => Round(t.(sentMsgs := s.sentMsgs + {msg.id}), SentTo(c))
        case Disconnected => Round(t.(clients := Without(s.clients, c.id)), RemovedClient(c))
        case WouldBlock => Round(t, SendFailed(c))
      else if msg.id in retries && retries[msg.id] == 3 then
        Round(Store(t, msg), Archived)
      else
        Round(t, MaxRetries)
  }

  /** The first |env| iterations of the attempt loop on one message. */
  function Rounds(s: BrokerState, msg: Message, env: seq<Choice>): (t: Trace)
    ensures |t.events| == |env|
  {
    if env == [] then Trace(s, [])
    else
      var before := Rounds(s, msg, env[..|env| - 1]);
      var r := Iterate(before.state, msg, env[|env| - 1]);
      Trace(r.state, before.events + [r.event])
  }

  /** The number of attempt loop iterations per dequeued message (cmd/server/main.go:127). */
  const Attempts := 3

  /** The handling of one dequeued message (cmd/server/main.go:124-165): three iterations
      if a client was registered at dequeue, otherwise a backoff and the message is dropped. */
  function Handle(s: BrokerState, msg: Message, env: seq<Choice>): (t: Trace)
    requires |env| == Attempts
    ensures |t.events| == if |s.clients| > 0 then Attempts else 0
    ensures |s.clients| == 0 ==> t.state == s
  {
    if |s.clients| > 0 then Rounds(s, msg, env) else Trace(s, [])
  }

  /** The outer `for msg := range srv.msgQueue` loop (cmd/server/main.go:123-166) over the
      messages dequeued so far, each with the choices of its own three iterations. Over the
      whole queue sentMsgs and the store's keys only grow, the loop never marks anything
      reported, and every stored value sits under its own id. */
  function HandleAll(s: BrokerState, queue: seq<Message>, envs: seq<seq<Choice>>): (r: BrokerState)
    requires |envs| == |queue|
    requires forall i :: 0 <= i < |envs| ==> |envs[i]| == Attempts
    ensures s.sentMsgs <= r.sentMsgs && s.store.Keys <= r.store.Keys
    ensures r.reportedMsgs == s.reportedMsgs
    ensures StoreKeyed(s) ==> StoreKeyed(r)
  {
    if queue == [] then s
    else
      var n := |queue| - 1;
      var mid := HandleAll(s, queue[..n], envs[..n]);
      HandleStoresOnlyDispatched(mid, queue[n], envs[n]);
      Handle(mid, queue[n], envs[n]).state
  }

  // ---------------------------------------------------------------------------------
  // Properties of the attempt loop

  /** The number of iterations that found a client (every event except Backoff). */
  function Busy(events: seq<Event>): nat
  {
    if events == [] then 0
    else Busy(events[..|events| - 1]) + (if events[|events| - 1] == Backoff then 0 else 1)
  }

  /** Some iteration delivered the message. */
  predicate Dispatched(events: seq<Event>)
  {
    exists i :: 0 <= i < |events| && events[i].SentTo?
  }

  lemma {:induction false} BusyAtMostLength(events: seq<Event>)
    ensures Busy(events) <= |events|
  {
    if events != [] {
      BusyAtMostLength(events[..|events| - 1]);
    }
  }

  lemma {:induction false} BusyPrefix(events: seq<Event>, k: nat, k': nat)
    requires k <= k' <= |events|
    ensures Busy(events[..k]) <= Busy(events[..k'])
    ensures k < |events| && events[k] != Backoff ==> Busy(events[..k + 1]) == Busy(events[..k]) + 1
    decreases k'
  {
    if k < |events| {
      assert events[..k + 1][..k] == events[..k];
    }
    if k < k' {
      BusyPrefix(events, k, k' - 1);
      assert events[..k'][..k' - 1] == events[..k' - 1];
    }
  }

  /** Running a prefix of the choices yields a prefix of the events. */
  lemma {:induction false} RoundsPrefix(s: BrokerState, msg: Message, env: seq<Choice>, k: nat)
    requires k <= |env|
    ensures Rounds(s, msg, env[..k]).events == Rounds(s, msg, env).events[..k]
    decreases |env|
  {
    if k < |env| {
      var init := env[..|env| - 1];
      RoundsPrefix(s, msg, init, k);
      assert init[..k] == env[..k];
    } else {
      assert env[..k] == env;
    }
  }

  /** Event j is the outcome of one iteration on the state left by the first j. */
  lemma RoundAt(s: BrokerState, msg: Message, env: seq<Choice>, j: nat)
    requires j < |env|
    ensures Rounds(s, msg, env).events[j] == Iterate(Rounds(s, msg, env[..j]).state, msg, env[j]).event
    ensures Rounds(s, msg, env[..j + 1]).state == Iterate(Rounds(s, msg, env[..j]).state, msg, env[j]).state
  {
    RoundsPrefix(s, msg, env, j + 1);
    assert env[..j + 1][..j] == env[..j];
  }

  /** The message's retry counter rises by exactly one per iteration that found a client
      and by nothing on the others; no other id's counter changes, and nothing is
      reported by the loop. */
  lemma {:induction false} RoundsRetries(s: BrokerState, msg: Message, env: seq<Choice>)
    ensures Retries(Rounds(s, msg, env).state.numMsgRetries, msg.id)
              == Retries(s.numMsgRetries, msg.id) + Busy(Rounds(s, msg, env).events)
    ensures Rounds(s, msg, env).state.numMsgRetries - {msg.id} == s.numMsgRetries - {msg.id}
    ensures Rounds(s, msg, env).state.reportedMsgs == s.reportedMsgs
  {
    if env != [] {
      var init := env[..|env| - 1];
      RoundsRetries(s, msg, init);
      var t := Rounds(s, msg, env);
      assert t.events[..|env| - 1] == Rounds(s, msg, init).events;
    }
  }

  /** The id enters sentMsgs only through a delivery, no other id is touched, and the
      final set holds the id exactly when it was there before or some iteration delivered. */
  lemma {:induction false} RoundsSent(s: BrokerState, msg: Message, env: seq<Choice>)
    ensures Rounds(s, msg, env).state.sentMsgs
              == s.sentMsgs + (if Dispatched(Rounds(s, msg, env).events) then {msg.id} else {})
  {
    if env != [] {
      var init := env[..|env| - 1];
      RoundsSent(s, msg, init);
      var t := Rounds(s, msg, env);
      var before := Rounds(s, msg, init);
      assert t.events == before.events + [t.events[|env| - 1]];
      if Dispatched(before.events) {
        var i :| 0 <= i < |before.events| && before.events[i].SentTo?;
        assert t.events[i].SentTo?;
      }
    }
  }

  /** The store changes only by the archive step, and then only at the message's id. */
  lemma {:induction false} RoundsStore(s: BrokerState, msg: Message, env: seq<Choice>)
    ensures Rounds(s, msg, env).state.store
              == if Archived in Rounds(s, msg, env).events then s.store[msg.id := msg] else s.store
  {
    if env != [] {
      var init := env[..|env| - 1];
      RoundsStore(s, msg, init);
      var t := Rounds(s, msg, env);
      var before := Rounds(s, msg, init);
      assert t.events == before.events + [t.events[|env| - 1]];
      assert Archived in t.events <==> Archived in before.events || t.events[|env| - 1] == Archived;
    }
  }

  /** At most one delivery per message: once the id is in sentMsgs, before the loop or by
      an earlier iteration, no iteration tries to send it again. */
  lemma NoSendOnceSent(s: BrokerState, msg: Message, env: seq<Choice>)
    ensures msg.id in s.sentMsgs ==> forall j :: 0 <= j < |env| ==> !IsSend(Rounds(s, msg, env).events[j])
    ensures forall i, j :: 0 <= i < j < |env| && Rounds(s, msg, env).events[i].SentTo?
              ==> !IsSend(Rounds(s, msg, env).events[j])
  {
    var events := Rounds(s, msg, env).events;
    forall j | 0 <= j < |env|
      ensures msg.id in s.sentMsgs ==> !IsSend(events[j])
      ensures (exists i :: 0 <= i < j && events[i].SentTo?) ==> !IsSend(events[j])
    {
      RoundAt(s, msg, env, j);
      RoundsSent(s, msg, env[..j]);
      RoundsPrefix(s, msg, env, j);
      if i :| 0 <= i < j && events[i].SentTo? {
        assert Rounds(s, msg, env[..j]).events[i].SentTo?;
      }
    }
  }

  /** The archive step is reached only for a message that was dispatched, before the loop
      or by an earlier iteration. */
  lemma ArchiveNeedsDispatch(s: BrokerState, msg: Message, env: seq<Choice>)
    ensures forall j :: 0 <= j < |env| && Rounds(s, msg, env).events[j] == Archived
              ==> msg.id in s.sentMsgs || Dispatched(Rounds(s, msg, env).events[..j])
  {
    var events := Rounds(s, msg, env).events;
    forall j | 0 <= j < |env| && events[j] == Archived
      ensures msg.id in s.sentMsgs || Dispatched(events[..j])
    {
      RoundAt(s, msg, env, j);
      RoundsSent(s, msg, env[..j]);
      RoundsPrefix(s, msg, env, j);
    }
  }

  /** A message is archived at most once per dequeue: the counter is exactly 3 right after
      the first archive step and only grows after it. */
  lemma ArchivedOnce(s: BrokerState, msg: Message, env: seq<Choice>)
    ensures forall i, j :: 0 <= i < j < |env| && Rounds(s, msg, env).events[i] == Archived
              ==> Rounds(s, msg, env).events[j] != Archived
  {
    var events := Rounds(s, msg, env).events;
    forall i, j | 0 <= i < j < |env| && events[i] == Archived
      ensures events[j] != Archived
    {
      RoundAt(s, msg, env, i);
      RoundAt(s, msg, env, j);
      RoundsRetries(s, msg, env[..i]);
      RoundsRetries(s, msg, env[..j]);
      RoundsPrefix(s, msg, env, i);
      RoundsPrefix(s, msg, env, j);
      BusyPrefix(events, i, j);
      BusyPrefix(events, i + 1, j);
    }
  }

  // ---------------------------------------------------------------------------------
  // Properties of the handling of one dequeued message

  /** Retry cap: a dequeue adds at most 3 to the message's counter, so a message that had
      no counter ends with at most 3; with no client at dequeue nothing changes at all. */
  lemma HandleRetryBound(s: BrokerState, msg: Message, env: seq<Choice>)
    requires |env| == Attempts
    ensures Retries(s.numMsgRetries, msg.id) <= Retries(Handle(s, msg, env).state.numMsgRetries, msg.id)
              <= Retries(s.numMsgRetries, msg.id) + Attempts
    ensures msg.id !in s.numMsgRetries ==> Retries(Handle(s, msg, env).state.numMsgRetries, msg.id) <= 3
    ensures Handle(s, msg, env).state.numMsgRetries - {msg.id} == s.numMsgRetries - {msg.id}
  {
    if |s.clients| > 0 {
      RoundsRetries(s, msg, env);
      BusyAtMostLength(Rounds(s, msg, env).events);
    }
  }

  /** A message that the dequeue leaves outside sentMsgs is never stored: this is the
      abandoned case of a message no client accepted. Otherwise the store may only gain
      this very message under its id. */
  lemma HandleStoresOnlyDispatched(s: BrokerState, msg: Message, env: seq<Choice>)
    requires |env| == Attempts
    ensures msg.id !in Handle(s, msg, env).state.sentMsgs ==> Handle(s, msg, env).state.store == s.store
    ensures Handle(s, msg, env).state.store == s.store
            || Handle(s, msg, env).state.store == s.store[msg.id := msg]
    ensures s.sentMsgs <= Handle(s, msg, env).state.sentMsgs <= s.sentMsgs + {msg.id}
    ensures Handle(s, msg, env).state.reportedMsgs == s.reportedMsgs
  {
    if |s.clients| > 0 {
      var events := Rounds(s, msg, env).events;
      RoundsStore(s, msg, env);
      RoundsSent(s, msg, env);
      RoundsRetries(s, msg, env);
      ArchiveNeedsDispatch(s, msg, env);
      if Archived in events {
        var j :| 0 <= j < |events| && events[j] == Archived;
        if Dispatched(events[..j]) {
          var i :| 0 <= i < j && events[..j][i].SentTo?;
          assert events[i].SentTo?;
        }
      }
    }
  }

  /** With a client registered and a fresh message whose first send goes through, the
      next two iterations take the counter to 2 and then 3, and the third stores the
      message: the `count = 3` of the second iteration does not end the loop. */
  lemma FreshDeliveryIsArchived(s: BrokerState, msg: Message, env: seq<Choice>)
    requires |s.clients| > 0 && msg.id !in s.sentMsgs && msg.id !in s.numMsgRetries
    requires |env| == Attempts && env[0].send == Delivered
    ensures Handle(s, msg, env).events == [SentTo(Chosen(s.clients, env[0].pick)), MaxRetries, Archived]
    ensures Retries(Handle(s, msg, env).state.numMsgRetries, msg.id) == 3
    ensures msg.id in Handle(s, msg, env).state.sentMsgs
    ensures Handle(s, msg, env).state.store == s.store[msg.id := msg]
  {
    var r1 := Iterate(s, msg, env[0]);
    var r2 := Iterate(r1.state, msg, env[1]);
    var r3 := Iterate(r2.state, msg, env[2]);
    assert env[..1][..0] == [];
    assert env[..2][..1] == env[..1];
    assert env[..3] == env;
    assert Rounds(s, msg, env[..1]) == Trace(r1.state, [r1.event]);
    assert Rounds(s, msg, env[..2]) == Trace(r2.state, [r1.event, r2.event]);
  }

  /** A fresh message that no client accepts in any of its three iterations is left
      with the counter at 3, outside sentMsgs, and out of the store. */
  lemma NeverAcceptedIsAbandoned(s: BrokerState, msg: Message, env: seq<Choice>)
    requires |s.clients| > 0 && msg.id !in s.sentMsgs && msg.id !in s.numMsgRetries
    requires |env| == Attempts && forall j :: 0 <= j < Attempts ==> env[j].send == WouldBlock
    ensures Retries(Handle(s, msg, env).state.numMsgRetries, msg.id) == 3
    ensures msg.id !in Handle(s, msg, env).state.sentMsgs
    ensures Handle(s, msg, env).state.store == s.store
  {
    var r1 := Iterate(s, msg, env[0]);
    var r2 := Iterate(r1.state, msg, env[1]);
    assert env[..1][..0] == [];
    assert env[..2][..1] == env[..1];
    assert env[..3] == env;
    assert Rounds(s, msg, env[..1]) == Trace(r1.state, [r1.event]);
    assert Rounds(s, msg, env[..2]) == Trace(r2.state, [r1.event, r2.event]);
  }
}
