/** The broker's `server` struct (cmd/server/main.go:30-39) as a class whose methods
    update its fields in place. The database handle, the message queue channel and the
    two mutexes are not fields here: the store is a map, the queue is the sequence of
    messages handed to ProcessMessages, and every method runs as one sequential step. */
module Broker {
  import opened Messages
  import opened Registry
  import opened Distribution

  class Server {
    var clients: seq<Client>
    var numMsgRetries: map<string, int>
    var sentMsgs: set<string>
    var reportedMsgs: set<string>
    var store: map<string, Message>

    /** The fields as one value, the state the functions of Distribution speak about. */
    function State(): BrokerState
      reads this
    {
      BrokerState(clients, numMsgRetries, sentMsgs, reportedMsgs, store)
    }

    /** newServer (cmd/server/main.go:109-115): every map and the client list start empty. */
    constructor ()
      ensures State() == BrokerState([], map[], {}, {}, map[])
    {
      clients := [];
      numMsgRetries := map[];
      sentMsgs := {};
      reportedMsgs := {};
      store := map[];
    }

    /** The registry append of sendMessages (cmd/server/main.go:212-216, 227). */
    method AddClient() returns (c: Client)
      modifies this
      ensures c.id == |old(clients)|
      ensures clients == Joined(old(clients)) && clients == old(clients) + [c]
      ensures State() == old(State()).(clients := clients)
    {
      c := Client(|clients|);
      clients := clients + [c];
    }

    /** storeMessage (cmd/server/main.go:169-195). */
    method StoreMessage(msg: Message)
      modifies this
      ensures State() == Store(old(State()), msg)
    {
      store := store[msg.id := msg];
    }

    /** reportMessage (cmd/server/main.go:248-265), with the decoder's verdict as input;
        returns the HTTP status of the response. */
    method ReportMessage(body: Body) returns (status: int)
      modifies this
      ensures Response(State(), status) == ReportRequest(old(State()), body)
    {
      var id := "";
      status := StatusOK;
      if body.Undecodable? {
        status := StatusBadRequest;
      } else {
        id := body.id;
      }
      reportedMsgs := reportedMsgs + {id};
      numMsgRetries := numMsgRetries - {id};
    }

    /** One iteration of the attempt loop (cmd/server/main.go:128-160). */
    method Attempt(msg: Message, choice: Choice) returns (event: Event)
      modifies this
      ensures Round(State(), event) == Iterate(old(State()), msg, choice)
    {
      if |clients| == 0 {
        event := Backoff;
        return;
      }
      numMsgRetries := numMsgRetries[msg.id := Retries(numMsgRetries, msg.id) + 1];
      if msg.id !in sentMsgs {
        var client := clients[choice.pick % |clients|];
        match choice.send
        case Delivered =>
          sentMsgs := sentMsgs + {msg.id};
          event := SentTo(client);
        case Disconnected =>
          clients := RemoveClient(clients, client.id);
          event := RemovedClient(client);
        case WouldBlock =>
          event := SendFailed(client);
      } else if msg.id in numMsgRetries && numMsgRetries[msg.id] == 3 {
        StoreMessage(msg);
        event := Archived;
      } else {
        event := MaxRetries;
      }
    }

    /** The handling of one dequeued message (cmd/server/main.go:124-165): if a client is
        registered, the counted loop runs its three iterations, whatever they do;
        otherwise the message is dropped after the backoff. */
    method ProcessMessage(msg: Message, env: seq<Choice>) returns (events: seq<Event>)
      requires |env| == Attempts
      modifies this
      ensures Trace(State(), events) == Handle(old(State()), msg, env)
      ensures |events| == if |old(clients)| > 0 then Attempts else 0
    {
      events := [];
      if |clients| > 0 {
        ghost var s0 := State();
        for count := 0 to Attempts
          invariant Trace(State(), events) == Rounds(s0, msg, env[..count])
        {
          assert env[..count + 1][..count] == env[..count];
          var e := Attempt(msg, env[count]);
          events := events + [e];
        }
        assert env[..Attempts] == env;
      }
    }

    /** processMessages (cmd/server/main.go:122-167) over a finite queue; envs[i] holds the
        choices of message i's three iterations. */
    method ProcessMessages(queue: seq<Message>, envs: seq<seq<Choice>>)
      requires |envs| == |queue|
      requires forall i :: 0 <= i < |envs| ==> |envs[i]| == Attempts
      modifies this
      ensures State() == HandleAll(old(State()), queue, envs)
    {
      ghost var s0 := State();
      for i := 0 to |queue|
        invariant State() == HandleAll(s0, queue[..i], envs[..i])
      {
        assert queue[..i + 1][..i] == queue[..i];
        assert envs[..i + 1][..i] == envs[..i];
        var _ := ProcessMessage(queue[i], envs[i]);
      }
      assert queue[..|queue|] == queue;
      assert envs[..|envs|] == envs;
    }
  }
}
