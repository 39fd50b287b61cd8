/** The subscriber process of cmd/client/main.go as a class. The locals of main that its
    goroutines share (batchSize, seenMsgs, workerCount, msgIds, the WaitGroup's count of
    wg.Done calls) are fields; so are the goroutines spawned and not yet returned, in the
    lists of Workers.ConsumerState, and, as ghost fields, the history that the invariant
    speaks about. Every method is one atomic step of Workers, or a run of them, and
    changes the fields exactly as that step's function says; the invariant Workers.Inv,
    which holds at construction, is proved of those functions for every schedule
    (Workers.RunKeepsInv). */
module Subscriber {
  import opened Messages
  import opened Consumption
  import opened Workers

  class Consumer {
    const batchSize: int
    var seenMsgs: set<string>
    var workerCount: int
    var msgIds: seq<string>
    var reports: seq<string>
    var done: nat
    var exitCode: Option<int>
    var pending: seq<Message>
    var refusing: seq<Message>
    var admitted: seq<Message>
    var working: seq<Message>
    ghost var spawned: seq<Message>
    ghost var rejected: seq<Message>
    ghost var recorded: seq<Message>
    ghost var finished: seq<Message>

    ghost function State(): ConsumerState
      reads this
    {
      ConsumerState(batchSize, seenMsgs, workerCount, msgIds, reports, done, exitCode,
                    pending, refusing, admitted, working, spawned, rejected, recorded, finished)
    }

    /** The start of main (cmd/client/main.go:20-27, 35), `draw` being rand.Intn(9). */
    constructor (draw: nat)
      requires draw < BatchDraws
      ensures State() == Initial(draw) && Inv(State()) && Running(State())
      ensures 2 <= batchSize <= 10
    {
      batchSize := BatchSize(draw);
      seenMsgs, workerCount, msgIds, reports, done, exitCode := {}, 0, [], [], 0, None;
      pending, refusing, admitted, working := [], [], [], [];
      spawned, rejected, recorded, finished := [], [], [], [];
      new;
      InitialInv(draw);
    }

    /** One turn of the receive loop (cmd/client/main.go:42-60). */
    method Receive(w: Wire)
      requires Running(State())
      modifies this
      ensures State() == Workers.Receive(old(State()), w)
      ensures w.Data? ==> seenMsgs == old(seenMsgs) + {w.msg.id}
      ensures w.Data? ==> pending == old(pending) + Spawned(old(seenMsgs), [w.msg])
      ensures w.Malformed? ==> exitCode == Some(1)
    {
      match w
      case Malformed =>
        exitCode := Some(1);
      case Data(m) =>
        if m.id !in seenMsgs {
          seenMsgs := seenMsgs + {m.id};
          pending := pending + [m];
          spawned := spawned + [m];
        }
    }

    /** receiveMessage (cmd/client/main.go:40-62) over a finite stream, with no task
        taking a step in between (Workers.ReceiveAllSpawns says what this does). */
    method ReceiveMessages(events: seq<Wire>)
      requires Running(State())
      modifies this
      ensures State() == ReceiveAll(old(State()), events)
    {
      ghost var s0 := State();
      var i := 0;
      while i < |events| && events[i].Data?
        invariant 0 <= i <= Readable(events)
        invariant Running(State())
        invariant State() == Deliveries(s0, Payloads(events[..i]))
      {
        assert events[..i + 1][..i] == events[..i];
        assert Payloads(events[..i + 1]) == Payloads(events[..i]) + [events[i].msg];
        Receive(events[i]);
        i := i + 1;
      }
      assert i == Readable(events);
      ghost var t := Deliveries(s0, Payloads(events[..i]));
      if i < |events| {
        Receive(events[i]);
        assert State() == t.(exitCode := Some(1));
      }
      assert ReceiveAll(s0, events) == if i < |events| then t.(exitCode := Some(1)) else t;
    }

    /** The atomic increment and comparison of cmd/client/main.go:72 for the pending task
        at position k; `ok` tells whether it was admitted. */
    method StartTask(k: nat) returns (ok: bool)
      requires Running(State()) && k < |pending|
      modifies this
      ensures State() == Start(old(State()), k)
      ensures ok <==> old(workerCount) + 1 <= batchSize
    {
      var m := pending[k];
      pending := Remove(pending, k);
      workerCount := workerCount + 1;
      ok := workerCount <= batchSize;
      if ok {
        admitted := admitted + [m];
      } else {
        refusing := refusing + [m];
      }
    }

    /** The decrement, return and deferred wg.Done of a refused task
        (cmd/client/main.go:65, 73-75). */
    method RefuseTask(k: nat)
      requires Running(State()) && k < |refusing|
      modifies this
      ensures State() == Refuse(old(State()), k)
    {
      var m := refusing[k];
      refusing := Remove(refusing, k);
      rejected := rejected + [m];
      workerCount := workerCount - 1;
      done := done + 1;
    }

    /** The append to msgIds of an admitted task (cmd/client/main.go:79-83). */
    method RecordId(k: nat)
      requires Running(State()) && k < |admitted|
      modifies this
      ensures State() == Record(old(State()), k)
    {
      var m := admitted[k];
      admitted := Remove(admitted, k);
      msgIds := msgIds + [m.id];
      working := working + [m];
      recorded := recorded + [m];
    }

    /** The Period outcome and the deferred calls of an admitted task
        (cmd/client/main.go:65-77, 85-94). */
    method FinishTask(k: nat) returns (outcome: Outcome)
      requires Running(State()) && k < |working|
      modifies this
      ensures State() == Finish(old(State()), k)
      ensures outcome == Classify(old(working[k]).period)
    {
      var m := working[k];
      outcome := Classify(m.period);
      if outcome == Fatal {
        exitCode := Some(1);
        return;
      }
      if outcome == Completed {
        reports := reports + [m.id];
      }
      workerCount := workerCount - 1;
      done := done + 1;
      working := Remove(working, k);
      finished := finished + [m];
    }

    /** processMessage (cmd/client/main.go:64-95) for the pending task at position k, run
        from start to end with no other goroutine stepping in between. */
    method ProcessMessage(k: nat) returns (ok: bool, outcome: Option<Outcome>)
      requires Running(State()) && k < |pending|
      modifies this
      ensures State() == Solo(old(State()), k)
      ensures ok <==> old(workerCount) + 1 <= batchSize
      ensures outcome == if ok then Some(Classify(old(pending[k]).period)) else None
    {
      ghost var m := pending[k];
      ok := StartTask(k);
      if !ok {
        RefuseTask(|refusing| - 1);
        outcome := None;
      } else {
        RecordId(|admitted| - 1);
        assert working[|working| - 1] == m;
        var o := FinishTask(|working| - 1);
        outcome := Some(o);
      }
    }
  }
}
