/** The decisions of the subscriber's consumption engine (cmd/client/main.go) that do not
    depend on shared state: how a message's Period decides its outcome, how the batch size
    is drawn, and which deliveries of a stream spawn a processing task. */
module Consumption {
  import opened Messages

  /** How a processing task ends: it reports, it panics and is recovered, or it ends the
      process with exit code 1. */
  datatype Outcome = Completed | LocalFault | Fatal

  /** The Period test of processMessage (cmd/client/main.go:85-94). */
  function Classify(period: nat): (o: Outcome)
    ensures o == Fatal <==> period > 900
    ensures o == LocalFault <==> 800 < period <= 900
    ensures o == Completed <==> period <= 800
  {
    if period > 900 then Fatal
    else if period > 800 then LocalFault
    else Completed
  }

  /** The number of values rand.Intn(9) can return. */
  const BatchDraws := 9

  /** batchSize := rand.Intn(9) + 2 (cmd/client/main.go:24), with the draw as input. */
  function BatchSize(draw: nat): (b: int)
    requires draw < BatchDraws
    ensures 2 <= b <= 10
  {
    draw + 2
  }

  /** Every batch size from 2 to 10 is drawn by exactly one value. */
  lemma BatchSizeOnto(b: int)
    requires 2 <= b <= 10
    ensures exists draw: nat :: draw < BatchDraws && BatchSize(draw) == b
    ensures forall draw: nat :: draw < BatchDraws && BatchSize(draw) == b ==> draw == b - 2
  {
    assert BatchSize(b - 2) == b;
  }

  /** One event of the subscription stream: a payload that unmarshals, or one that does not. */
  datatype Wire = Data(msg: Message) | Malformed

  /** How many leading events unmarshal; the receive loop ends the process at the first
      one that does not (log.Fatal at cmd/client/main.go:43-45). */
  function Readable(events: seq<Wire>): (k: nat)
    ensures k <= |events|
    ensures forall j :: 0 <= j < k ==> events[j].Data?
    ensures k < |events| ==> events[k].Malformed?
  {
    if events == [] || events[0].Malformed? then 0 else 1 + Readable(events[1..])
  }

  /** The messages carried by a run of well-formed events. */
  function Payloads(events: seq<Wire>): (ms: seq<Message>)
    requires forall j :: 0 <= j < |events| ==> events[j].Data?
    ensures |ms| == |events|
    ensures forall j :: 0 <= j < |events| ==> ms[j] == events[j].msg
  {
    if events == [] then [] else Payloads(events[..|events| - 1]) + [events[|events| - 1].msg]
  }

  /** The deduplication of receiveMessage (cmd/client/main.go:49-60): the messages that
      spawn a processing task, in delivery order, when `msgs` arrive at a subscriber that
      has already seen the ids in `seen`. A message spawns a task when neither `seen` nor
      an earlier delivery holds its id. */
  function Spawned(seen: set<string>, msgs: seq<Message>): (r: seq<Message>)
    ensures forall m :: m in r ==> m in msgs && m.id !in seen
  {
    if msgs == [] then []
    else
      var init, m := msgs[..|msgs| - 1], msgs[|msgs| - 1];
      if m.id in seen + IdSet(init) then Spawned(seen, init) else Spawned(seen, init) + [m]
  }

  ghost predicate DistinctIds(ms: seq<Message>)
  {
    forall i, j :: 0 <= i < j < |ms| ==> ms[i].id != ms[j].id
  }

  lemma IdSetAppend(a: seq<Message>, b: seq<Message>)
    ensures IdSet(a + b) == IdSet(a) + IdSet(b)
  {
    forall x | x in IdSet(a + b) ensures x in IdSet(a) + IdSet(b) {
      var m :| m in a + b && m.id == x;
    }
  }

  /** Each id spawns at most one task. */
  lemma {:induction false} SpawnedDistinct(seen: set<string>, msgs: seq<Message>)
    ensures DistinctIds(Spawned(seen, msgs))
  {
    if msgs != [] {
      var init := msgs[..|msgs| - 1];
      SpawnedDistinct(seen, init);
    }
  }

  /** Exactly the ids that were not seen before spawn a task. */
  lemma {:induction false} SpawnedIds(seen: set<string>, msgs: seq<Message>)
    ensures IdSet(Spawned(seen, msgs)) == IdSet(msgs) - seen
  {
    if msgs != [] {
      var init, m := msgs[..|msgs| - 1], msgs[|msgs| - 1];
      SpawnedIds(seen, init);
      assert msgs == init + [m];
      IdSetAppend(init, [m]);
      IdSetAppend(Spawned(seen, init), [m]);
    }
  }

  /** One more delivery: it spawns a task exactly when its id is new. */
  lemma SpawnedSnoc(seen: set<string>, msgs: seq<Message>, m: Message)
    ensures Spawned(seen, msgs + [m])
              == Spawned(seen, msgs) + (if m.id in seen + IdSet(msgs) then [] else [m])
  {
    assert (msgs + [m])[..|msgs|] == msgs;
  }

  /** Receiving `a` and then `b` spawns what `a` spawns, then what `b` spawns once the
      ids of `a` are seen. */
  lemma {:induction false} SpawnedAppend(seen: set<string>, a: seq<Message>, b: seq<Message>)
    ensures Spawned(seen, a + b) == Spawned(seen, a) + Spawned(seen + IdSet(a), b)
    decreases |b|
  {
    if b == [] {
      assert a + b == a;
    } else {
      var init, m := b[..|b| - 1], b[|b| - 1];
      var seen' := seen + IdSet(a);
      assert b == init + [m];
      assert a + b == (a + init) + [m];
      IdSetAppend(a, init);
      var tail := if m.id in seen' + IdSet(init) then [] else [m];
      SpawnedSnoc(seen, a + init, m);
      SpawnedSnoc(seen', init, m);
      SpawnedAppend(seen, a, init);
      assert Spawned(seen, a + b) == Spawned(seen, a + init) + tail;
    }
  }

  /** Deliveries whose ids are all seen spawn nothing. */
  lemma {:induction false} SpawnedNothingWhenSeen(seen: set<string>, msgs: seq<Message>)
    requires IdSet(msgs) <= seen
    ensures Spawned(seen, msgs) == []
  {
    if msgs != [] {
      var init := msgs[..|msgs| - 1];
      assert IdSet(init) <= IdSet(msgs);
      SpawnedNothingWhenSeen(seen, init);
    }
  }

  /** Dedup idempotence: redelivering the whole stream spawns no further task. */
  lemma RedeliveryIsNoop(seen: set<string>, msgs: seq<Message>)
    ensures Spawned(seen, msgs + msgs) == Spawned(seen, msgs)
  {
    SpawnedAppend(seen, msgs, msgs);
    SpawnedNothingWhenSeen(seen + IdSet(msgs), msgs);
  }

  /** The tasks that send a report, among those that have finished. */
  function Acked(finished: seq<Message>): (r: seq<Message>)
    ensures forall m :: m in r ==> m in finished && Classify(m.period) == Completed
  {
    if finished == [] then []
    else
      var init, m := finished[..|finished| - 1], finished[|finished| - 1];
      Acked(init) + (if Classify(m.period) == Completed then [m] else [])
  }

  lemma AckedSnoc(finished: seq<Message>, m: Message)
    ensures Acked(finished + [m]) == Acked(finished) + (if Classify(m.period) == Completed then [m] else [])
  {
    assert (finished + [m])[..|finished|] == finished;
  }
}
