/** The shared state of one subscriber process (cmd/client/main.go) as a value, and the
    atomic steps its goroutines take on it. The receive goroutine and the processMessage
    goroutines run concurrently in the source; here every step below is one indivisible
    action on the shared state, and a schedule is any sequence of enabled steps.

    A spawned processMessage goroutine goes through these places, in order:
      pending   — spawned, not yet at the atomic increment of line 72;
      refusing  — its increment returned more than batchSize; the decrement of line 74
                  is still to come;
      admitted  — its increment returned at most batchSize; its id is not yet in msgIds;
      working   — its id is in msgIds (line 81); the Period test is still to come.
    The sequences spawned, rejected, recorded and finished are the history: every task
    ever spawned, those refused at the capacity check, those whose id was appended to
    msgIds, and those that returned after admission (reported or recovered). */
module Workers {
  import opened Messages
  import opened Consumption

  datatype ConsumerState = ConsumerState(
    batchSize: int,
    seenMsgs: set<string>,
    workerCount: int,
    msgIds: seq<string>,
    reports: seq<string>,      // ids handed to sendReport, in order
    done: nat,                 // wg.Done calls so far
    exitCode: Option<int>,     // Some(1) once os.Exit(1) or log.Fatal has ended the process
    pending: seq<Message>,
    refusing: seq<Message>,
    admitted: seq<Message>,
    working: seq<Message>,
    spawned: seq<Message>,
    rejected: seq<Message>,
    recorded: seq<Message>,
    finished: seq<Message>)

  /** The state right after main has drawn the batch size (cmd/client/main.go:20-27, 35). */
  function Initial(draw: nat): (s: ConsumerState)
    requires draw < BatchDraws
    ensures 2 <= s.batchSize <= 10 && s.seenMsgs == {} && s.workerCount == 0
    ensures s.msgIds == [] && s.reports == [] && s.done == 0 && s.exitCode == None
  {
    ConsumerState(BatchSize(draw), {}, 0, [], [], 0, None, [], [], [], [], [], [], [], [])
  }

  /** The process still runs: nothing has called os.Exit or log.Fatal, and wg.Wait in main
      has not yet seen batchSize calls of wg.Done (cmd/client/main.go:35-37). Once either
      happens the process is over and no goroutine takes another step. */
  predicate Running(s: ConsumerState)
  {
    s.exitCode.None? && s.done < s.batchSize
  }

  /** The task at position k taken out of a list of tasks, the others keeping their order. */
  function Remove(q: seq<Message>, k: nat): (r: seq<Message>)
    requires k < |q|
    ensures |r| == |q| - 1
    ensures multiset(r) + multiset{q[k]} == multiset(q)
  {
    assert q == q[..k] + [q[k]] + q[k + 1..];
    q[..k] + q[k + 1..]
  }

  // ---------------------------------------------------------------------------------
  // The steps

  /** One turn of the receive loop (cmd/client/main.go:42-60). A payload that does not
      unmarshal is log.Fatal, which ends the process. An id already in seenMsgs is skipped.
      A new id is put into seenMsgs, under the mutex, before its task is spawned. */
  function Receive(s: ConsumerState, w: Wire): (r: ConsumerState)
    ensures w.Malformed? ==> r == s.(exitCode := Some(1))
    ensures w.Data? ==> r.seenMsgs == s.seenMsgs + {w.msg.id} && r.exitCode == s.exitCode
    ensures w.Data? ==> r.pending == s.pending + Spawned(s.seenMsgs, [w.msg])
    ensures s.seenMsgs <= r.seenMsgs
  {
    match w
    case Malformed => s.(exitCode := Some(1))
    case Data(m) =>
      assert [m][..0] == [];
      if m.id in s.seenMsgs then s
      else s.(seenMsgs := s.seenMsgs + {m.id}, pending := s.pending + [m], spawned := s.spawned + [m])
  }

  /** The atomic increment of workerCount and the comparison of the value it returns
      with batchSize (cmd/client/main.go:72). The decision is taken on the value this
      task's own increment returned, whatever other tasks do afterwards. */
  function Start(s: ConsumerState, k: nat): (r: ConsumerState)
    requires k < |s.pending|
    ensures r.workerCount == s.workerCount + 1 && r.pending == Remove(s.pending, k)
    ensures s.workerCount + 1 <= s.batchSize ==> r.admitted == s.admitted + [s.pending[k]] && r.refusing == s.refusing
    ensures s.workerCount + 1 > s.batchSize ==> r.refusing == s.refusing + [s.pending[k]] && r.admitted == s.admitted
    ensures r.msgIds == s.msgIds && r.reports == s.reports && r.done == s.done && r.exitCode == s.exitCode
  {
    var m := s.pending[k];
    var t := s.(workerCount := s.workerCount + 1, pending := Remove(s.pending, k));
    if s.workerCount + 1 > s.batchSize then t.(refusing := s.refusing + [m])
    else t.(admitted := s.admitted + [m])
  }

  /** A refused task gives its slot back and returns (cmd/client/main.go:73-75); the
      deferred wg.Done of line 65 runs. Nothing is recorded and nothing is reported. */
  function Refuse(s: ConsumerState, k: nat): (r: ConsumerState)
    requires k < |s.refusing|
    ensures r.workerCount == s.workerCount - 1 && r.done == s.done + 1
    ensures r.msgIds == s.msgIds && r.reports == s.reports && r.seenMsgs == s.seenMsgs
  {
    var m := s.refusing[k];
    s.(workerCount := s.workerCount - 1, done := s.done + 1,
       refusing := Remove(s.refusing, k), rejected := s.rejected + [m])
  }

  /** An admitted task appends its id to msgIds under the mutex (cmd/client/main.go:79-83). */
  function Record(s: ConsumerState, k: nat): (r: ConsumerState)
    requires k < |s.admitted|
    ensures r.msgIds == s.msgIds + [s.admitted[k].id] && r.working == s.working + [s.admitted[k]]
    ensures r.workerCount == s.workerCount && r.done == s.done && r.reports == s.reports
    ensures r.exitCode == s.exitCode
  {
    var m := s.admitted[k];
    s.(msgIds := s.msgIds + [m.id], admitted := Remove(s.admitted, k),
       working := s.working + [m], recorded := s.recorded + [m])
  }

  /** The end of an admitted task (cmd/client/main.go:85-94 and the deferred calls at
      65-77). A Period above 900 is os.Exit(1): the process ends and no deferred call runs.
      A Period in (800, 900] panics; the panic is recovered by the deferred function of
      line 66, and the deferred decrement (77) and wg.Done (65) run. Otherwise the task
      sleeps for its Period (not modelled), reports its id, and the deferred calls run. */
  function Finish(s: ConsumerState, k: nat): (r: ConsumerState)
    requires k < |s.working|
    ensures Classify(s.working[k].period) == Fatal ==> r == s.(exitCode := Some(1))
    ensures Classify(s.working[k].period) != Fatal ==>
              r.workerCount == s.workerCount - 1 && r.done == s.done + 1 && r.exitCode == s.exitCode
    ensures Classify(s.working[k].period) != Fatal ==>
              r.reports == s.reports + (if Classify(s.working[k].period) == Completed then [s.working[k].id] else [])
    ensures r.msgIds == s.msgIds && r.seenMsgs == s.seenMsgs
  {
    var m := s.working[k];
    var released := s.(workerCount := s.workerCount - 1, done := s.done + 1,
                       working := Remove(s.working, k), finished := s.finished + [m]);
    match Classify(m.period)
    case Fatal => s.(exitCode := Some(1))
    case LocalFault => released
    case Completed => released.(reports := s.reports + [m.id])
  }

  /** A step of some goroutine: the receive loop's next event, or the next action of the
      task at a given position of its list. */
  datatype Step = Deliver(w: Wire) | StartAt(k: nat) | RefuseAt(k: nat) | RecordAt(k: nat) | FinishAt(k: nat)

  /** The process runs and the step's task exists. */
  predicate Enabled(s: ConsumerState, step: Step)
  {
    Running(s) &&
    match step
    case Deliver(_) => true
    case StartAt(k) => k < |s.pending|
    case RefuseAt(k) => k < |s.refusing|
    case RecordAt(k) => k < |s.admitted|
    case FinishAt(k) => k < |s.working|
  }

  function Next(s: ConsumerState, step: Step): (r: ConsumerState)
    requires Enabled(s, step)
    ensures s.seenMsgs <= r.seenMsgs && r.batchSize == s.batchSize
  {
    match step
    case Deliver(w) => Receive(s, w)
    case StartAt(k) => Start(s, k)
    case RefuseAt(k) => Refuse(s, k)
    case RecordAt(k) => Record(s, k)
    case FinishAt(k) => Finish(s, k)
  }

  /** A schedule: the enabled steps are taken in order, the others are skipped. */
  function Run(s: ConsumerState, steps: seq<Step>): (r: ConsumerState)
    decreases |steps|
    ensures s.seenMsgs <= r.seenMsgs && r.batchSize == s.batchSize
  {
    if steps == [] then s
    else Run(if Enabled(s, steps[0]) then Next(s, steps[0]) else s, steps[1..])
  }

  // ---------------------------------------------------------------------------------
  // The invariant

  /** seenMsgs holds exactly the ids of the spawned tasks, and no id spawned twice. */
  ghost predicate DedupOk(s: ConsumerState)
  {
    s.seenMsgs == IdSet(s.spawned) && DistinctIds(s.spawned)
  }

  /** Every spawned task is in exactly one place, and every task whose id was recorded is
      still working or has finished. */
  ghost predicate TasksOk(s: ConsumerState)
  {
    && multiset(s.spawned)
       == multiset(s.pending) + multiset(s.refusing) + multiset(s.rejected) + multiset(s.admitted) + multiset(s.recorded)
    && multiset(s.recorded) == multiset(s.working) + multiset(s.finished)
  }

  /** workerCount counts the tasks that incremented it and have not decremented it yet;
      the admitted tasks among them never exceed batchSize. */
  predicate CounterOk(s: ConsumerState)
  {
    s.workerCount == |s.refusing| + |s.admitted| + |s.working| && |s.admitted| + |s.working| <= s.batchSize
  }

  /** msgIds lists the recorded ids in order; wg.Done was called once per task that
      returned; the reports are those of the finished tasks that completed, in order. */
  predicate LogOk(s: ConsumerState)
  {
    && s.msgIds == Ids(s.recorded)
    && s.done == |s.rejected| + |s.finished| <= s.batchSize
    && s.reports == Ids(Acked(s.finished))
  }

  ghost predicate Inv(s: ConsumerState)
  {
    2 <= s.batchSize <= 10 && DedupOk(s) && TasksOk(s) && CounterOk(s) && LogOk(s)
  }

  lemma InitialInv(draw: nat)
    requires draw < BatchDraws
    ensures Inv(Initial(draw)) && Running(Initial(draw))
  {
    assert IdSet([]) == {};
  }

  lemma ReceiveKeepsInv(s: ConsumerState, w: Wire)
    requires Inv(s) && Running(s)
    ensures Inv(Receive(s, w))
  {
    if w.Data? && w.msg.id !in s.seenMsgs {
      var m := w.msg;
      IdSetAppend(s.spawned, [m]);
      assert IdSet([m]) == {m.id};
      forall i | 0 <= i < |s.spawned| ensures s.spawned[i].id != m.id {
        assert s.spawned[i] in s.spawned;
      }
    }
  }

  lemma StartKeepsInv(s: ConsumerState, k: nat)
    requires Inv(s) && Running(s) && k < |s.pending|
    ensures Inv(Start(s, k))
  {
  }

  lemma RefuseKeepsInv(s: ConsumerState, k: nat)
    requires Inv(s) && Running(s) && k < |s.refusing|
    ensures Inv(Refuse(s, k))
  {
  }

  lemma RecordKeepsInv(s: ConsumerState, k: nat)
    requires Inv(s) && Running(s) && k < |s.admitted|
    ensures Inv(Record(s, k))
  {
    IdsSnoc(s.recorded, s.admitted[k]);
  }

  lemma FinishKeepsInv(s: ConsumerState, k: nat)
    requires Inv(s) && Running(s) && k < |s.working|
    ensures Inv(Finish(s, k))
  {
    var m := s.working[k];
    if Classify(m.period) != Fatal {
      var r := Finish(s, k);
      assert r.working == Remove(s.working, k) && r.finished == s.finished + [m];
      assert r.(workerCount := s.workerCount, done := s.done, reports := s.reports, working := s.working,
                finished := s.finished) == s;
      assert TasksOk(r);
      assert CounterOk(r);
      AckedSnoc(s.finished, m);
      IdsSnoc(Acked(s.finished), m);
      assert LogOk(r);
    }
  }

  lemma NextKeepsInv(s: ConsumerState, step: Step)
    requires Inv(s) && Enabled(s, step)
    ensures Inv(Next(s, step))
  {
    match step
    case Deliver(w) => ReceiveKeepsInv(s, w);
    case StartAt(k) => StartKeepsInv(s, k);
    case RefuseAt(k) => RefuseKeepsInv(s, k);
    case RecordAt(k) => RecordKeepsInv(s, k);
    case FinishAt(k) => FinishKeepsInv(s, k);
  }

  // ---------------------------------------------------------------------------------
  // Properties of every schedule

  /** Capacity bound: whatever the schedule, the invariant holds, so the tasks admitted
      and not yet finished never exceed batchSize, and workerCount is exactly the number
      of tasks holding an increment. */
  lemma {:induction false} RunKeepsInv(s: ConsumerState, steps: seq<Step>)
    requires Inv(s)
    ensures Inv(Run(s, steps))
    decreases |steps|
  {
    if steps != [] {
      var t := if Enabled(s, steps[0]) then Next(s, steps[0]) else s;
      if Enabled(s, steps[0]) {
        NextKeepsInv(s, steps[0]);
      }
      assert Inv(t);
      RunKeepsInv(t, steps[1..]);
      assert Run(s, steps) == Run(t, steps[1..]);
    }
  }

  /** From the start of main, every schedule keeps the capacity bound. */
  lemma CapacityBound(draw: nat, steps: seq<Step>)
    requires draw < BatchDraws
    ensures |Run(Initial(draw), steps).admitted| + |Run(Initial(draw), steps).working| <= Run(Initial(draw), steps).batchSize
    ensures 2 <= Run(Initial(draw), steps).batchSize <= 10
  {
    InitialInv(draw);
    RunKeepsInv(Initial(draw), steps);
  }

  /** Three fresh messages delivered to a subscriber with batchSize 2. */
  function ThreeDelivered(): ConsumerState
  {
    Receive(Receive(Receive(Initial(0), Data(Message("a", 0))), Data(Message("b", 0))), Data(Message("c", 0)))
  }

  /** workerCount itself is not bounded by batchSize: a refused task holds its increment
      until the decrement of line 74. With batchSize 2 and three fresh messages, three
      increments in a row leave the counter at 3, one task refusing, in a state the
      invariant admits. */
  lemma CounterCanExceedBatch()
    ensures |ThreeDelivered().pending| == 3
    ensures var t := Start(Start(Start(ThreeDelivered(), 0), 0), 0);
      Inv(t) && t.batchSize == 2 && t.workerCount == 3 && |t.refusing| == 1
  {
    var s0 := Initial(0);
    InitialInv(0);
    var s1 := Receive(s0, Data(Message("a", 0)));
    ReceiveKeepsInv(s0, Data(Message("a", 0)));
    var s2 := Receive(s1, Data(Message("b", 0)));
    ReceiveKeepsInv(s1, Data(Message("b", 0)));
    var s3 := Receive(s2, Data(Message("c", 0)));
    ReceiveKeepsInv(s2, Data(Message("c", 0)));
    ThreeStarts(s3);
    StartKeepsInv(s3, 0);
    StartKeepsInv(Start(s3, 0), 0);
    StartKeepsInv(Start(Start(s3, 0), 0), 0);
  }

  /** The receive turns and the three increments of CounterCanExceedBatch, step by step. */
  lemma ThreeStarts(s3: ConsumerState)
    requires s3 == ThreeDelivered()
    ensures Running(s3) && s3.batchSize == 2 && s3.workerCount == 0 && |s3.pending| == 3
    ensures Running(Start(s3, 0)) && |Start(s3, 0).pending| == 2
    ensures Running(Start(Start(s3, 0), 0)) && |Start(Start(s3, 0), 0).pending| == 1
    ensures var t := Start(Start(Start(s3, 0), 0), 0);
      t.batchSize == 2 && t.workerCount == 3 && |t.refusing| == 1
  {
    var s0 := Initial(0);
    var s1 := Receive(s0, Data(Message("a", 0)));
    assert s1.pending == [Message("a", 0)] && s1.seenMsgs == {"a"};
    var s2 := Receive(s1, Data(Message("b", 0)));
    assert |s2.pending| == 2 && s2.seenMsgs == {"a", "b"};
    assert |s3.pending| == 3;
  }

  /** Nothing is ever forgotten: the history lists (tasks spawned, refused, recorded,
      finished), msgIds and the reports are only extended. */
  lemma {:induction false} RunOnlyGrows(s: ConsumerState, steps: seq<Step>)
    decreases |steps|
    ensures s.spawned <= Run(s, steps).spawned && s.rejected <= Run(s, steps).rejected
    ensures s.recorded <= Run(s, steps).recorded && s.finished <= Run(s, steps).finished
    ensures s.msgIds <= Run(s, steps).msgIds && s.reports <= Run(s, steps).reports
  {
    if steps != [] {
      var t := if Enabled(s, steps[0]) then Next(s, steps[0]) else s;
      RunOnlyGrows(t, steps[1..]);
    }
  }

  /** In a list of distinct ids, two different messages have different ids. */
  lemma DistinctMembers(q: seq<Message>, a: Message, b: Message)
    requires DistinctIds(q) && a in q && b in q && a != b
    ensures a.id != b.id
  {
    var i :| 0 <= i < |q| && q[i] == a;
    var j :| 0 <= j < |q| && q[j] == b;
    assert i != j;
    if i < j {
      assert q[i].id != q[j].id;
    } else {
      assert q[j].id != q[i].id;
    }
  }

  /** In a list of distinct ids, no message occurs twice. */
  lemma {:induction false} DistinctAtMostOnce(q: seq<Message>, x: Message)
    requires DistinctIds(q)
    ensures multiset(q)[x] <= 1
  {
    if q != [] {
      var init, last := q[..|q| - 1], q[|q| - 1];
      assert q == init + [last];
      assert DistinctIds(init) by {
        forall i, j | 0 <= i < j < |init| ensures init[i].id != init[j].id {
          assert q[i].id != q[j].id;
        }
      }
      DistinctAtMostOnce(init, x);
      if x == last {
        forall a | 0 <= a < |init| ensures init[a] != x {
          assert q[a].id != q[|q| - 1].id;
        }
        assert multiset(init)[x] == 0;
      }
    }
  }

  /** A task refused for capacity never has its id recorded: no recorded task, the same
      or another, carries its id. */
  lemma RejectedNeverRecorded(s: ConsumerState, m: Message)
    requires TasksOk(s) && DistinctIds(s.spawned) && s.msgIds == Ids(s.recorded) && m in s.rejected
    ensures m in s.spawned && m.id !in s.msgIds
  {
    assert multiset(s.spawned)[m] >= multiset(s.rejected)[m] + multiset(s.recorded)[m];
    DistinctAtMostOnce(s.spawned, m);
    assert multiset(s.recorded)[m] == 0;
    forall i | 0 <= i < |s.msgIds| ensures s.msgIds[i] != m.id {
      var m' := s.recorded[i];
      assert m' in multiset(s.recorded);
      assert multiset(s.spawned)[m'] >= multiset(s.recorded)[m'];
      assert m' in multiset(s.spawned);
      DistinctMembers(s.spawned, m, m');
    }
  }

  /** An id refused for capacity stays unprocessed in every later state: no schedule
      records it, and a redelivery of it spawns nothing. */
  lemma RejectedStaysUnprocessed(s: ConsumerState, m: Message, steps: seq<Step>)
    requires Inv(s) && m in s.rejected
    ensures m.id !in Run(s, steps).msgIds
    ensures m.id in Run(s, steps).seenMsgs
  {
    RunKeepsInv(s, steps);
    RunOnlyGrows(s, steps);
    var t := Run(s, steps);
    var i :| 0 <= i < |s.rejected| && s.rejected[i] == m;
    assert t.rejected[i] == m;
    RejectedNeverRecorded(t, m);
    assert m.id in IdSet(t.spawned);
  }

  // ---------------------------------------------------------------------------------
  // A task run from start to end with nothing interleaved

  /** processMessage (cmd/client/main.go:64-95) for the pending task at position k, its
      steps taken back to back. Every call, admitted or refused, leaves workerCount where
      it was and calls wg.Done exactly once, unless it ends the process. It is admitted
      exactly when the increment stays within batchSize; only then is its id appended to
      msgIds; it reports its id exactly when its Period is at most 800; a Period above 900
      ends the process. */
  function Solo(s: ConsumerState, k: nat): (r: ConsumerState)
    requires Running(s) && k < |s.pending|
    ensures var m, admitted := s.pending[k], s.workerCount + 1 <= s.batchSize;
      && (r.exitCode == Some(1) <==> admitted && Classify(m.period) == Fatal)
      && (r.exitCode.None? ==> r.workerCount == s.workerCount && r.done == s.done + 1)
      && r.msgIds == s.msgIds + (if admitted then [m.id] else [])
      && r.reports == s.reports + (if admitted && Classify(m.period) == Completed then [m.id] else [])
  {
    var t := Start(s, k);
    if s.workerCount + 1 > s.batchSize then Refuse(t, |t.refusing| - 1)
    else
      var u := Record(t, |t.admitted| - 1);
      assert u.working[|u.working| - 1] == s.pending[k];
      Finish(u, |u.working| - 1)
  }

  /** Running one task from start to end keeps the invariant. */
  lemma SoloKeepsInv(s: ConsumerState, k: nat)
    requires Inv(s) && Running(s) && k < |s.pending|
    ensures Inv(Solo(s, k))
  {
    var t := Start(s, k);
    StartKeepsInv(s, k);
    if s.workerCount + 1 > s.batchSize {
      RefuseKeepsInv(t, |t.refusing| - 1);
    } else {
      AdmittedKeepsInv(t);
    }
  }

  /** The admitted path of a task run alone, from the end of its increment on. */
  lemma AdmittedKeepsInv(t: ConsumerState)
    requires Inv(t) && Running(t) && |t.admitted| > 0
    ensures var u := Record(t, |t.admitted| - 1); Inv(Finish(u, |u.working| - 1))
  {
    RecordKeepsInv(t, |t.admitted| - 1);
    var u := Record(t, |t.admitted| - 1);
    FinishKeepsInv(u, |u.working| - 1);
  }

  // ---------------------------------------------------------------------------------
  // The receive loop over a finite stream, with no task running in between

  /** The deliveries of a run of well-formed events, one after another. */
  function Deliveries(s: ConsumerState, msgs: seq<Message>): (r: ConsumerState)
    ensures r.seenMsgs == s.seenMsgs + IdSet(msgs) && r.exitCode == s.exitCode
    ensures r.workerCount == s.workerCount && r.msgIds == s.msgIds
    ensures r.done == s.done && r.reports == s.reports && r.batchSize == s.batchSize
  {
    if msgs == [] then
      assert IdSet(msgs) == {};
      s
    else
      var init, m := msgs[..|msgs| - 1], msgs[|msgs| - 1];
      assert msgs == init + [m];
      IdSetAppend(init, [m]);
      assert IdSet([m]) == {m.id};
      Receive(Deliveries(s, init), Data(m))
  }

  /** receiveMessage (cmd/client/main.go:40-62) over a finite stream: the leading
      well-formed events are delivered, and the first malformed one ends the process. */
  function ReceiveAll(s: ConsumerState, events: seq<Wire>): (r: ConsumerState)
    ensures r.exitCode == if Readable(events) < |events| then Some(1) else s.exitCode
    ensures r.seenMsgs == s.seenMsgs + IdSet(Payloads(events[..Readable(events)]))
    ensures r.workerCount == s.workerCount && r.msgIds == s.msgIds
    ensures r.done == s.done && r.reports == s.reports && r.batchSize == s.batchSize
  {
    var k := Readable(events);
    var t := Deliveries(s, Payloads(events[..k]));
    if k < |events| then t.(exitCode := Some(1)) else t
  }

  /** Deduplication over a stream: the tasks spawned are exactly those the reference
      definition Spawned picks (the first delivery of each id not seen before, in order),
      and seenMsgs gains exactly the ids delivered. */
  lemma {:induction false} DeliveriesSpawn(s: ConsumerState, msgs: seq<Message>)
    ensures Deliveries(s, msgs).pending == s.pending + Spawned(s.seenMsgs, msgs)
  {
    if msgs != [] {
      var init, m := msgs[..|msgs| - 1], msgs[|msgs| - 1];
      var d := Deliveries(s, init);
      DeliveriesSpawn(s, init);
      assert Deliveries(s, msgs) == Receive(d, Data(m));
      assert d.seenMsgs == s.seenMsgs + IdSet(init);
      assert Spawned(s.seenMsgs, msgs) == Spawned(s.seenMsgs, init) + (if m.id in d.seenMsgs then [] else [m]);
    }
  }

  /** The receive loop over a stream: the tasks spawned are exactly those of the reference
      definition Spawned over the leading well-formed events. */
  lemma ReceiveAllSpawns(s: ConsumerState, events: seq<Wire>)
    ensures ReceiveAll(s, events).pending == s.pending + Spawned(s.seenMsgs, Payloads(events[..Readable(events)]))
  {
    DeliveriesSpawn(s, Payloads(events[..Readable(events)]));
  }

  /** The receive loop keeps the invariant. */
  lemma ReceiveAllKeepsInv(s: ConsumerState, events: seq<Wire>)
    requires Inv(s) && Running(s)
    ensures Inv(ReceiveAll(s, events))
  {
    var ms := Payloads(events[..Readable(events)]);
    DeliveriesKeepInv(s, ms);
    ReceiveKeepsInv(Deliveries(s, ms), Malformed);
  }

  lemma {:induction false} DeliveriesKeepInv(s: ConsumerState, msgs: seq<Message>)
    requires Inv(s) && Running(s)
    ensures Inv(Deliveries(s, msgs)) && Running(Deliveries(s, msgs))
  {
    if msgs != [] {
      var init := msgs[..|msgs| - 1];
      DeliveriesKeepInv(s, init);
      ReceiveKeepsInv(Deliveries(s, init), Data(msgs[|msgs| - 1]));
    }
  }

  /** Delivering a stream a second time spawns no further task and changes nothing. */
  lemma {:induction false} RedeliveryChangesNothing(s: ConsumerState, msgs: seq<Message>)
    ensures Deliveries(Deliveries(s, msgs), msgs) == Deliveries(s, msgs)
  {
    var t := Deliveries(s, msgs);
    DeliveriesSpawn(s, msgs);
    assert IdSet(msgs) <= t.seenMsgs;
    RedeliveryFixed(t, msgs, |msgs|);
    assert msgs[..|msgs|] == msgs;
  }

  /** Delivering messages whose ids are all seen leaves the state as it was. */
  lemma {:induction false} RedeliveryFixed(t: ConsumerState, msgs: seq<Message>, n: nat)
    requires n <= |msgs| && IdSet(msgs) <= t.seenMsgs
    ensures Deliveries(t, msgs[..n]) == t
  {
    if n > 0 {
      RedeliveryFixed(t, msgs, n - 1);
      assert msgs[..n][..n - 1] == msgs[..n - 1];
      assert msgs[n - 1] in msgs;
    }
  }
}
