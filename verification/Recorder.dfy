/** The recorders and their shared worker pool as a state machine over its atomic steps: a put, a
    reset and a worker's run each hold one recorder's lock from start to end; a waiting put or
    reset is one whose step is not enabled yet. */
module Recorder {
  import opened AudioRing

  // The ring keeps one frame fewer than it has slots.
  // `accepted`, `delivered` and `failed` record what happened; no step looks at them.
  datatype Port = Port(encoding: bool, cycle: nat, frameCount: nat, ring: seq<Frame>, keep: nat, bufferSize: nat,
                       accepted: seq<Frame>, delivered: seq<Frame>, failed: bool)

  datatype Worker = Idle | Busy(port: nat) | Gone

  datatype System = System(ports: seq<Port>, queue: seq<nat>, workers: seq<Worker>, stopped: bool, faulted: bool)

  datatype Event =
    | Put(port: nat, timestamp: nat, pcm: seq<nat>)
    | Pop(worker: nat)
    | Run(worker: nat)
    | Reset(port: nat)
    | Heartbeat(port: nat)
    | AddWorkers(count: nat)
    | Stop
    | Exit(worker: nat)

  predicate Enabled(s: System, e: Event) {
    && !s.faulted
    && match e
       case Put(p, _, _) => p < |s.ports| && !s.ports[p].encoding
       case Pop(w) => w < |s.workers| && s.workers[w].Idle? && s.queue != []
       case Run(w) => w < |s.workers| && s.workers[w].Busy? && s.workers[w].port < |s.ports|
       case Reset(p) => p < |s.ports| && !s.ports[p].encoding
       case Heartbeat(p) => p < |s.ports|
       case AddWorkers(_) => true
       case Stop => true
       case Exit(w) => w < |s.workers| && s.workers[w].Idle? && s.stopped && s.queue == []
  }

  // A frame of the wrong size leaves the flag set and reports an error.  One too large for a slot is
  // not pushed, but its task is queued all the same.  Once the pool is stopped the frame is pushed,
  // but queueing throws past the handler and again leaves the flag set.
  function PortAfterPut(q: Port, timestamp: nat, pcm: seq<nat>, stopped: bool): Port {
    var f := Frame(q.cycle, timestamp, q.frameCount, pcm);
    var pushed := if |pcm| > MAX_PCM_BYTES then q.ring else Latest(q.ring + [f], q.keep);
    if |pcm| != q.bufferSize then q.(encoding := true, failed := true)
    else if stopped then q.(encoding := true, failed := true, ring := pushed)
    else if |pcm| > MAX_PCM_BYTES then q.(encoding := true)
    else q.(encoding := true, ring := pushed, accepted := q.accepted + [f])
  }

  function PortAfterRun(q: Port): Port
    requires q.ring != []
  {
    q.(encoding := false, frameCount := q.frameCount + 1, delivered := q.delivered + [q.ring[|q.ring| - 1]])
  }

  function PortAfterReset(q: Port): Port {
    q.(cycle := q.cycle + 1, frameCount := 0, ring := [])
  }

  // A put that queues a task.
  predicate Queues(s: System, p: nat, pcm: seq<nat>)
    requires p < |s.ports|
  {
    |pcm| == s.ports[p].bufferSize && !s.stopped
  }

  function Step(s: System, e: Event): System
    requires Enabled(s, e)
  {
    match e
    case Put(p, timestamp, pcm) =>
      s.(ports := s.ports[p := PortAfterPut(s.ports[p], timestamp, pcm, s.stopped)],
         queue := if Queues(s, p, pcm) then s.queue + [p] else s.queue)
    case Pop(w) =>
      s.(queue := s.queue[1..], workers := s.workers[w := Busy(s.queue[0])])
    case Run(w) =>
      var p := s.workers[w].port;
      if s.ports[p].ring == [] then s.(faulted := true)
      else s.(ports := s.ports[p := PortAfterRun(s.ports[p])], workers := s.workers[w := Idle])
    case Reset(p) =>
      s.(ports := s.ports[p := PortAfterReset(s.ports[p])])
    case Heartbeat(_) => s
    case AddWorkers(n) => s.(workers := s.workers + seq(n, _ => Idle))
    case Stop => s.(stopped := true)
    case Exit(w) => s.(workers := s.workers[w := Gone])
  }

  // Recorders not encoding, a running pool with an empty queue, any number of idle workers.
  predicate Initial(s: System) {
    && !s.faulted && !s.stopped && s.queue == [] && (forall w :: 0 <= w < |s.workers| ==> s.workers[w] == Idle)
    && forall p :: 0 <= p < |s.ports| ==>
      var q := s.ports[p];
      !q.encoding && !q.failed && q.frameCount == 0 && q.ring == [] && q.keep >= 1 && q.accepted == [] && q.delivered == []
  }

  function After(s: System, run: seq<Event>): System
    requires Possible(s, run)
    decreases |run|, 1
  {
    if run == [] then s else Step(After(s, run[..|run| - 1]), run[|run| - 1])
  }

  // Each step was enabled when it was taken.
  predicate Possible(s: System, run: seq<Event>)
    decreases |run|, 0
  {
    run == [] || (Possible(s, run[..|run| - 1]) && Enabled(After(s, run[..|run| - 1]), run[|run| - 1]))
  }

  // ----- the invariant -----

  // Tasks of recorder p in the queue and in the hands of workers.
  function Outstanding(s: System, p: nat): nat {
    multiset(s.queue)[p] + multiset(s.workers)[Busy(p)]
  }

  function Last(a: seq<Frame>): Frame
    requires a != []
  {
    a[|a| - 1]
  }

  // The number the next frame of a cycle gets.
  function NextNumber(a: seq<Frame>, cycle: nat): nat {
    if a != [] && Last(a).cycle == cycle then Last(a).frameNum + 1 else 0
  }

  // Cycles never go back, and within a cycle the numbers are 0, 1, 2, ...
  predicate Numbered(a: seq<Frame>) {
    && (forall i :: 0 <= i < |a| ==> a[i].frameNum == NextNumber(a[..i], a[i].cycle))
    && (forall i, j :: 0 <= i < j < |a| ==> a[i].cycle <= a[j].cycle)
  }

  // The recorder waits for its one task.
  predicate Waits(q: Port) { q.encoding && !q.failed }

  predicate Fits(q: Port) { q.bufferSize <= MAX_PCM_BYTES }

  predicate PortOk(q: Port) {
    && q.keep >= 1 && (q.failed ==> q.encoding)
    && Numbered(q.accepted) && (forall i :: 0 <= i < |q.accepted| ==> q.accepted[i].cycle <= q.cycle)
    && (!Fits(q) ==> q.accepted == q.delivered == q.ring == [])
    && (Fits(q) && Waits(q) ==>
          && q.accepted != [] && q.delivered == q.accepted[..|q.accepted| - 1]
          && q.ring != [] && Last(q.ring) == Last(q.accepted)
          && Last(q.accepted).cycle == q.cycle && Last(q.accepted).frameNum == q.frameCount)
    && (!Waits(q) ==> q.delivered == q.accepted && q.frameCount == NextNumber(q.accepted, q.cycle))
  }

  predicate TasksInRange(s: System) {
    && (forall i :: 0 <= i < |s.queue| ==> s.queue[i] < |s.ports|)
    && (forall w :: 0 <= w < |s.workers| && s.workers[w].Busy? ==> s.workers[w].port < |s.ports|)
  }

  predicate TasksOk(s: System) {
    && TasksInRange(s)
    && (forall p :: 0 <= p < |s.ports| ==> Outstanding(s, p) == if Waits(s.ports[p]) then 1 else 0)
  }

  predicate Invariant(s: System) {
    !s.faulted ==> TasksOk(s) && forall p :: 0 <= p < |s.ports| ==> PortOk(s.ports[p])
  }

  lemma AcceptedNumbered(a: seq<Frame>, f: Frame)
    requires Numbered(a) && f.frameNum == NextNumber(a, f.cycle) && forall i :: 0 <= i < |a| ==> a[i].cycle <= f.cycle
    ensures Numbered(a + [f])
  {
    var b := a + [f];
    forall i | 0 <= i < |b| ensures b[i].frameNum == NextNumber(b[..i], b[i].cycle) {
      assert b[..i] == a[..i];
      if i == |a| { assert a[..i] == a; }
    }
  }

  lemma LastOfLatest(ring: seq<Frame>, f: Frame, keep: nat)
    requires keep >= 1
    ensures Latest(ring + [f], keep) != [] && Last(Latest(ring + [f], keep)) == f
  {}

  lemma AcceptKeepsPort(q: Port, f: Frame)
    requires PortOk(q) && !q.encoding && Fits(q) && f.cycle == q.cycle && f.frameNum == q.frameCount
    ensures PortOk(q.(encoding := true, ring := Latest(q.ring + [f], q.keep), accepted := q.accepted + [f]))
  {
    LastOfLatest(q.ring, f, q.keep);
    AcceptedNumbered(q.accepted, f);
    assert (q.accepted + [f])[..|q.accepted|] == q.accepted;
  }

  lemma PutKeepsPort(q: Port, timestamp: nat, pcm: seq<nat>, stopped: bool)
    requires PortOk(q) && !q.encoding
    ensures PortOk(PortAfterPut(q, timestamp, pcm, stopped))
    ensures Waits(PortAfterPut(q, timestamp, pcm, stopped)) <==> |pcm| == q.bufferSize && !stopped
  {
    if |pcm| == q.bufferSize && |pcm| <= MAX_PCM_BYTES && !stopped {
      AcceptKeepsPort(q, Frame(q.cycle, timestamp, q.frameCount, pcm));
    }
  }

  lemma RunKeepsPort(q: Port)
    requires PortOk(q) && Waits(q) && Fits(q)
    ensures q.ring != [] && PortOk(PortAfterRun(q)) && !Waits(PortAfterRun(q))
  {
    assert q.accepted == q.accepted[..|q.accepted| - 1] + [Last(q.accepted)];
  }

  lemma ResetKeepsPort(q: Port)
    requires PortOk(q) && !q.encoding
    ensures PortOk(PortAfterReset(q)) && !Waits(PortAfterReset(q))
  {}

  // ----- every step keeps it -----

  // A step that changes one recorder and its count of tasks together.
  lemma OnePortChanges(s: System, t: System, p: nat)
    requires Invariant(s) && !s.faulted && p < |s.ports| == |t.ports| && TasksInRange(t) && PortOk(t.ports[p])
    requires forall r :: 0 <= r < |s.ports| && r != p ==> t.ports[r] == s.ports[r] && Outstanding(t, r) == Outstanding(s, r)
    requires Outstanding(t, p) == if Waits(t.ports[p]) then 1 else 0
    ensures Invariant(t)
  {
    forall r | 0 <= r < |t.ports| ensures Outstanding(t, r) == if Waits(t.ports[r]) then 1 else 0 {
      assert Outstanding(s, r) == if Waits(s.ports[r]) then 1 else 0;
    }
  }

  lemma PutCounts(s: System, p: nat, timestamp: nat, pcm: seq<nat>, r: nat)
    requires Enabled(s, Put(p, timestamp, pcm)) && r < |s.ports|
    ensures Outstanding(Step(s, Put(p, timestamp, pcm)), r)
         == Outstanding(s, r) + if r == p && Queues(s, p, pcm) then 1 else 0
  {}

  lemma PutKeepsInvariant(s: System, p: nat, timestamp: nat, pcm: seq<nat>)
    requires Invariant(s) && Enabled(s, Put(p, timestamp, pcm))
    ensures Invariant(Step(s, Put(p, timestamp, pcm)))
  {
    var t := Step(s, Put(p, timestamp, pcm));
    PutKeepsPort(s.ports[p], timestamp, pcm, s.stopped);
    forall r | 0 <= r < |t.ports| ensures Outstanding(t, r) == Outstanding(s, r) + if r == p && Queues(s, p, pcm) then 1 else 0 {
      PutCounts(s, p, timestamp, pcm, r);
    }
    assert Outstanding(s, p) == 0;
    OnePortChanges(s, t, p);
  }

  lemma PopKeepsInvariant(s: System, w: nat)
    requires Invariant(s) && Enabled(s, Pop(w))
    ensures Invariant(Step(s, Pop(w)))
  {
    var t := Step(s, Pop(w));
    assert s.queue == [s.queue[0]] + s.queue[1..];
    forall r | 0 <= r < |t.ports| ensures Outstanding(t, r) == Outstanding(s, r) {}
  }

  // A task in a worker's hands belongs to a recorder that waits for it.
  lemma HeldTaskWaits(s: System, w: nat)
    requires Invariant(s) && Enabled(s, Run(w))
    ensures Waits(s.ports[s.workers[w].port])
  {
    var p := s.workers[w].port;
    assert Busy(p) in multiset(s.workers);
    assert Outstanding(s, p) >= 1;
  }

  lemma RunIs(s: System, w: nat)
    requires Enabled(s, Run(w)) && s.ports[s.workers[w].port].ring != []
    ensures var p := s.workers[w].port;
      Step(s, Run(w)) == s.(ports := s.ports[p := PortAfterRun(s.ports[p])], workers := s.workers[w := Idle])
  {}

  lemma IdleCounts(workers: seq<Worker>, w: nat, r: nat)
    requires w < |workers| && workers[w].Busy?
    ensures multiset(workers[w := Idle])[Busy(r)] == multiset(workers)[Busy(r)] - if workers[w] == Busy(r) then 1 else 0
  {
    assert workers[w] in multiset(workers);
  }

  lemma RunKeepsInvariant(s: System, w: nat)
    requires Invariant(s) && Enabled(s, Run(w))
    ensures Invariant(Step(s, Run(w)))
  {
    var p := s.workers[w].port;
    HeldTaskWaits(s, w);
    if s.ports[p].ring != [] {
      RunIs(s, w);
      RunKeepsPort(s.ports[p]);
      RanKeepsInvariant(s, s.(ports := s.ports[p := PortAfterRun(s.ports[p])], workers := s.workers[w := Idle]), w, p);
    }
  }

  lemma RanKeepsInvariant(s: System, t: System, w: nat, p: nat)
    requires Invariant(s) && !s.faulted && w < |s.workers| && s.workers[w] == Busy(p) && p < |s.ports| == |t.ports|
    requires Waits(s.ports[p]) && PortOk(t.ports[p]) && !Waits(t.ports[p])
    requires forall r :: 0 <= r < |s.ports| && r != p ==> t.ports[r] == s.ports[r]
    requires t.queue == s.queue && t.workers == s.workers[w := Idle]
    ensures Invariant(t)
  {
    forall r: nat | r < |s.ports| ensures Outstanding(t, r) == Outstanding(s, r) - if r == p then 1 else 0 {
      IdleCounts(s.workers, w, r);
    }
    assert Outstanding(s, p) == 1;
    OnePortChanges(s, t, p);
  }

  lemma ResetKeepsInvariant(s: System, p: nat)
    requires Invariant(s) && Enabled(s, Reset(p))
    ensures Invariant(Step(s, Reset(p)))
  {
    var t := Step(s, Reset(p));
    ResetKeepsPort(s.ports[p]);
    forall r | 0 <= r < |t.ports| ensures PortOk(t.ports[r]) && Outstanding(t, r) == if Waits(t.ports[r]) then 1 else 0 {
      assert Outstanding(s, r) == if Waits(s.ports[r]) then 1 else 0;
    }
  }

  lemma AddWorkersKeepsInvariant(s: System, n: nat)
    requires Invariant(s) && Enabled(s, AddWorkers(n))
    ensures Invariant(Step(s, AddWorkers(n)))
  {
    var t, idle := Step(s, AddWorkers(n)), seq(n, _ => Idle);
    forall r | 0 <= r < |t.ports| ensures Outstanding(t, r) == Outstanding(s, r) {
      assert Busy(r) !in multiset(idle);
    }
  }

  lemma ExitKeepsInvariant(s: System, w: nat)
    requires Invariant(s) && Enabled(s, Exit(w))
    ensures Invariant(Step(s, Exit(w)))
  {
    var t := Step(s, Exit(w));
    forall r | 0 <= r < |t.ports| ensures Outstanding(t, r) == Outstanding(s, r) {}
  }

  lemma StepKeepsInvariant(s: System, e: Event)
    requires Invariant(s) && Enabled(s, e)
    ensures Invariant(Step(s, e))
  {
    match e
    case Put(p, timestamp, pcm) => PutKeepsInvariant(s, p, timestamp, pcm);
    case Pop(w) => PopKeepsInvariant(s, w);
    case Run(w) => RunKeepsInvariant(s, w);
    case Reset(p) => ResetKeepsInvariant(s, p);
    case Heartbeat(_) =>
    case AddWorkers(n) => AddWorkersKeepsInvariant(s, n);
    case Stop =>
    case Exit(w) => ExitKeepsInvariant(s, w);
  }

  lemma InitialInvariant(s: System)
    requires Initial(s)
    ensures Invariant(s)
  {
    forall p | 0 <= p < |s.ports| ensures Outstanding(s, p) == 0 {
      assert Busy(p) !in s.workers;
    }
  }

  /** Every reachable state has the invariant. */
  lemma {:induction false} ReachableInvariant(s: System, run: seq<Event>)
    requires Initial(s) && Possible(s, run)
    ensures Invariant(After(s, run))
  {
    if run == [] {
      InitialInvariant(s);
    } else {
      ReachableInvariant(s, run[..|run| - 1]);
      StepKeepsInvariant(After(s, run[..|run| - 1]), run[|run| - 1]);
    }
  }

  // ----- what it says -----

  /** With any number of recorders and workers, in every reachable state before a fault: a recorder
      has at most one task, and exactly one while it is encoding, unless a failed put has left
      its flag set. */
  lemma AtMostOneTask(s: System, run: seq<Event>, p: nat)
    requires Initial(s) && Possible(s, run) && !After(s, run).faulted && p < |After(s, run).ports|
    ensures var t := After(s, run);
      Outstanding(t, p) <= 1 && (Outstanding(t, p) == 1 <==> t.ports[p].encoding && !t.ports[p].failed)
  {
    ReachableInvariant(s, run);
  }

  /** Every accepted frame is delivered exactly once and in push order: what is delivered is what was
      accepted, except for the one frame whose task is outstanding. */
  lemma DeliveredInOrder(s: System, run: seq<Event>, p: nat)
    requires Initial(s) && Possible(s, run) && !After(s, run).faulted && p < |After(s, run).ports|
    ensures var q := After(s, run).ports[p];
      if Waits(q) && Fits(q) then q.accepted != [] && q.delivered == q.accepted[..|q.accepted| - 1] else q.delivered == q.accepted
  {
    ReachableInvariant(s, run);
  }

  lemma NumberedMeans(a: seq<Frame>, i: nat)
    requires Numbered(a) && i < |a|
    ensures i == 0 || a[i - 1].cycle != a[i].cycle ==> a[i].frameNum == 0
    ensures i > 0 && a[i - 1].cycle == a[i].cycle ==> a[i].frameNum == a[i - 1].frameNum + 1
    ensures i > 0 ==> a[i - 1].cycle <= a[i].cycle
  {
    assert a[i].frameNum == NextNumber(a[..i], a[i].cycle);
  }

  /** Frame numbers count 0, 1, 2, ... within each cycle, and cycles only grow. */
  lemma FrameNumbersCount(s: System, run: seq<Event>, p: nat, i: nat)
    requires Initial(s) && Possible(s, run) && !After(s, run).faulted && p < |After(s, run).ports|
    requires i < |After(s, run).ports[p].accepted|
    ensures var a := After(s, run).ports[p].accepted;
      && (i == 0 || a[i - 1].cycle != a[i].cycle ==> a[i].frameNum == 0)
      && (i > 0 && a[i - 1].cycle == a[i].cycle ==> a[i].frameNum == a[i - 1].frameNum + 1)
      && (i > 0 ==> a[i - 1].cycle <= a[i].cycle)
  {
    ReachableInvariant(s, run);
    NumberedMeans(After(s, run).ports[p].accepted, i);
  }

  // ----- resets -----

  // What is delivered later extends what was delivered, with frames of no older cycle.
  predicate Extends(before: Port, after: Port) {
    && before.cycle <= after.cycle && |before.delivered| <= |after.delivered|
    && after.delivered[..|before.delivered|] == before.delivered
    && forall i :: |before.delivered| <= i < |after.delivered| ==> after.delivered[i].cycle >= before.cycle
  }

  lemma RunPortExtends(q: Port)
    requires PortOk(q) && Waits(q) && q.ring != []
    ensures Extends(q, PortAfterRun(q))
  {
    assert Last(q.ring).cycle == q.cycle;
  }

  lemma OtherStepExtends(s: System, e: Event, p: nat)
    requires Enabled(s, e) && p < |s.ports| && !e.Run?
    ensures |Step(s, e).ports| == |s.ports| && Extends(s.ports[p], Step(s, e).ports[p])
  {}

  lemma StepExtends(s: System, e: Event, p: nat)
    requires Invariant(s) && Enabled(s, e) && p < |s.ports| && !Step(s, e).faulted
    ensures |Step(s, e).ports| == |s.ports| && Extends(s.ports[p], Step(s, e).ports[p])
  {
    if e.Run? {
      HeldTaskWaits(s, e.worker);
      RunPortExtends(s.ports[s.workers[e.worker].port]);
    } else {
      OtherStepExtends(s, e, p);
    }
  }

  lemma ExtendsTransitive(a: Port, b: Port, c: Port)
    requires Extends(a, b) && Extends(b, c)
    ensures Extends(a, c)
  {
    forall i | 0 <= i < |a.delivered| ensures c.delivered[i] == a.delivered[i] {
      assert c.delivered[i] == c.delivered[..|b.delivered|][i] == b.delivered[i] == b.delivered[..|a.delivered|][i];
    }
    forall i | |a.delivered| <= i < |c.delivered| ensures c.delivered[i].cycle >= a.cycle {
      if i < |b.delivered| { assert c.delivered[i] == c.delivered[..|b.delivered|][i] == b.delivered[i]; }
    }
  }

  lemma {:induction false} RunExtends(s: System, more: seq<Event>, p: nat)
    requires Invariant(s) && !s.faulted && Possible(s, more) && p < |s.ports| && !After(s, more).faulted
    ensures |After(s, more).ports| == |s.ports| && Invariant(After(s, more)) && Extends(s.ports[p], After(s, more).ports[p])
  {
    if more != [] {
      var before := more[..|more| - 1];
      RunExtends(s, before, p);
      var middle := After(s, before);
      StepExtends(middle, more[|more| - 1], p);
      StepKeepsInvariant(middle, more[|more| - 1]);
      ExtendsTransitive(s.ports[p], middle.ports[p], Step(middle, more[|more| - 1]).ports[p]);
    }
  }

  /** Once `reset` has returned, whatever happens afterwards, no frame of an older cycle is delivered:
      everything delivered later belongs to a cycle after the one that was reset. */
  lemma NothingOldAfterReset(s: System, p: nat, more: seq<Event>)
    requires Invariant(s) && Enabled(s, Reset(p)) && Possible(Step(s, Reset(p)), more)
    requires !After(Step(s, Reset(p)), more).faulted
    ensures var t := After(Step(s, Reset(p)), more);
      && p < |t.ports| && |s.ports[p].delivered| <= |t.ports[p].delivered|
      && t.ports[p].delivered[..|s.ports[p].delivered|] == s.ports[p].delivered
      && forall i :: |s.ports[p].delivered| <= i < |t.ports[p].delivered| ==> t.ports[p].delivered[i].cycle > s.ports[p].cycle
  {
    StepKeepsInvariant(s, Reset(p));
    RunExtends(Step(s, Reset(p)), more, p);
  }

  // ----- a failed put -----

  lemma StepStaysFailed(s: System, e: Event, p: nat)
    requires Invariant(s) && Enabled(s, e) && p < |s.ports| && s.ports[p].failed && s.ports[p].encoding
    ensures |Step(s, e).ports| == |s.ports| && Step(s, e).ports[p] == s.ports[p]
  {
    if e.Run? { HeldTaskWaits(s, e.worker); }
  }

  /** A frame of the wrong size, or any frame once the pool is stopped, leaves its recorder as it is for
      ever: over every continuation each later put and reset stays blocked and nothing more is
      delivered. */
  lemma {:induction false} FailedPutBlocksForEver(s: System, p: nat, timestamp: nat, pcm: seq<nat>, more: seq<Event>)
    requires Invariant(s) && Enabled(s, Put(p, timestamp, pcm)) && !Queues(s, p, pcm)
    requires Possible(Step(s, Put(p, timestamp, pcm)), more)
    ensures var t := After(Step(s, Put(p, timestamp, pcm)), more);
      && p < |t.ports| && t.ports[p] == Step(s, Put(p, timestamp, pcm)).ports[p]
      && t.ports[p].encoding && t.ports[p].delivered == s.ports[p].delivered
      && (t.faulted || Invariant(t))
      && forall later, n :: !Enabled(t, Put(p, n, later)) && !Enabled(t, Reset(p))
  {
    var u := Step(s, Put(p, timestamp, pcm));
    StepKeepsInvariant(s, Put(p, timestamp, pcm));
    if more != [] {
      var before := more[..|more| - 1];
      FailedPutBlocksForEver(s, p, timestamp, pcm, before);
      StepStaysFailed(After(u, before), more[|more| - 1], p);
      StepKeepsInvariant(After(u, before), more[|more| - 1]);
    }
  }

  /** After any other put, a worker that runs the queued task delivers the frame and unblocks the recorder. */
  lemma RunUnblocks(s: System, w: nat)
    requires Invariant(s) && Enabled(s, Run(w)) && Fits(s.ports[s.workers[w].port])
    ensures var p := s.workers[w].port;
      && !Step(s, Run(w)).faulted && !Step(s, Run(w)).ports[p].encoding
      && Step(s, Run(w)).ports[p].delivered == s.ports[p].delivered + [Last(s.ports[p].accepted)]
  {
    HeldTaskWaits(s, w);
  }

  // ----- the missing tail -----

  /** A worker's run reads the ring's tail; there is none, and the read faults, exactly when the
      recorder's frames are larger than a slot. */
  lemma RunFaultsIff(s: System, w: nat)
    requires Invariant(s) && Enabled(s, Run(w))
    ensures Step(s, Run(w)).faulted <==> s.ports[s.workers[w].port].bufferSize > MAX_PCM_BYTES
  {
    HeldTaskWaits(s, w);
  }

  /** No run of any length faults when every recorder's frames fit a slot. */
  lemma {:induction false} FittingFramesNeverFault(s: System, run: seq<Event>)
    requires Initial(s) && Possible(s, run) && forall p :: 0 <= p < |s.ports| ==> Fits(s.ports[p])
    ensures var t := After(s, run);
      !t.faulted && |t.ports| == |s.ports| && forall p :: 0 <= p < |t.ports| ==> Fits(t.ports[p])
  {
    if run != [] {
      var before, last := run[..|run| - 1], run[|run| - 1];
      FittingFramesNeverFault(s, before);
      ReachableInvariant(s, before);
      if last.Run? { RunFaultsIff(After(s, before), last.worker); }
    }
  }

  /** With frames larger than a slot three steps from the start are enough. */
  lemma LargeFramesFault(s: System, p: nat, timestamp: nat, pcm: seq<nat>)
    requires Initial(s) && p < |s.ports| && |s.workers| > 0 && |pcm| == s.ports[p].bufferSize > MAX_PCM_BYTES
    ensures var run := [Put(p, timestamp, pcm), Pop(0), Run(0)]; Possible(s, run) && After(s, run).faulted
  {
    var a, b, c := Put(p, timestamp, pcm), Pop(0), Run(0);
    assert Possible(s, []) && After(s, []) == s;
    assert [a][..0] == [] && [a, b][..1] == [a] && [a, b, c][..2] == [a, b];
    assert Possible(s, [a]) && After(s, [a]) == Step(s, a);
    assert Possible(s, [a, b]) && After(s, [a, b]) == Step(Step(s, a), b);
    assert Enabled(After(s, [a, b]), c);
    assert Possible(s, [a, b, c]);
  }
}
