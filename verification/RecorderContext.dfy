/** One recorder and the worker pool as the objects they are; each method is what the source does
    while it holds the recorder's lock, tied to the steps of `Recorder`. */
module RecorderContext {
  import opened Common
  import opened AudioRing
  import opened Recorder

  class PiWorkerPool {
    var tasks: seq<nat>
    var workerCnt: nat
    var stopped: bool

    constructor ()
      ensures tasks == [] && workerCnt == 1 && !stopped
    {
      tasks, workerCnt, stopped := [], 1, false;
    }

    method AddWorkers(count: nat)
      modifies this
      ensures workerCnt == old(workerCnt) + count && tasks == old(tasks) && stopped == old(stopped)
    {
      workerCnt := workerCnt + count;
    }

    method Stop()
      modifies this
      ensures stopped && tasks == old(tasks) && workerCnt == old(workerCnt)
    {
      stopped := true;
    }

    // A stopped pool throws instead of queueing.
    method Enqueue(task: nat) returns (queued: bool)
      modifies this
      ensures queued == !stopped && stopped == old(stopped) && workerCnt == old(workerCnt)
      ensures tasks == if stopped then old(tasks) else old(tasks) + [task]
    {
      if stopped { return false; }
      tasks := tasks + [task];
      queued := true;
    }

    // Once there is a task or the pool is stopped: the oldest task, or the end of the worker.
    method Take() returns (task: Option<nat>)
      requires stopped || tasks != []
      modifies this
      ensures stopped == old(stopped) && workerCnt == old(workerCnt)
      ensures if old(tasks) == [] then task == None && tasks == [] else task.Some? && old(tasks) == [task.value] + tasks
    {
      if stopped && tasks == [] { return None; }
      task := Some(tasks[0]);
      tasks := tasks[1..];
    }
  }

  class PiRecorder {
    const id: nat
    const frames: PiAudioFrameBuffer
    var isEncoding: bool
    var cycle: nat
    var frameCount: nat
    ghost var accepted: seq<Frame>
    ghost var delivered: seq<Frame>
    ghost var failed: bool

    ghost predicate Valid()
      reads this, frames
    {
      frames.Valid()
    }

    ghost function Value(): Port
      requires Valid()
      reads this, frames, frames.ring
    {
      Port(isEncoding, cycle, frameCount, frames.Contents(), frames.ring.Length - 1, frames.bufSize, accepted, delivered, failed)
    }

    // The flag starts as the caller says: the source does not initialise it.
    constructor (id: nat, slots: nat, samplesPerFrame: nat, blank: Frame, flag: bool)
      requires slots >= 2
      ensures Valid() && fresh(frames) && fresh(frames.ring)
      ensures Value() == Port(flag, 0, 0, [], slots - 1, 2 * samplesPerFrame, [], [], false)
    {
      this.id := id;
      frames := new PiAudioFrameBuffer(slots, samplesPerFrame, blank);
      isEncoding, cycle, frameCount := flag, 0, 0;
      accepted, delivered, failed := [], [], false;
    }

    /** A put, once the flag is clear. */
    method DoPutFrame(pool: PiWorkerPool, timestamp: nat, pcm: seq<nat>)
      requires Valid() && !isEncoding
      modifies this, frames, frames.ring, pool
      ensures Valid() && Value() == PortAfterPut(old(Value()), timestamp, pcm, old(pool.stopped))
      ensures pool.stopped == old(pool.stopped)
      ensures pool.tasks == if |pcm| == frames.bufSize && !pool.stopped then old(pool.tasks) + [id] else old(pool.tasks)
    {
      isEncoding := true;
      if frames.bufSize != |pcm| {
        failed := true;
        return;
      }
      var frame := Frame(cycle, timestamp, frameCount, pcm);
      var result := frames.Push(frame);
      var queued := pool.Enqueue(id);
      if !queued {
        failed := true;
      } else if result == 0 {
        accepted := accepted + [frame];
      }
    }

    /** A worker's run: encode and deliver the newest frame, then clear the flag.  Without a newest
        frame the source reads through a null pointer. */
    method WorkerRun() returns (faulted: bool, frame: Option<Frame>)
      requires Valid()
      modifies this
      ensures Valid() && (faulted <==> old(Value()).ring == [])
      ensures faulted ==> Value() == old(Value())
      ensures !faulted ==> Value() == PortAfterRun(old(Value())) && frame == Some(Last(old(Value()).ring))
    {
      frame := frames.Tail();
      if frame.None? { return true, None; }
      faulted := false;
      delivered := delivered + [frame.value];
      frameCount := frameCount + 1;
      isEncoding := false;
    }

    /** A reset, once the flag is clear. */
    method Reset()
      requires Valid() && !isEncoding
      modifies this, frames
      ensures Valid() && Value() == PortAfterReset(old(Value()))
    {
      frameCount := 0;
      frames.Clear();
      cycle := cycle + 1;
    }
  }
}
