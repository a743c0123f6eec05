/** The recorder's ring of PCM frames: running counters over a fixed array, one slot always free. */
module AudioRing {
  import opened Common

  const MAX_PCM_BYTES := 640

  datatype Frame = Frame(cycle: nat, timestamp: nat, frameNum: nat, pcm: seq<nat>)

  // The last k elements, or all if there are fewer.
  function Latest(s: seq<Frame>, k: nat): (r: seq<Frame>) {
    if |s| <= k then s else s[|s| - k..]
  }

  // Pushing the frames of a run one by one into a bounded sequence.
  function Pushed(s: seq<Frame>, k: nat, run: seq<Frame>): seq<Frame> {
    if run == [] then s else Latest(Pushed(s, k, run[..|run| - 1]) + [run[|run| - 1]], k)
  }

  lemma LatestAgain(s: seq<Frame>, x: Frame, k: nat)
    ensures Latest(Latest(s, k) + [x], k) == Latest(s + [x], k)
  {
    var t := Latest(s, k);
    assert t + [x] == (s + [x])[|s| - |t|..];
  }

  /** Pushes from empty keep exactly the latest k frames. */
  lemma {:induction false} PushedKeepsLatest(k: nat, run: seq<Frame>)
    ensures Pushed([], k, run) == Latest(run, k)
  {
    if run != [] {
      PushedKeepsLatest(k, run[..|run| - 1]);
      LatestAgain(run[..|run| - 1], run[|run| - 1], k);
      assert run == run[..|run| - 1] + [run[|run| - 1]];
    }
  }

  // Counters less than n apart use different slots.
  lemma SlotsDiffer(a: nat, b: nat, n: nat)
    requires n > 0 && a < b < a + n
    ensures a % n != b % n
  {
    var p, q := a / n, b / n;
    if a % n == b % n {
      assert b - a == (q - p) * n;
      if q - p >= 1 { Grows(1, q - p, n); }
      if q - p <= 0 { Grows(q - p, 0, n); }
      assert false;
    }
  }

  lemma Grows(a: int, b: int, n: nat)
    requires a <= b
    ensures a * n <= b * n
  {}

  class PiAudioFrameBuffer {
    const ring: array<Frame>
    const bufSize: nat
    var count: nat
    var head: nat
    var tail: nat
    var size: nat

    // One slot is never used, so the ring needs at least two.
    ghost predicate Valid()
      reads this
    {
      ring.Length >= 2 && size <= ring.Length - 1 && (size > 0 ==> head + size == count && tail + 1 == count)
    }

    // The frame that counter c wrote or will overwrite.
    ghost function At(c: nat): Frame
      requires ring.Length > 0
      reads ring
    {
      ring[c % ring.Length]
    }

    // Oldest first.
    ghost function Contents(): (s: seq<Frame>)
      requires Valid()
      reads this, ring
      ensures |s| == size
    {
      seq(size, i requires 0 <= i && Valid() reads this, ring => At(head + i))
    }

    constructor (frames: nat, samplesPerFrame: nat, blank: Frame)
      requires frames >= 2
      ensures Valid() && Contents() == [] && fresh(ring) && ring.Length == frames && bufSize == 2 * samplesPerFrame
    {
      ring := new Frame[frames](_ => blank);
      bufSize := 2 * samplesPerFrame;
      count, head, tail, size := 0, 0, 0, 0;
    }

    // Write at counter c; the Length-1 counters before it keep their frames.
    method Store(c: nat, frame: Frame)
      requires ring.Length > 0
      modifies ring
      ensures At(c) == frame
      ensures forall b: nat {:trigger At(b)} :: b < c < b + ring.Length ==> At(b) == old(At(b))
    {
      ring[c % ring.Length] := frame;
      forall b: nat | b < c < b + ring.Length ensures At(b) == old(At(b)) {
        SlotsDiffer(b, c, ring.Length);
      }
    }

    // Move the counters for one more frame.
    method Advance()
      requires Valid()
      modifies this`head, this`size
      ensures size == (if old(size) == ring.Length - 1 then old(size) else old(size) + 1)
      ensures head == count + 1 - size && size >= 1
    {
      if size == 0 {
        head := count;
        size := size + 1;
      } else {
        if size == ring.Length - 1 {
          head := head + 1;
        } else {
          size := size + 1;
        }
      }
    }

    /** The contents become the latest Length-1 of the old ones and the new frame; a frame too large
        for a slot is refused with -1 and changes nothing. */
    method Push(frame: Frame) returns (result: int)
      requires Valid()
      modifies this`count, this`head, this`tail, this`size, ring
      ensures Valid()
      ensures result == if |frame.pcm| > MAX_PCM_BYTES then -1 else 0
      ensures Contents() == if |frame.pcm| > MAX_PCM_BYTES then old(Contents())
        else Latest(old(Contents()) + [frame], ring.Length - 1)
    {
      if |frame.pcm| > MAX_PCM_BYTES {
        return -1;
      }
      ghost var before, dropped := Contents(), if size == ring.Length - 1 then 1 else 0;
      Advance();
      Store(count, frame);
      tail := count;
      count := count + 1;
      result := 0;
      ghost var want := Latest(before + [frame], ring.Length - 1);
      assert |want| == size;
      forall i | 0 <= i < size ensures Contents()[i] == want[i] {
        assert At(head + i) == if i == size - 1 then frame else before[i + dropped];
      }
    }

    method Clear()
      requires Valid()
      modifies this`size
      ensures Valid() && Contents() == []
    {
      size := 0;
    }

    method Head() returns (f: Option<Frame>)
      requires Valid()
      ensures f == if Contents() == [] then None else Some(Contents()[0])
    {
      if size == 0 { return None; }
      assert Contents()[0] == At(head + 0) == At(head);
      f := Some(ring[head % ring.Length]);
    }

    method Tail() returns (f: Option<Frame>)
      requires Valid()
      ensures f == if Contents() == [] then None else Some(Contents()[|Contents()| - 1])
    {
      if size == 0 { return None; }
      assert Contents()[size - 1] == At(head + (size - 1)) == At(tail);
      f := Some(ring[tail % ring.Length]);
    }

    method Get(index: nat) returns (f: Option<Frame>)
      requires Valid()
      ensures f == if index >= |Contents()| then None else Some(Contents()[index])
    {
      if size == 0 || index >= size { return None; }
      f := Some(ring[(head + index) % ring.Length]);
    }

    /** Counting from the newest; the unsigned subtraction wraps when there are not that many, and
        the wrapped index is out of range too. */
    method Back(steps: nat) returns (f: Option<Frame>)
      requires Valid() && steps < 0x1_0000_0000_0000_0000 && ring.Length < 0x1_0000_0000_0000_0000
      ensures f == if steps >= |Contents()| then None else Some(Contents()[|Contents()| - 1 - steps])
    {
      f := Get((size - steps - 1) % 0x1_0000_0000_0000_0000);
    }
  }
}
