/**
 * The frame-ingest service (`FrameStreamerServicer` in app/grpc_server.py):
 * a client stream of raw frames goes into a bounded FIFO queue, and a worker
 * drains the queue into the pipeline's appsrc.  The service runs on two
 * threads; the model is sequential, with the worker's loop driven explicitly.
 */
module GrpcServer {
  import opened Common

  type Byte = x: int | 0 <= x < 0x100
  type Int32 = x: int | -0x8000_0000 <= x < 0x8000_0000
  type Int64 = x: int | -0x8000_0000_0000_0000 <= x < 0x8000_0000_0000_0000

  /** `queue.Queue(maxsize=30)` */
  const QueueCapacity: nat := 30

  /** Nanoseconds per microsecond: the appsrc clock counts nanoseconds. */
  const NsPerUs: nat := 1000

  /** The largest GStreamer clock time (an unsigned 64-bit value). */
  const ClockTimeMax: nat := 0xFFFF_FFFF_FFFF_FFFF

  /** `Gst.CLOCK_TIME_NONE`, the all-ones clock time. */
  const ClockTimeNone: nat := ClockTimeMax

  const StreamCompleted: string := "Stream completed successfully"

  /** The text of the `queue.Full` exception, which carries no message. */
  const QueueFullText: string := ""

  /** A `VideoFrame` message: interleaved RGB bytes, its size and its capture time. */
  datatype VideoFrame = VideoFrame(frameData: seq<Byte>, width: Int32, height: Int32, timestampUs: Int64)

  /** The buffer pushed into appsrc. */
  datatype GstBuffer = GstBuffer(data: seq<Byte>, pts: nat, dts: nat, duration: nat)

  /** What appsrc answers to "push-buffer". */
  datatype FlowReturn = FlowOk | FlowNotLinked | FlowFlushing | FlowEos | FlowNotNegotiated | FlowError | FlowNotSupported

  /** The `StreamAck` message. */
  datatype StreamAck = StreamAck(success: bool, message: string)

  /** Why a dequeued frame could not be turned into a buffer. */
  datatype FrameFault =
    | ShapeMismatch        // the bytes do not reshape to (height, width, 3)
    | TimestampOutOfRange  // timestamp_us * 1000 is not a clock time

  /** A line the service prints. */
  datatype LogEntry = StreamFailed(message: string) | PushFailed(ret: FlowReturn) | FrameFailed(fault: FrameFault)

  /** What one pass of the worker loop did. */
  datatype WorkerStep = Exited | Polled | Pushed(ret: FlowReturn) | Dropped(fault: FrameFault)

  /**
   * Whether numpy can reshape `n` bytes to `(h, w, 3)`: with both sizes
   * non-negative the bytes must number exactly `h * w * 3`; one negative size
   * (whatever its value) is the unknown dimension, inferred when the other
   * sizes are non-zero and divide `n`; two negative sizes are refused.
   */
  predicate ReshapeFits(n: nat, h: int, w: int) {
    if h >= 0 && w >= 0 then n == h * w * 3
    else if h < 0 && w >= 0 then w > 0 && n % (w * 3) == 0
    else if w < 0 && h >= 0 then h > 0 && n % (h * 3) == 0
    else false
  }

  /**
   * The shape numpy gives the bytes when the reshape succeeds: the known
   * sizes are kept, the unknown one is inferred, and the shape holds exactly
   * the `n` bytes.
   */
  function ReshapedShape(n: nat, h: int, w: int): (shape: (nat, nat))
    requires ReshapeFits(n, h, w)
    ensures shape.0 * shape.1 * 3 == n
    ensures h >= 0 ==> shape.0 == h
    ensures w >= 0 ==> shape.1 == w
  {
    if h >= 0 && w >= 0 then (h, w)
    else if h < 0 then
      var c := w * 3;
      assert n == (n / c) * c;
      assert (n / c) * w * 3 == (n / c) * c;
      (n / c, w)
    else
      var c := h * 3;
      assert n == (n / c) * c;
      assert h * (n / c) * 3 == (n / c) * c;
      (h, n / c)
  }

  /**
   * The conversion of a dequeued frame: reshape its bytes, wrap them in a
   * buffer stamped with the timestamp in nanoseconds and no decoding time or
   * duration.  A presentation time outside the unsigned 64-bit clock range
   * is refused when it is set on the buffer.
   */
  function ConvertFrame(f: VideoFrame): Result<GstBuffer, FrameFault> {
    if !ReshapeFits(|f.frameData|, f.height, f.width) then Failure(ShapeMismatch)
    else if !(0 <= f.timestampUs * NsPerUs <= ClockTimeMax) then Failure(TimestampOutOfRange)
    else Success(GstBuffer(f.frameData, f.timestampUs * NsPerUs, ClockTimeNone, ClockTimeNone))
  }

  /**
   * A frame that converts becomes a buffer with the same bytes, reshaped to a
   * shape that holds them all, whose presentation time, read back in
   * microseconds, is the frame's timestamp, so the frame can be rebuilt from
   * the buffer and its sizes; a frame of non-negative size converts exactly
   * when it holds `height * width * 3` bytes and its timestamp fits the clock.
   */
  lemma ConvertKeepsFrame(f: VideoFrame)
    ensures ConvertFrame(f).Success? ==>
      var b := ConvertFrame(f).value;
      var shape := ReshapedShape(|f.frameData|, f.height, f.width);
      && b.data == f.frameData
      && shape.0 * shape.1 * 3 == |b.data|
      && b.pts % NsPerUs == 0
      && VideoFrame(b.data, f.width, f.height, b.pts / NsPerUs) == f
      && b.dts == ClockTimeNone && b.duration == ClockTimeNone
    ensures f.height >= 0 && f.width >= 0 ==>
      (ConvertFrame(f).Success? <==>
         |f.frameData| == f.height * f.width * 3 && 0 <= f.timestampUs * NsPerUs <= ClockTimeMax)
    ensures f.height < 0 && f.width < 0 ==> ConvertFrame(f) == Failure(ShapeMismatch)
  {
  }

  /** The buffer pushed for frame `f`: none when it fails to convert. */
  function PushedFor(f: VideoFrame): seq<GstBuffer> {
    match ConvertFrame(f)
    case Success(b) => [b]
    case Failure(_) => []
  }

  /** The line printed for frame `f` when appsrc answers `ret`: none when all goes well. */
  function LogFor(f: VideoFrame, ret: FlowReturn): seq<LogEntry> {
    match ConvertFrame(f)
    case Failure(fault) => [FrameFailed(fault)]
    case Success(_) => if ret == FlowOk then [] else [PushFailed(ret)]
  }

  /** `f` applied to each element of `s` in order, the results joined. */
  function FlatMap<T, U>(f: T -> seq<U>, s: seq<T>): seq<U>
    decreases |s|
  {
    if s == [] then [] else FlatMap(f, s[..|s| - 1]) + f(s[|s| - 1])
  }

  /** Joining the results over two runs is joining the results over each. */
  lemma {:induction false} FlatMapConcat<T, U>(f: T -> seq<U>, a: seq<T>, b: seq<T>)
    ensures FlatMap(f, a + b) == FlatMap(f, a) + FlatMap(f, b)
    decreases |b|
  {
    if b == [] {
      assert a + b == a;
    } else {
      FlatMapConcat(f, a, b[..|b| - 1]);
      assert (a + b)[..|a + b| - 1] == a + b[..|b| - 1];
    }
  }

  /** The buffers the worker pushes for `frames`, in order; frames that fail to convert are skipped. */
  function Converted(frames: seq<VideoFrame>): seq<GstBuffer> {
    FlatMap(PushedFor, frames)
  }

  /** What the worker prints while handling `frames`, appsrc answering `rets[i]` for the `i`-th. */
  function WorkerLog(frames: seq<VideoFrame>, rets: seq<FlowReturn>): seq<LogEntry>
    requires |frames| == |rets|
    decreases |frames|
  {
    if frames == [] then []
    else
      var n := |frames| - 1;
      WorkerLog(frames[..n], rets[..n]) + LogFor(frames[n], rets[n])
  }

  /**
   * FIFO: when every frame of a run converts, the i-th buffer pushed is the
   * i-th frame's; in any case no more buffers than frames are pushed.
   */
  lemma {:induction false} ConvertedInOrder(frames: seq<VideoFrame>)
    ensures |Converted(frames)| <= |frames|
    ensures (forall i :: 0 <= i < |frames| ==> ConvertFrame(frames[i]).Success?) ==>
      && |Converted(frames)| == |frames|
      && forall i :: 0 <= i < |frames| ==> Converted(frames)[i] == ConvertFrame(frames[i]).value
    decreases |frames|
  {
    if frames != [] {
      ConvertedInOrder(frames[..|frames| - 1]);
    }
  }

  /** The buffers of two runs of frames, one after the other, are those of each run in turn. */
  lemma ConvertedConcat(a: seq<VideoFrame>, b: seq<VideoFrame>)
    ensures Converted(a + b) == Converted(a) + Converted(b)
  {
    FlatMapConcat(PushedFor, a, b);
  }

  /**
   * Fail-soft: a frame that does not convert drops out, and the frames
   * before and after it are still pushed, in order.
   */
  lemma ConvertedSkipsBadFrame(before: seq<VideoFrame>, f: VideoFrame, after: seq<VideoFrame>)
    requires ConvertFrame(f).Failure?
    ensures Converted(before + [f] + after) == Converted(before) + Converted(after)
  {
    assert Converted([f]) == [] by {
      assert [f][..0] == [];
      assert FlatMap(PushedFor, [f]) == FlatMap(PushedFor, []) + PushedFor(f);
      assert PushedFor(f) == [];
    }
    ConvertedConcat(before, [f]);
    ConvertedConcat(before + [f], after);
  }

  /** What a worker pass that dequeues `f` reports, appsrc answering `ret`. */
  function StepOutcome(f: VideoFrame, ret: FlowReturn): WorkerStep {
    match ConvertFrame(f)
    case Success(_) => Pushed(ret)
    case Failure(fault) => Dropped(fault)
  }

  /** The part of the service's state the worker changes. */
  datatype WorkerState = WorkerState(queue: seq<VideoFrame>, pushed: seq<GstBuffer>, log: seq<LogEntry>)

  /**
   * One pass of the worker loop while running: nothing on an empty queue;
   * otherwise the oldest frame leaves the queue and is either pushed (a non-OK
   * answer is printed) or printed as failed.
   */
  function Step(w: WorkerState, ret: FlowReturn): WorkerState {
    if w.queue == [] then w
    else WorkerState(w.queue[1..], w.pushed + PushedFor(w.queue[0]), w.log + LogFor(w.queue[0], ret))
  }

  /** Passes of the worker loop, one per appsrc answer in `rets`. */
  function Run(w: WorkerState, rets: seq<FlowReturn>): WorkerState
    decreases |rets|
  {
    if rets == [] then w else Step(Run(w, rets[..|rets| - 1]), rets[|rets| - 1])
  }

  /**
   * FIFO draining: `k` passes take the first `min(k, |queue|)` frames off the
   * queue, in order, push the buffers of those that convert, in the same
   * order, and print one line per failed conversion or non-OK push.
   */
  lemma {:induction false} RunDrainsInOrder(w: WorkerState, rets: seq<FlowReturn>)
    ensures var n := Min(|rets|, |w.queue|);
      Run(w, rets) == WorkerState(w.queue[n..], w.pushed + Converted(w.queue[..n]),
                                  w.log + WorkerLog(w.queue[..n], rets[..n]))
    decreases |rets|
  {
    if rets != [] {
      var k := |rets| - 1;
      var init := rets[..k];
      RunDrainsInOrder(w, init);
      var q, m := w.queue, Min(k, |w.queue|);
      assert init[..m] == rets[..m];
      if m < |q| {
        StepTakesNext(q, rets, m, w.pushed, w.log);
      } else {
        assert Run(w, init).queue == [];
      }
    }
  }

  /** One pass on the queue left after `m` frames takes frame `m` and answer `rets[m]`. */
  lemma StepTakesNext(q: seq<VideoFrame>, rets: seq<FlowReturn>, m: nat, pushed: seq<GstBuffer>, log: seq<LogEntry>)
    requires m < |q| && m < |rets|
    ensures Step(WorkerState(q[m..], pushed + Converted(q[..m]), log + WorkerLog(q[..m], rets[..m])), rets[m])
         == WorkerState(q[m + 1..], pushed + Converted(q[..m + 1]), log + WorkerLog(q[..m + 1], rets[..m + 1]))
  {
    assert q[m..][1..] == q[m + 1..];
    assert q[..m + 1][..m] == q[..m];
    assert rets[..m + 1][..m] == rets[..m];
  }

  function Min(a: nat, b: nat): nat {
    if a < b then a else b
  }

  /** The service's state: the frame queue, the stop flag, and what it has pushed and printed. */
  class FrameStreamerServicer {
    /** `frame_queue` */
    var frameQueue: seq<VideoFrame>
    /** `running` */
    var running: bool
    /** The buffers handed to appsrc's "push-buffer", in order. */
    var pushed: seq<GstBuffer>
    /** The lines printed, in order. */
    var log: seq<LogEntry>

    /** The queue never holds more than its capacity. */
    ghost predicate Valid() reads this {
      |frameQueue| <= QueueCapacity
    }

    /** A fresh service: empty queue, running, nothing pushed or printed yet. */
    constructor ()
      ensures Valid()
      ensures frameQueue == [] && running && pushed == [] && log == []
    {
      frameQueue, running, pushed, log := [], true, [], [];
    }

    /** `frame_queue.put(frame, timeout=1.0)`: no one drains meanwhile, so a full queue fails. */
    method Put(frame: VideoFrame) returns (ok: bool)
      requires Valid()
      modifies this`frameQueue
      ensures Valid()
      ensures ok <==> |old(frameQueue)| < QueueCapacity
      ensures frameQueue == if ok then old(frameQueue) + [frame] else old(frameQueue)
    {
      ok := |frameQueue| < QueueCapacity;
      if ok {
        frameQueue := frameQueue + [frame];
      }
    }

    /** `frame_queue.get(timeout=1.0)`: the oldest frame, or None (`queue.Empty`) when there is none. */
    method Get() returns (frame: Option<VideoFrame>)
      requires Valid()
      modifies this`frameQueue
      ensures Valid()
      ensures old(frameQueue) == [] ==> frame == None && frameQueue == []
      ensures old(frameQueue) != [] ==> frame == Some(old(frameQueue)[0]) && frameQueue == old(frameQueue)[1..]
    {
      if frameQueue == [] {
        frame := None;
      } else {
        frame := Some(frameQueue[0]);
        frameQueue := frameQueue[1..];
      }
    }

    /**
     * `StreamFrames`: enqueues the stream's frames in order.  It succeeds when
     * all of them fit; otherwise the first frame that finds the queue full
     * ends the call with the exception's (empty) text, and the frames after
     * it are never read.  `consumed` is how many frames were read.
     */
    method StreamFrames(requests: seq<VideoFrame>) returns (ack: StreamAck, consumed: nat)
      requires Valid()
      modifies this`frameQueue, this`log
      ensures Valid()
      ensures ack.success <==> |old(frameQueue)| + |requests| <= QueueCapacity
      ensures ack.success ==>
        && ack.message == StreamCompleted
        && consumed == |requests|
        && frameQueue == old(frameQueue) + requests
        && log == old(log)
      ensures !ack.success ==>
        var room := QueueCapacity - |old(frameQueue)|;
        && ack.message == QueueFullText
        && consumed == room + 1
        && frameQueue == old(frameQueue) + requests[..room]
        && log == old(log) + [StreamFailed(QueueFullText)]
    {
      consumed := 0;
      while consumed < |requests|
        invariant consumed <= |requests|
        invariant |old(frameQueue)| + consumed <= QueueCapacity
        invariant frameQueue == old(frameQueue) + requests[..consumed]
        invariant log == old(log)
      {
        var frame := requests[consumed];
        consumed := consumed + 1;
        var ok := Put(frame);
        if !ok {
          log := log + [StreamFailed(QueueFullText)];
          return StreamAck(false, QueueFullText), consumed;
        }
        assert requests[..consumed] == requests[..consumed - 1] + [frame];
      }
      assert requests[..consumed] == requests;
      ack := StreamAck(true, StreamCompleted);
    }

    /**
     * One pass of the `_process_frames` loop: it ends when `running` is off;
     * an empty queue is a normal poll; otherwise the oldest frame is
     * converted and pushed, and a failed conversion or a non-OK push is
     * printed and not retried.  `ret` is appsrc's answer if a push happens.
     */
    method ProcessStep(ret: FlowReturn) returns (step: WorkerStep)
      requires Valid()
      modifies this`frameQueue, this`pushed, this`log
      ensures Valid()
      ensures !running ==> step == Exited
      ensures !running ==> frameQueue == old(frameQueue) && pushed == old(pushed) && log == old(log)
      ensures running ==> WorkerState(frameQueue, pushed, log) == Step(old(WorkerState(frameQueue, pushed, log)), ret)
      ensures running ==> step == if old(frameQueue) == [] then Polled else StepOutcome(old(frameQueue)[0], ret)
    {
      if !running {
        return Exited;
      }
      var next := Get();
      if next.None? {
        return Polled;
      }
      var frame := next.value;
      match ConvertFrame(frame)
      case Failure(fault) =>
        log := log + [FrameFailed(fault)];
        step := Dropped(fault);
      case Success(buffer) =>
        pushed := pushed + [buffer];
        if ret != FlowOk {
          log := log + [PushFailed(ret)];
        }
        step := Pushed(ret);
    }

    /**
     * `_process_frames`, for as many passes as the scheduler gives it (one
     * appsrc answer per pass): while running, the first passes take the queued
     * frames in FIFO order, pushing each well-formed one; once the queue is
     * empty the passes only poll.  After `stop()` it does nothing.
     */
    method ProcessFrames(rets: seq<FlowReturn>)
      requires Valid()
      modifies this`frameQueue, this`pushed, this`log
      ensures Valid()
      ensures !running ==> frameQueue == old(frameQueue) && pushed == old(pushed) && log == old(log)
      ensures running ==> WorkerState(frameQueue, pushed, log) == Run(old(WorkerState(frameQueue, pushed, log)), rets)
      ensures running ==>
        var n := Min(|rets|, |old(frameQueue)|);
        && frameQueue == old(frameQueue)[n..]
        && pushed == old(pushed) + Converted(old(frameQueue)[..n])
        && log == old(log) + WorkerLog(old(frameQueue)[..n], rets[..n])
    {
      var i := 0;
      while running && i < |rets|
        invariant Valid()
        invariant i <= |rets|
        invariant !running ==> i == 0
        invariant WorkerState(frameQueue, pushed, log) == Run(old(WorkerState(frameQueue, pushed, log)), rets[..i])
      {
        assert rets[..i + 1][..i] == rets[..i];
        var step := ProcessStep(rets[i]);
        i := i + 1;
      }
      assert !running || rets[..i] == rets;
      RunDrainsInOrder(old(WorkerState(frameQueue, pushed, log)), rets);
    }

    /** `stop()`: clears the flag, so the worker's next check ends its loop. */
    method Stop()
      modifies this`running
      ensures !running
    {
      running := false;
    }
  }

  /**
   * Backpressure: with the worker held back, a stream of 31 frames into an
   * empty queue fails on the 31st, after 30 were queued; when the worker then
   * runs, it pushes those 30 in the order they were sent.
   */
  method OverflowThenDrain(frames: seq<VideoFrame>, rets: seq<FlowReturn>)
      returns (ack: StreamAck, consumed: nat, buffers: seq<GstBuffer>)
    requires |frames| == QueueCapacity + 1 && |rets| == QueueCapacity
    ensures !ack.success && ack.message == QueueFullText && consumed == QueueCapacity + 1
    ensures buffers == Converted(frames[..QueueCapacity])
  {
    var service := new FrameStreamerServicer();
    ack, consumed := service.StreamFrames(frames);
    var queued := frames[..QueueCapacity];
    assert service.frameQueue == [] + queued == queued;
    assert service.running && service.pushed == [];
    service.ProcessFrames(rets);
    assert Min(|rets|, |queued|) == QueueCapacity && queued[..QueueCapacity] == queued;
    buffers := service.pushed;
    assert buffers == [] + Converted(queued) == Converted(queued);
  }
}
