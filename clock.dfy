/** Frame accounting and the playback clock: how `write_audio`, `flush` and
    `output_time` turn bytes and milliseconds into frames and back. */
module Clock {
  import opened CInt

  /** Whole frames in `len` bytes when a frame is `frameBytes` bytes: never
      more bytes than the write holds, and the leftover is less than one
      frame. A negative length counts no frames forward. */
  function FramesIn(len: int, frameBytes: int): (r: int)
    requires frameBytes > 0
    ensures len >= 0 ==> 0 <= r && r * frameBytes <= len < r * frameBytes + frameBytes
    ensures len < 0 ==> r <= 0
  {
    Quot(len, frameBytes)
  }

  /** The frame position a seek to `time` milliseconds sets: the frames
      played in `time` milliseconds at `rate`, the partial frame dropped. */
  function FlushFrames(time: int, rate: int): (r: int)
    requires rate > 0
    ensures time >= 0 ==> 0 <= r && r * 1000 <= time * rate < r * 1000 + 1000
  {
    Quot(time * rate, 1000)
  }

  /** Elapsed playback in milliseconds: frames written less the whole frames
      still queued in the device, converted at `rate` frames per second. It
      never runs ahead of the frames written, and with nothing queued it is
      exactly the frames written at `rate`. */
  function OutputTime(framesWritten: int, capacity: int, bytesFree: int, frameBytes: int, rate: int): (ms: int)
    requires frameBytes > 0 && rate > 0
    ensures bytesFree <= capacity ==> ms <= Quot(framesWritten * 1000, rate)
    ensures bytesFree == capacity ==> ms == Quot(framesWritten * 1000, rate)
  {
    var played := framesWritten - Quot(capacity - bytesFree, frameBytes);
    if bytesFree <= capacity then
      assert played * 1000 <= framesWritten * 1000;
      QuotMonotone(played * 1000, framesWritten * 1000, rate);
      Quot(played * 1000, rate)
    else
      Quot(played * 1000, rate)
  }

  /** A trailing partial frame does not count: `k` frames plus `p < frameBytes`
      bytes count as `k` frames. */
  lemma {:induction false} PartialFrameDropped(k: nat, p: nat, frameBytes: int)
    requires frameBytes > 0 && p < frameBytes
    ensures FramesIn(k * frameBytes + p, frameBytes) == k
  {
    var q := FramesIn(k * frameBytes + p, frameBytes);
    assert (q - k) * frameBytes == q * frameBytes - k * frameBytes;
    LessThanOneMultiple(q - k, frameBytes);
    assert (k - q) * frameBytes == k * frameBytes - q * frameBytes;
    LessThanOneMultiple(k - q, frameBytes);
  }

  /** The clock advances as more frames are written and as the device frees
      more of its buffer. */
  lemma {:induction false} ClockMonotone(fw1: int, fw2: int, capacity: int, free1: int, free2: int, frameBytes: int, rate: int)
    requires frameBytes > 0 && rate > 0 && fw1 <= fw2 && free1 <= free2
    ensures OutputTime(fw1, capacity, free1, frameBytes, rate) <= OutputTime(fw2, capacity, free2, frameBytes, rate)
  {
    QuotMonotone(capacity - free2, capacity - free1, frameBytes);
    var e1 := fw1 - Quot(capacity - free1, frameBytes);
    var e2 := fw2 - Quot(capacity - free2, frameBytes);
    assert e1 * 1000 <= e2 * 1000;
    QuotMonotone(e1 * 1000, e2 * 1000, rate);
  }

  /** Directly after a seek to `time` with the device buffer empty, the clock
      reads at most `time`, and at 1000 Hz or more, less than one millisecond
      short of it. */
  lemma {:induction false} FlushedClock(time: int, capacity: int, frameBytes: int, rate: int)
    requires time >= 0 && frameBytes > 0 && rate > 0
    ensures OutputTime(FlushFrames(time, rate), capacity, capacity, frameBytes, rate) <= time
    ensures rate >= 1000 ==> time - 1 <= OutputTime(FlushFrames(time, rate), capacity, capacity, frameBytes, rate)
  {
    var fw := FlushFrames(time, rate);
    assert OutputTime(fw, capacity, capacity, frameBytes, rate) == Quot(fw * 1000, rate);
    assert fw * 1000 <= time * rate;
    QuotMonotone(fw * 1000, time * rate, rate);
    QuotOfMultiple(time, rate);
    if rate >= 1000 {
      assert time * rate < fw * 1000 + 1000;
      assert (time - 1) * rate == time * rate - rate;
      QuotMonotone((time - 1) * rate, fw * 1000, rate);
      QuotOfMultiple(time - 1, rate);
    }
  }
}
