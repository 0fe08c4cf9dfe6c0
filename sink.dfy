/** The output plugin's session state and its operations. The Qt device is
    reduced to what the plugin reads from it: its buffer size, its free bytes
    (which the device changes as it plays), whether it is suspended, and the
    gain last set on it. */
module QtAudio {
  import opened CInt
  import opened Formats
  import opened Clock
  import opened Volume

  class Sink {
    // the plugin's own session variables
    var chan: int
    var rate: int
    var bytesPerChannel: int
    var bufferSize: int
    var framesWritten: int
    /** Whether an output device instance exists. */
    var isOpen: bool

    // the device instance, meaningful while isOpen
    var capacity: int
    var bytesFree: int
    var suspended: bool
    var gain: Gain

    /** The plugin's section of the configuration store. */
    var settings: Settings

    ghost predicate Valid()
      reads this
    {
      && 0 <= bytesFree <= capacity
      && (isOpen ==> chan > 0 && rate > 0 && bytesPerChannel in {2, 4})
    }

    /** Bytes per frame: one sample for each channel. */
    function FrameBytes(): int
      reads this
    {
      bytesPerChannel * chan
    }

    /** The process starts with every counter zero and no device; the store
        keeps whatever it held before. */
    constructor (store: Settings)
      ensures Valid() && !isOpen
      ensures chan == 0 && rate == 0 && bytesPerChannel == 0 && bufferSize == 0 && framesWritten == 0
      ensures settings == store
    {
      chan, rate, bytesPerChannel, bufferSize, framesWritten := 0, 0, 0, 0, 0;
      isOpen := false;
      capacity, bytesFree, suspended, gain := 0, 0, false, Silent;
      settings := store;
    }

    /** Negotiates `format` and, when the device accepts it (`accepts`),
        creates a device with a buffer of `bufferMs` milliseconds. */
    method Open(format: AudFormat, rate': int, chan': int, bufferMs: int, accepts: bool) returns (ok: bool)
      requires Valid()
      requires rate' > 0 && chan' > 0 && bufferMs >= 0
      modifies this
      ensures Valid()
      ensures ok <==> Lookup(format).Some? && accepts
      ensures Lookup(format).None? ==> unchanged(this)
      ensures Lookup(format).Some? ==>
                && chan == chan' && rate == rate'
                && bytesPerChannel == BytesPerChannel(Lookup(format).value.sampleSize)
                && bufferSize == BufferCapacity(bytesPerChannel, chan', bufferMs, rate')
                && framesWritten == 0
      ensures !ok ==> isOpen == old(isOpen) && capacity == old(capacity) && bytesFree == old(bytesFree)
                      && suspended == old(suspended) && gain == old(gain) && settings == old(settings)
      ensures ok ==> && isOpen && capacity == bufferSize && bytesFree == bufferSize && !suspended
                     && settings == StoreVolume(old(settings), StoredVolume(old(settings)))
                     && gain == GainFor(StoredVolume(old(settings)))
    {
      var m := Lookup(format);
      if m.None? {
        return false;
      }
      Configure(m.value, rate', chan', bufferMs);
      if !accepts {
        return false;
      }
      Start();
      ok := true;
    }

    /** The part of `Open` after the lookup: the session variables for a
        table entry. */
    method Configure(entry: FormatEntry, rate': int, chan': int, bufferMs: int)
      requires Valid() && entry.sampleSize in {16, 32}
      requires rate' > 0 && chan' > 0 && bufferMs >= 0
      modifies this`chan, this`rate, this`bytesPerChannel, this`bufferSize, this`framesWritten
      ensures Valid()
      ensures chan == chan' && rate == rate' && framesWritten == 0
      ensures bytesPerChannel == BytesPerChannel(entry.sampleSize) && bytesPerChannel in {2, 4}
      ensures bufferSize == BufferCapacity(bytesPerChannel, chan', bufferMs, rate') && bufferSize >= 0
    {
      chan := chan';
      rate := rate';
      bytesPerChannel := BytesPerChannel(entry.sampleSize);
      bufferSize := BufferCapacity(bytesPerChannel, chan, bufferMs, rate);
      framesWritten := 0;
    }

    /** The part of `Open` once the device accepts the format: a new device
        with the buffer size just computed, then the stored volume reapplied. */
    method Start()
      requires Valid() && chan > 0 && rate > 0 && bytesPerChannel in {2, 4} && bufferSize >= 0
      modifies this`isOpen, this`capacity, this`bytesFree, this`suspended, this`settings, this`gain
      ensures Valid()
      ensures isOpen && capacity == bufferSize && bytesFree == bufferSize && !suspended
      ensures settings == StoreVolume(old(settings), StoredVolume(old(settings)))
      ensures gain == GainFor(StoredVolume(old(settings)))
    {
      isOpen := true;
      capacity := bufferSize;
      bytesFree := bufferSize;
      suspended := false;
      var v := GetVolume();
      SetVolume(v);
    }

    /** Stops and discards the device; the session variables stay. */
    method Close()
      requires Valid() && isOpen
      modifies this`isOpen
      ensures Valid() && !isOpen
    {
      isOpen := false;
    }

    /** The device's free space, read without changing anything. */
    method BufferFree() returns (space: int)
      requires Valid() && isOpen
      ensures space == bytesFree
      ensures 0 <= space <= capacity
    {
      space := bytesFree;
    }

    /** Waits until the device has any free space. Each timed wait lets the
        device move on to the next of `readings`; the result `ready` is false
        when the readings run out first, i.e. the wait would go on. */
    method PeriodWait(readings: seq<int>) returns (waits: nat, ready: bool)
      requires Valid() && isOpen
      requires forall i :: 0 <= i < |readings| ==> 0 <= readings[i] <= capacity
      modifies this`bytesFree
      ensures Valid()
      ensures ready <==> bytesFree != 0
      ensures waits <= |readings| && (!ready ==> waits == |readings|)
      ensures bytesFree == ([old(bytesFree)] + readings)[waits]
      ensures forall j :: 0 <= j < waits ==> ([old(bytesFree)] + readings)[j] == 0
    {
      ghost var seen := [bytesFree] + readings;
      waits := 0;
      while bytesFree == 0 && waits < |readings|
        invariant waits <= |readings|
        invariant 0 <= bytesFree <= capacity
        invariant bytesFree == seen[waits]
        invariant forall j :: 0 <= j < waits ==> seen[j] == 0
        decreases |readings| - waits
      {
        bytesFree := readings[waits];
        waits := waits + 1;
      }
      ready := bytesFree != 0;
    }

    /** Counts the whole frames of a `len`-byte write; the bytes themselves
        go to the device. */
    method Write(len: int)
      requires Valid() && isOpen
      modifies this`framesWritten
      ensures Valid()
      ensures framesWritten == old(framesWritten) + FramesIn(len, FrameBytes())
      ensures len >= 0 ==> framesWritten >= old(framesWritten)
    {
      framesWritten := framesWritten + FramesIn(len, FrameBytes());
    }

    /** Waits until the device buffer is empty, polling as PeriodWait does. */
    method Drain(readings: seq<int>) returns (waits: nat, drained: bool)
      requires Valid() && isOpen
      requires forall i :: 0 <= i < |readings| ==> 0 <= readings[i] <= capacity
      modifies this`bytesFree
      ensures Valid()
      ensures drained <==> bytesFree >= capacity
      ensures drained ==> bytesFree == capacity
      ensures waits <= |readings| && (!drained ==> waits == |readings|)
      ensures bytesFree == ([old(bytesFree)] + readings)[waits]
      ensures forall j :: 0 <= j < waits ==> ([old(bytesFree)] + readings)[j] < capacity
      ensures old(bytesFree) == capacity ==> waits == 0 && drained
    {
      ghost var seen := [bytesFree] + readings;
      waits := 0;
      while bytesFree < capacity && waits < |readings|
        invariant waits <= |readings|
        invariant 0 <= bytesFree <= capacity
        invariant bytesFree == seen[waits]
        invariant forall j :: 0 <= j < waits ==> seen[j] < capacity
        decreases |readings| - waits
      {
        bytesFree := readings[waits];
        waits := waits + 1;
      }
      drained := bytesFree >= capacity;
    }

    /** Elapsed playback in milliseconds. */
    method OutputTime() returns (ms: int)
      requires Valid() && isOpen
      ensures ms == Clock.OutputTime(framesWritten, capacity, bytesFree, FrameBytes(), rate)
      ensures ms <= Quot(framesWritten * 1000, rate)
      ensures bytesFree == capacity ==> ms == Quot(framesWritten * 1000, rate)
    {
      ms := Clock.OutputTime(framesWritten, capacity, bytesFree, FrameBytes(), rate);
    }

    /** Suspends or resumes the device; no counter moves. */
    method Pause(pause: bool)
      requires Valid() && isOpen
      modifies this`suspended
      ensures Valid() && suspended == pause
    {
      suspended := pause;
    }

    /** Seeks: the frame count restarts at `time` milliseconds, and the device
        is reset and restarted with nothing queued. */
    method Flush(time: int)
      requires Valid() && isOpen
      modifies this`framesWritten, this`bytesFree, this`suspended
      ensures Valid()
      ensures framesWritten == FlushFrames(time, rate)
      ensures bytesFree == capacity && !suspended
      ensures time >= 0 ==> Clock.OutputTime(framesWritten, capacity, bytesFree, FrameBytes(), rate) <= time
    {
      framesWritten := FlushFrames(time, rate);
      bytesFree := capacity;
      suspended := false;
      if time >= 0 {
        FlushedClock(time, capacity, FrameBytes(), rate);
      }
    }

    /** The stored volume. */
    method GetVolume() returns (v: StereoVolume)
      ensures v == StoredVolume(settings)
      ensures settings == map[] ==> v == StereoVolume(100, 100)
    {
      v := StoredVolume(settings);
    }

    /** Stores the volume and, only while a device exists, sets its gain. */
    method SetVolume(v: StereoVolume)
      requires Valid()
      modifies this`settings, this`gain
      ensures Valid()
      ensures settings == StoreVolume(old(settings), v)
      ensures StoredVolume(settings) == v
      ensures gain == if isOpen then GainFor(v) else old(gain)
    {
      settings := StoreVolume(settings, v);
      VolumeRoundTrip(old(settings), v);
      if isOpen {
        gain := GainFor(v);
      }
    }
  }

  /** A session as the player drives one: signed 16-bit stereo at 44100 Hz
      with 500 ms of buffering, one second of audio written, then a seek. */
  method Session(readings: seq<int>)
    requires forall i :: 0 <= i < |readings| ==> 0 <= readings[i] <= 88200
  {
    var sink := new Sink(map[]);
    var ok := sink.Open(FmtS16LE, 44100, 2, 500, true);
    CapacityExample();
    assert ok && sink.bufferSize == 88200 && sink.FrameBytes() == 4;
    var space := sink.BufferFree();
    assert space == 88200;
    sink.Write(176400);
    PartialFrameDropped(44100, 0, 4);
    assert sink.framesWritten == 44100;
    sink.Write(176403);
    PartialFrameDropped(44100, 3, 4);
    assert sink.framesWritten == 88200;
    var waits, ready := sink.PeriodWait(readings);
    sink.Pause(true);
    assert sink.framesWritten == 88200;
    sink.Flush(2500);
    assert sink.framesWritten == 110250;
    var ms := sink.OutputTime();
    assert ms == 2500;
    var drainWaits, drained := sink.Drain(readings);
    assert drainWaits == 0 && drained;
    var v := sink.GetVolume();
    assert v == StereoVolume(100, 100);
    sink.Close();
  }
}
