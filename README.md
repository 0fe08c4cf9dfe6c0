# QtMultimedia audio output: a Dafny model

This project models the core of the QtMultimedia output plugin of Audacious
(`src/qtaudio/qtaudio.cc`). The plugin takes PCM audio from the player and
hands it to a Qt audio device. Its core is small integer arithmetic on a few
process-wide variables:

- **Format negotiation.** The player's sample format is looked up in the fixed
  table `FormatMap`. The matching entry gives the bytes per channel sample,
  and with the rate, the channel count and the configured buffer length in
  milliseconds it gives the device buffer size.
- **Frame accounting.** `open_audio` resets the count of frames written.
  `write_audio` adds the whole frames of each write. `flush` (a seek) sets the
  count from the target time. `pause` leaves it alone.
- **The clock.** `output_time` is frames written, minus the whole frames still
  queued in the device, converted to milliseconds.
- **Waiting.** `period_wait` polls until the device has free space. `drain`
  polls until the device buffer is empty.
- **Volume.** The left/right volume is kept in the configuration store. The
  device gain is derived from the louder channel, and is silence at 0.

Files:

- `cint.dfy` (module `CInt`): C's integer division, which truncates toward
  zero, with its characterisation and the lemmas the other modules use.
- `formats.dfy` (module `Formats`): the table, the lookup, and the
  bytes-per-channel and buffer-size formulas.
- `clock.dfy` (module `Clock`): frame counting, the seek position and the
  `output_time` formula, with their properties.
- `volume.dfy` (module `Volume`): the store's volume keys, defaults and gain.
- `sink.dfy` (module `QtAudio`): class `Sink`. It holds the plugin's
  variables (`chan`, `rate`, `bytesPerChannel`, `bufferSize`,
  `framesWritten`) and the state of the device instance. `isOpen` stands for
  `output_instance != nullptr`. The device is reduced to what the plugin
  reads from it: its buffer size (`capacity`), its free bytes (`bytesFree`,
  which the device changes as it plays), whether it is suspended, and its
  gain. The methods are the plugin's entry points. `Session` is a client that
  drives one session end to end: open, write, wait, pause, seek, clock,
  drain, close.

Two details of the code that the model follows as written:

- The buffer size is bytes per channel × channels × frames
  (`src/qtaudio/qtaudio.cc:171`). It is not bytes per frame × channels.
- The waits do not sleep for 50 ms. `fifty_ms` is passed as an absolute
  deadline that is long past, so each timed wait returns at once. Only the
  exit conditions of the waits are modelled.

## Model

| member | source | states |
|---|---|---|
| CInt.Quot | src/qtaudio/qtaudio.cc:235 | C's `/` with a positive divisor: the quotient times the divisor lies within one divisor of the dividend, on the dividend's side of zero (truncation toward zero) |
| Formats.FindFrom | src/qtaudio/qtaudio.cc:150-157 | a found entry carries the requested code and is one of the entries from `i` on |
| Formats.FindFromFirstMatch | src/qtaudio/qtaudio.cc:150-157 | the search finds nothing exactly when no entry from `i` on has the code; otherwise it returns the first entry with the code |
| Formats.Lookup | src/qtaudio/qtaudio.cc:148-163 | a found entry carries the requested code and is 16 or 32 bits wide |
| Formats.LookupInTable | src/qtaudio/qtaudio.cc:150-163 | a found entry is a row of `FormatMap`; the lookup fails exactly when no row carries the code |
| Formats.FormatMapCodesDistinct | src/qtaudio/qtaudio.cc:108-118 | no format code appears twice in the table |
| Formats.UnsupportedFormats | src/qtaudio/qtaudio.cc:159-163 | the lookup rejects exactly the 8- and 24-bit formats and accepts every 16-bit, 32-bit and float format |
| Formats.LookupEntry | src/qtaudio/qtaudio.cc:150-157 | looking up the code of any table row returns that row |
| Formats.TableBytesPerChannel | src/qtaudio/qtaudio.cc:170 | for every table entry the padding term vanishes: bytes per channel is `sample_size / 8`, 2 for 16-bit and 4 for 32-bit entries |
| Formats.BytesPerChannel | src/qtaudio/qtaudio.cc:170 | bytes per channel is `sample_size / 8`, plus one byte of padding exactly when at least 8 bits are left over a multiple of 16 |
| Formats.BufferCapacity | src/qtaudio/qtaudio.cc:171 | the buffer size is never negative for non-negative inputs |
| Formats.CapacityIsWholeFrames | src/qtaudio/qtaudio.cc:171 | the buffer holds a whole number of frames, whose playing time is at most the configured milliseconds and less than one frame short of them |
| Formats.CapacityExample | src/qtaudio/qtaudio.cc:170-171 | signed 16-bit stereo at 44100 Hz with 500 ms gives an 88200-byte buffer |
| Clock.FramesIn | src/qtaudio/qtaudio.cc:235 | a write of `len >= 0` bytes counts a non-negative number of frames whose bytes fit in `len`, with less than one frame left over; a negative length counts none forward |
| Clock.PartialFrameDropped | src/qtaudio/qtaudio.cc:235 | `k` frames plus a partial frame count as exactly `k` frames |
| Clock.FlushFrames | src/qtaudio/qtaudio.cc:281 | for `time >= 0` the seek position is the whole frames played in `time` ms at `rate`: non-negative, lasting at most `time` ms and less than one frame short of it |
| Clock.OutputTime | src/qtaudio/qtaudio.cc:255-256 | the clock never reads more than frames written × 1000 / rate, and equals it when the device buffer is empty |
| Clock.ClockMonotone | src/qtaudio/qtaudio.cc:255-256 | the clock does not go back when more frames are written or the device frees more of its buffer |
| Clock.FlushedClock | src/qtaudio/qtaudio.cc:281 | right after a seek to `t >= 0` with nothing queued the clock reads at most `t`, and at rates of 1000 Hz or more at least `t - 1` |
| Volume.GetInt | src/qtaudio/qtaudio.cc:82-85 | a stored value wins; an absent volume key reads as its registered default 100; any other absent key reads 0 |
| Volume.StoredVolume | src/qtaudio/qtaudio.cc:126-129 | each channel reads its stored value, or 100 when none is stored (so an empty store reads 100/100) |
| Volume.StoreVolume | src/qtaudio/qtaudio.cc:135-136 | storing a volume adds the two volume keys and changes no other key |
| Volume.VolumeRoundTrip | src/qtaudio/qtaudio.cc:126-136 | reading back a stored volume gives the same left and right values; every other setting reads as before |
| Volume.MaxVolume | src/qtaudio/qtaudio.cc:133 | the louder channel: at least both volumes and equal to one of them |
| Volume.GainFor | src/qtaudio/qtaudio.cc:133-140 | the gain is silence exactly when the louder channel is at 0 |
| Volume.GainRange | src/qtaudio/qtaudio.cc:140 | volume 100 is unity gain; volumes 1 to 100 give an exponent in (-2, 0], rising with the louder channel |
| QtAudio.Sink.constructor | src/qtaudio/qtaudio.cc:92-98 | the plugin starts with all counters zero and no device |
| QtAudio.Sink.Open | src/qtaudio/qtaudio.cc:146-197 | an unsupported format returns false with nothing changed; a supported one sets `chan`, `rate`, bytes per channel and the buffer size, and zeroes the frame count; a device refusal then returns false with the device state as it was; success creates a device with that buffer size, empty and running, and reapplies the stored volume |
| QtAudio.Sink.Configure | src/qtaudio/qtaudio.cc:167-173 | after a successful lookup: sets `chan` and `rate`, bytes per channel (2 or 4) and a non-negative buffer size from the entry, and zeroes the frame count |
| QtAudio.Sink.Start | src/qtaudio/qtaudio.cc:190-194 | creates the device with a buffer of `buffer_size` bytes, empty and running, and reapplies the stored volume to it |
| QtAudio.Sink.Close | src/qtaudio/qtaudio.cc:199-207 | drops the device and changes nothing else |
| QtAudio.Sink.BufferFree | src/qtaudio/qtaudio.cc:209-217 | returns the device's free bytes, between 0 and its buffer size, and changes nothing |
| QtAudio.Sink.PeriodWait | src/qtaudio/qtaudio.cc:219-227 | exits only when the device reports free space; every reading before that was 0 |
| QtAudio.Sink.Write | src/qtaudio/qtaudio.cc:229-238 | the frame count grows by exactly the whole frames in `len` bytes and never shrinks for `len >= 0`; nothing else changes |
| QtAudio.Sink.Drain | src/qtaudio/qtaudio.cc:240-249 | exits only when the device buffer is completely free; every reading before that was short of it; right after a seek it returns at once |
| QtAudio.Sink.OutputTime | src/qtaudio/qtaudio.cc:251-260 | the clock formula on the current state, never ahead of frames written, and exact when nothing is queued |
| QtAudio.Sink.Pause | src/qtaudio/qtaudio.cc:262-274 | suspends or resumes the device; frame count, format and buffer size stay |
| QtAudio.Sink.Flush | src/qtaudio/qtaudio.cc:276-288 | the frame count becomes `time × rate / 1000` whatever it was, the device restarts empty, and for `time >= 0` the clock then reads at most `time` |
| QtAudio.Sink.GetVolume | src/qtaudio/qtaudio.cc:126-129 | returns the stored left and right volume, 100/100 from an empty store |
| QtAudio.Sink.SetVolume | src/qtaudio/qtaudio.cc:131-144 | stores the volume so that it reads back unchanged, and sets the device gain only while a device exists |

## Left out

- The Qt device objects (`QAudioOutput`, `QIODevice`, `QAudioDeviceInfo`) are not part of this model. The device is an oracle: a buffer size and a free-byte count between 0 and that size. Whether the default device supports the negotiated format is the `accepts` input of `Open`.
- Qt may grant a buffer size other than the one requested. The model assumes it grants exactly `buffer_size`.
- The audio bytes are not modelled. `Write` takes only their length and does not change `bytesFree`. The device's own accounting of free space is the oracle's.
- QtAudio.Sink.Flush: Qt's `reset()` followed by `start()` is modelled as emptying the buffer and clearing the suspension. Qt's actual state machine is not modelled.
- Locking (the pthread mutex), the condition-variable broadcasts and the timed waits are not modelled. They matter only for concurrency.
- QtAudio.Sink.PeriodWait: the source may block forever. The model polls a finite list of device readings, one per timed wait, and reports `ready == false` when the list runs out first.
- QtAudio.Sink.Drain: as for PeriodWait, a drain that would go on forever is reported as `drained == false` once the readings run out.
- Volume.GainFor: the `powf` curve is not evaluated. The gain keeps its base-10 exponent as a real number, so float rounding is not modelled.
- Error dialogs (`aud_ui_show_error`), `AUDDBG` logging, `init`, `about`, the `defaults` registration and `EXPORT aud_plugin_instance` are plugin plumbing and are not modelled.
- The lookup in `open_audio` keeps a pointer to the loop's own copy of the entry, which is gone after the loop. The model returns the matched entry by value.
- Integer widths are not modelled. The `int` and `int64_t` overflow possible in the buffer size, the seek position and the clock is outside the model.
- QtAudio.Sink.Open: requires a positive rate and channel count and a non-negative buffer length. The source passes them through unchecked and later divides by the rate and the frame size.
- The configuration store (libaudcore) is not part of this model. It is a map with a fallback to the plugin's registered defaults, then to 0. The global `output_buffer_size` setting is the `bufferMs` input of `Open`.
- The player's format codes come from libaudcore's `audio.h`, which is not part of this model. They are a datatype, so a code outside that enumeration is not represented.
