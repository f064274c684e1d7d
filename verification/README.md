# Analog control: running average, quantisation and bank routing

A Dafny model of the `Analog` class of the Control-Surface library: one
potentiometer read on every polling cycle. Each `refresh` passes the raw
sample through a replaceable mapping function. When averaging is on, the
result then goes through a ring-buffer running average. It is quantised
from 10 to 7 bits with `>> 3`. Only when that 7-bit value differs from the
last one sent does the control emit one MIDI Control Change. The message
goes to the base (channel, controller) pair, or to an alternate pair while
bank mode is on and the bank switch reads LOW.

The model is functional: immutable datatypes and pure functions.

- `running_average.dfy`, module `RunningAverage`: the averaging state
  (`avValues`, `avLen`, `avSum`, `avIndex`, `avCount`) as the datatype
  `Filter`, with its ring invariant `Valid`. `Configure` models
  `Analog::average` and `Push` models `Analog::runningAverage`. The
  predicate `Tracks(f, h)` relates a filter to the history `h` of the values
  pushed into it. Read from the write index, the buffer holds the zeros not
  yet overwritten followed by the last `min(|h|, len)` values. From that,
  every push returns the integer mean of exactly that sliding window.
- `analog_control.dfy`, module `AnalogControl`: the control itself
  (`Analog`) and its operations. The hardware becomes data. The analog
  sample and the bank-switch level are parameters of `Refresh`. Pin modes
  are a map from pin to `Input` / `InputPullup`. The MIDI sender is an
  append-only log of `ControlChange(channel, controller, value)` events.
  The mode map and the log together form the `Board`; `Sys` pairs a
  control with its board. `Run` and `Trace` apply `Refresh` over a
  sequence of samples.
- `analog_properties.dfy`, module `AnalogProperties`: properties that
  relate several operations or many cycles. These cover change
  suppression, bank routing, the configuration no-ops, the 7-bit bound and
  the sliding-window mean seen through `refresh`.

The header `Analog.h` is not part of this model, and the constructor in
`src/Analog.cpp` sets only the pin, controller and channel. The initial
values of the other fields are therefore assumed, and `AnalogControl.New`
writes them out. The assumptions are: all averaging fields zero, `oldVal`
0 and bank mode off. Only the identity mapping is backed by the source, in
the comment on the mapping call in `src/Analog.cpp`.

## Model

| member | source | states |
|---|---|---|
| `RunningAverage.Configure` | src/Analog.cpp:18-25 | A length of 0 or 1, or an already configured filter, leaves the filter unchanged. Otherwise the buffer is exactly `length` zeros and the sum, index and count are 0. The ring invariant is kept. |
| `RunningAverage.Push` | src/Analog.cpp:70-79 | One running-average step keeps the ring invariant: the sum equals the sum of the buffer, the index is below the length and the count is at most the length. The length is unchanged and the new value sits at the old index. The index advances by one and wraps to 0. The count grows only while it is below the length and is then at least 1. The result is the integer quotient of the sum by the count. |
| `RunningAverage.Advance` | src/Analog.cpp:75-76 | Incrementing the index and taking it modulo the length wraps to 0 exactly at the length, and otherwise adds one. |
| `RunningAverage.Quotient` | src/Analog.cpp:79 | The unsigned division `avSum / avCount` is the largest q with q * count <= sum. |
| `RunningAverage.SumUpdate` | src/Analog.cpp:72-74 | Subtracting the evicted entry and adding the new one keeps the running sum equal to the sum of the updated buffer. |
| `RunningAverage.ElementAtMostSum` | src/Analog.cpp:72 | The entry being evicted never exceeds the running sum, so the unsigned subtraction does not wrap. |
| `RunningAverage.RotatePush` | src/Analog.cpp:73-76 | Writing at the index and advancing it drops the oldest entry of the buffer read oldest-first and appends the new value. |
| `RunningAverage.ConfigureTracks` | src/Analog.cpp:18-25 | Enabling averaging with a length of at least 2 on a fresh control yields a filter that tracks the empty history. |
| `RunningAverage.TracksSum` | src/Analog.cpp:72-74 | On a filter that tracks history h, the running sum is the sum of the last min(n, len) values of h. |
| `RunningAverage.PushTracks` | src/Analog.cpp:70-79 | A push keeps the filter tracking the history extended by the new value. It returns the integer mean of the last min(n, len) values, dividing by the count during ramp-up rather than by the length. |
| `RunningAverage.PushBounded` | src/Analog.cpp:70-79 | If every value pushed so far and the new value are at most m, the average returned is at most m. |
| `RunningAverage.MeanBound` | src/Analog.cpp:79 | The integer mean of values that are all at most m is at most m. |
| `RunningAverage.RunningMeans` | src/Analog.cpp:70-79 | Feeding x1..xn into a fresh filter of length L gives, at step i, the integer mean of the last min(i, L) inputs: a sliding window, not a lifetime average. |
| `AnalogControl.New` | src/Analog.cpp:4-9 | The constructor stores pin, controller and channel. Averaging and bank mode are off, the last value sent is 0 and the mapping is the identity. |
| `AnalogControl.Average` | src/Analog.cpp:18-25 | `average` changes only the averaging state, as `Configure` describes. |
| `AnalogControl.SetMap` | src/Analog.cpp:46-49 | `map` replaces the mapping function and changes nothing else. |
| `AnalogControl.Bank` | src/Analog.cpp:51-59 | `bank` enables bank mode and stores the pin, alternate controller and channel. It puts that pin in INPUT_PULLUP and changes nothing else. |
| `AnalogControl.DetachBank` | src/Analog.cpp:61-68 | `detachBank` leaves bank mode off. When bank mode was on it returns the switch pin to INPUT. When bank mode was off it changes nothing. |
| `AnalogControl.Destroy` | src/Analog.cpp:11-16 | The destructor returns the switch pin to INPUT when bank mode is still on and leaves pin modes alone otherwise. |
| `AnalogControl.Quantise` | src/Analog.cpp:35 | The 7-bit value v truncates: 8v <= input < 8v + 8. An input in [0, 1023] gives a value in [0, 127]. |
| `AnalogControl.Message` | src/Analog.cpp:38-41 | The message carries the new value. It goes to the alternate channel and controller plus offsets exactly when bank mode is on and the switch reads LOW, and to the base pair plus offsets otherwise. `BankRouting` and `NoBankIgnoresSwitch` state both cases through `Refresh`. |
| `AnalogControl.Smooth` | src/Analog.cpp:31-34 | Without averaging the mapped value passes through unchanged. With averaging it goes through one running-average step. The averaging state stays valid either way. |
| `AnalogControl.Refresh` | src/Analog.cpp:27-44 | One polling cycle keeps the averaging state valid and leaves setup and pin modes alone. Afterwards `oldVal` equals the new value. The log is unchanged exactly when the value equals the last one sent. Otherwise exactly one Control Change is appended, carrying the new value and routed by bank mode and switch level. Without averaging the value is the quantised mapped sample. |
| `AnalogControl.Trace` | src/Analog.cpp:35 | The value computed by each polling cycle, one per sample; its last entry is the value the whole run ends with. |
| `AnalogControl.Run` | src/Analog.cpp:27-44 | Repeated polling keeps the averaging state valid, never changes setup or pin modes, and only appends to the log. |
| `AnalogProperties.AverageOnce` | src/Analog.cpp:20-24 | Once a length has been set, a second `average` call returns the control unchanged, so the length never changes again. |
| `AnalogProperties.AverageTooShort` | src/Analog.cpp:20-21 | `average(0)` and `average(1)` change nothing, so averaging stays off on a fresh control. |
| `AnalogProperties.BankThenDetach` | src/Analog.cpp:51-68 | `bank` followed by `detachBank` leaves bank mode off, the switch pin in INPUT and the log untouched. |
| `AnalogProperties.DetachBankIdempotent` | src/Analog.cpp:61-68 | A second `detachBank` changes nothing. |
| `AnalogProperties.DestroyAfterDetach` | src/Analog.cpp:11-16 | After `detachBank` the destructor changes no pin mode. |
| `AnalogProperties.QuantiseExamples` | src/Analog.cpp:35 | 1023 gives 127, 8 gives 1, 7 gives 0, and 0 gives 0. |
| `AnalogProperties.QuantiseMonotone` | src/Analog.cpp:35 | Quantisation preserves the order of its inputs. |
| `AnalogProperties.RepeatIsSilent` | src/Analog.cpp:36-43 | A refresh whose quantised value equals the previous refresh's leaves the board untouched. |
| `AnalogProperties.NewFirstSampleBelowEightIsSilent` | src/Analog.cpp:35-43 | Under the assumed initial `oldVal` of 0, the first refresh of a new control sends nothing when its sample is below 8, so it quantises to 0. |
| `AnalogProperties.SameSampleTwiceWithoutAveraging` | src/Analog.cpp:29-43 | Without averaging, two refreshes of the same sample send at most one message in total, and the second sends none. |
| `AnalogProperties.NoBankIgnoresSwitch` | src/Analog.cpp:38-41 | With bank mode off, the result of a refresh does not depend on the switch level. Every message goes to the base channel and controller plus offsets. |
| `AnalogProperties.BankRouting` | src/Analog.cpp:38-41 | With bank mode on, a changed value goes to the alternate pair plus offsets when the switch reads LOW, and to the base pair plus offsets when it reads HIGH. |
| `AnalogProperties.MapBeforeQuantise` | src/Analog.cpp:29-35 | After `map(fn)`, a refresh without averaging computes the quantised `fn(raw)`. |
| `AnalogProperties.RunSendsOnChanges` | src/Analog.cpp:36-43 | The number of messages a run sends equals the number of positions where its quantised value differs from the value before it, starting from `oldVal`. |
| `AnalogProperties.RefreshMean` | src/Analog.cpp:29-35 | With averaging on, one refresh extends the filter's history by the mapped sample. The value computed is the quantised integer mean of the last min(n, len) mapped samples. |
| `AnalogProperties.RunMean` | src/Analog.cpp:29-35 | Over a whole run with averaging on, the last value computed is the quantised mean of the last min(n, len) mapped samples. The filter keeps tracking the extended history. |
| `AnalogProperties.RunNoBankBase` | src/Analog.cpp:38-41 | With bank mode off, every message any run of polling cycles sends goes to the base channel and controller plus offsets, whatever the switch reads. |
| `AnalogProperties.RunAfterDetach` | src/Analog.cpp:61-68 | `detachBank` sends nothing itself, and every message of any later run goes to the base pair plus offsets. |
| `AnalogProperties.IdentityMapped` | src/Analog.cpp:30 | Under the default identity mapping every sample maps to a non-negative value, and the mapped values are the raw samples. |
| `AnalogProperties.FreshRunMean` | src/Analog.cpp:18-35 | A new control given `average(L)` with L >= 2 ends any non-empty run with the quantised integer mean of the last min(n, L) raw samples. |
| `AnalogProperties.RefreshInRange` | src/Analog.cpp:29-35 | Mapped samples in [0, 1023] give a value in [0, 127], with or without averaging. |

## Left out

- `analogRead`, `digitalRead` and `pinMode`: the sample and the switch level are parameters of `Refresh`, and pin modes are an abstract map. The source reads the switch only when bank mode is on, and that read has no effect the model could observe.
- `USBMidiController.send`, the MIDI transport and the message encoding: sending appends an event to the log.
- `malloc`, `memset` and `free`: the buffer is a sequence, so the buffer release in the destructor has no counterpart.
- The widths of `uint8_t` and `unsigned int`. Channel and controller plus offset do not wrap at 256. The offsets are the parameter `Offsets`, because their declarations live outside `src/Analog.cpp`.
- RunningAverage.Push: `avSum` is an unbounded natural. A 16-bit `unsigned int` could not hold the sum of more than 64 full-scale samples; the model does not capture that wrap-around.
- AnalogControl.Refresh: requires the mapping to return a non-negative value for the sample. The conversion of a negative `int` result to `unsigned int` is not modelled.
- AnalogControl.Quantise: written as division by 8. For the non-negative values involved this equals the source's unsigned `>> 3`, and no bit-vector lemma is stated.
- AnalogControl.New: the initial values that `Analog.h` would give are assumed, not taken from the source. The assumed values are `avLen`, `avSum`, `avIndex` and `avCount` 0, `oldVal` 0 and `bankEnabled` false. The `oldVal` choice matters: a new control's first sample that quantises to 0 sends nothing (`AnalogProperties.NewFirstSampleBelowEightIsSilent`). Any other initial `oldVal` would make it send.
- `src/MIDI_Outputs/NoteButtonLatching.hpp`: a constructor that forwards to `MIDIButtonLatching`. That base class is not part of this model, and the forwarding has no logic of its own.
