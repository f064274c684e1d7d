/**
  Properties of the analog control that relate several operations or many
  polling cycles: the averaging length is fixed once set, the quantised
  value stays a 7-bit MIDI value, repeated values are not re-sent, the bank
  switch only matters while bank mode is on, and with averaging on the
  value sent is the quantised mean of the last samples.
 */
module AnalogProperties {
  import opened RunningAverage
  import opened AnalogControl

  // ---------------------------------------------------------------------
  // Configuration
  // ---------------------------------------------------------------------

  /** Once averaging has been requested, a second request never changes the filter. */
  lemma AverageOnce(a: Analog, first: nat, second: nat)
    requires Valid(a.filter)
    ensures Average(Average(a, first), second) == Average(a, first)
                || (first <= 1 && !Enabled(a.filter))
    ensures Enabled(Average(a, first).filter) ==>
              Average(Average(a, first), second).filter.len == Average(a, first).filter.len
  {
  }

  /** A request for 0 or 1 samples leaves averaging as it was, in particular off on a new control. */
  lemma AverageTooShort(a: Analog, length: nat)
    requires Valid(a.filter)
    requires length <= 1
    ensures Average(a, length) == a
    ensures !Enabled(a.filter) ==> !Enabled(Average(a, length).filter)
  {
  }

  /** detachBank undoes bank: mode off and the switch pin back to plain INPUT, the log untouched. */
  lemma BankThenDetach(s: Sys, bankPin: nat, altController: nat, altChannel: nat)
    ensures var r := DetachBank(Bank(s, bankPin, altController, altChannel));
            && !r.analog.bankEnabled
            && r.board.modes == s.board.modes[bankPin := Input]
            && r.board.log == s.board.log
            && r.analog.altController == altController && r.analog.altChannel == altChannel
  {
  }

  /** A second detachBank changes nothing. */
  lemma DetachBankIdempotent(s: Sys)
    ensures DetachBank(DetachBank(s)) == DetachBank(s)
  {
  }

  /** After detachBank the destructor touches no pin mode. */
  lemma DestroyAfterDetach(s: Sys)
    ensures Destroy(DetachBank(s)) == DetachBank(s).board.modes
  {
  }

  // ---------------------------------------------------------------------
  // Quantisation
  // ---------------------------------------------------------------------

  /** Worked examples: 1023 -> 127, 8 -> 1, 7 -> 0, and 0 -> 0. */
  lemma QuantiseExamples()
    ensures Quantise(1023) == 127 && Quantise(8) == 1 && Quantise(7) == 0 && Quantise(0) == 0
  {
  }

  /** Quantisation never reverses the order of two inputs. */
  lemma QuantiseMonotone(x: nat, y: nat)
    requires x <= y
    ensures Quantise(x) <= Quantise(y)
  {
  }

  // ---------------------------------------------------------------------
  // Change suppression and routing
  // ---------------------------------------------------------------------

  /** A refresh whose quantised value repeats the previous refresh's sends nothing. */
  lemma RepeatIsSilent(s: Sys, raw1: nat, lvl1: Level, raw2: nat, lvl2: Level, off: Offsets)
    requires Valid(s.analog.filter)
    requires 0 <= s.analog.analogMap(raw1) && 0 <= s.analog.analogMap(raw2)
    ensures var r1 := Refresh(s, raw1, lvl1, off);
            var r2 := Refresh(r1, raw2, lvl2, off);
            r2.analog.value == r1.analog.value ==> r2.board == r1.board
  {
  }

  /**
    With the assumed initial `oldVal` of 0, the first refresh of a new control
    sends nothing when its sample quantises to 0.
   */
  lemma NewFirstSampleBelowEightIsSilent(analogPin: nat, controllerNumber: nat, channel: nat,
                                         board: Board, raw: nat, lvl: Level, off: Offsets)
    requires raw < 8
    ensures Refresh(Sys(New(analogPin, controllerNumber, channel), board), raw, lvl, off).board == board
  {
  }

  /** Without averaging, refreshing the same sample twice sends at most one message in all. */
  lemma SameSampleTwiceWithoutAveraging(s: Sys, raw: nat, lvl1: Level, lvl2: Level, off: Offsets)
    requires Valid(s.analog.filter) && !Enabled(s.analog.filter)
    requires 0 <= s.analog.analogMap(raw)
    ensures var r1 := Refresh(s, raw, lvl1, off);
            var r2 := Refresh(r1, raw, lvl2, off);
            && r2.board.log == r1.board.log
            && |r2.board.log| <= |s.board.log| + 1
  {
  }

  /** With bank mode off the switch level makes no difference: the base pair is always used. */
  lemma NoBankIgnoresSwitch(s: Sys, raw: nat, off: Offsets)
    requires Valid(s.analog.filter) && !s.analog.bankEnabled
    requires 0 <= s.analog.analogMap(raw)
    ensures Refresh(s, raw, Low, off) == Refresh(s, raw, High, off)
    ensures forall lvl: Level, v: nat ::
              Message(s.analog, lvl, off, v)
              == ControlChange(s.analog.channel + off.channelOffset,
                               s.analog.controllerNumber + off.addressOffset, v)
  {
  }

  /**
    A change sent while bank mode is on and the switch reads Low goes to
    the alternate pair; with the switch High it goes to the base pair.
   */
  lemma BankRouting(s: Sys, raw: nat, lvl: Level, off: Offsets)
    requires Valid(s.analog.filter) && s.analog.bankEnabled
    requires 0 <= s.analog.analogMap(raw)
    ensures var r := Refresh(s, raw, lvl, off);
            r.analog.value != s.analog.oldVal ==>
              r.board.log == s.board.log +
                [if lvl == Low
                 then ControlChange(s.analog.altChannel + off.channelOffset,
                                    s.analog.altController + off.addressOffset, r.analog.value)
                 else ControlChange(s.analog.channel + off.channelOffset,
                                    s.analog.controllerNumber + off.addressOffset, r.analog.value)]
  {
  }

  /** Mapping is applied to the raw sample before quantisation (averaging off). */
  lemma MapBeforeQuantise(s: Sys, fn: int -> int, raw: nat, lvl: Level, off: Offsets)
    requires Valid(s.analog.filter) && !Enabled(s.analog.filter)
    requires 0 <= fn(raw)
    ensures Refresh(Sys(SetMap(s.analog, fn), s.board), raw, lvl, off).analog.value == Quantise(fn(raw))
  {
  }

  // ---------------------------------------------------------------------
  // Many polling cycles
  // ---------------------------------------------------------------------

  /** The number of messages a run sends is the number of changes in its quantised values. */
  lemma {:induction false} RunSendsOnChanges(s: Sys, samples: seq<Sample>, off: Offsets)
    requires Valid(s.analog.filter)
    requires MapsNonNegative(s.analog.analogMap, samples)
    ensures |Run(s, samples, off).board.log|
            == |s.board.log| + Changes(s.analog.oldVal, Trace(s, samples, off))
    decreases |samples|
  {
    if |samples| > 0 {
      var next := Refresh(s, samples[0].raw, samples[0].bankLevel, off);
      RunSendsOnChanges(next, samples[1..], off);
      var vs := Trace(s, samples, off);
      assert vs[0] == next.analog.value;
      assert vs[1..] == Trace(next, samples[1..], off);
      assert next.analog.oldVal == vs[0];
    }
  }

  /**
    One refresh with averaging on extends the filter's history by the
    mapped sample, and the value computed is the quantised integer mean of
    the last min(n, len) mapped samples.
   */
  lemma {:induction false} RefreshMean(s: Sys, h: seq<nat>, raw: nat, lvl: Level, off: Offsets)
    requires Valid(s.analog.filter) && Tracks(s.analog.filter, h)
    requires 0 <= s.analog.analogMap(raw)
    ensures var r := Refresh(s, raw, lvl, off);
            var h' := h + [s.analog.analogMap(raw) as nat];
            && Tracks(r.analog.filter, h')
            && r.analog.value == Quantise(Mean(Window(h', s.analog.filter.len)))
  {
    PushTracks(s.analog.filter, h, s.analog.analogMap(raw) as nat);
  }

  /** The first polling cycle of a run, as RunMean needs it. */
  lemma {:induction false} RunMeanStep(s: Sys, h: seq<nat>, samples: seq<Sample>, off: Offsets)
    requires Valid(s.analog.filter) && Tracks(s.analog.filter, h)
    requires |samples| > 0 && MapsNonNegative(s.analog.analogMap, samples)
    ensures var next := Refresh(s, samples[0].raw, samples[0].bankLevel, off);
            var h' := h + [s.analog.analogMap(samples[0].raw) as nat];
            && Valid(next.analog.filter)
            && Tracks(next.analog.filter, h')
            && next.analog.filter.len == s.analog.filter.len
            && next.analog.value == Quantise(Mean(Window(h', s.analog.filter.len)))
            && MapsNonNegative(next.analog.analogMap, samples[1..])
            && h' + Mapped(next.analog.analogMap, samples[1..]) == h + Mapped(s.analog.analogMap, samples)
            && Run(s, samples, off) == Run(next, samples[1..], off)
  {
    var next := Refresh(s, samples[0].raw, samples[0].bankLevel, off);
    var x: nat := s.analog.analogMap(samples[0].raw);
    var t := Mapped(s.analog.analogMap, samples[1..]);
    RefreshMean(s, h, samples[0].raw, samples[0].bankLevel, off);
    assert Mapped(s.analog.analogMap, samples) == [x] + t;
    ConcatAssoc(h, [x], t);
  }

  /**
    Over a whole run with averaging on, the last value computed is the
    quantised mean of the last min(n, len) mapped samples of the history
    extended by the run.
   */
  lemma {:induction false} RunMean(s: Sys, h: seq<nat>, samples: seq<Sample>, off: Offsets)
    requires Valid(s.analog.filter) && Tracks(s.analog.filter, h)
    requires MapsNonNegative(s.analog.analogMap, samples)
    ensures Tracks(Run(s, samples, off).analog.filter, h + Mapped(s.analog.analogMap, samples))
    ensures |samples| > 0 ==>
              Run(s, samples, off).analog.value
              == Quantise(Mean(Window(h + Mapped(s.analog.analogMap, samples), s.analog.filter.len)))
    decreases |samples|
  {
    if |samples| == 0 {
      assert h + Mapped(s.analog.analogMap, samples) == h;
    } else {
      var next := Refresh(s, samples[0].raw, samples[0].bankLevel, off);
      var h' := h + [s.analog.analogMap(samples[0].raw) as nat];
      RunMeanStep(s, h, samples, off);
      RunMean(next, h', samples[1..], off);
      if |samples| == 1 {
        assert Run(next, samples[1..], off) == next;
        assert h' + Mapped(next.analog.analogMap, samples[1..]) == h';
      }
    }
  }

  /**
    With bank mode off, every message a run sends goes to the base channel
    and controller plus offsets, whatever the switch reads.
   */
  lemma {:induction false} RunNoBankBase(s: Sys, samples: seq<Sample>, off: Offsets)
    requires Valid(s.analog.filter) && !s.analog.bankEnabled
    requires MapsNonNegative(s.analog.analogMap, samples)
    ensures var log := Run(s, samples, off).board.log;
            forall i :: |s.board.log| <= i < |log| ==>
              log[i] == ControlChange(s.analog.channel + off.channelOffset,
                                      s.analog.controllerNumber + off.addressOffset, log[i].value)
    decreases |samples|
  {
    if |samples| > 0 {
      var next := Refresh(s, samples[0].raw, samples[0].bankLevel, off);
      RunNoBankBase(next, samples[1..], off);
      assert Run(s, samples, off) == Run(next, samples[1..], off);
    }
  }

  /** After detachBank, every message of any later run uses the base pair plus offsets. */
  lemma RunAfterDetach(s: Sys, samples: seq<Sample>, off: Offsets)
    requires Valid(s.analog.filter)
    requires MapsNonNegative(s.analog.analogMap, samples)
    ensures var d := DetachBank(s);
            var log := Run(d, samples, off).board.log;
            && d.board.log == s.board.log
            && forall i :: |s.board.log| <= i < |log| ==>
                 log[i] == ControlChange(s.analog.channel + off.channelOffset,
                                         s.analog.controllerNumber + off.addressOffset, log[i].value)
  {
    RunNoBankBase(DetachBank(s), samples, off);
  }

  /** The raw analog samples of a run, in order. */
  function Raws(samples: seq<Sample>): (xs: seq<nat>)
    ensures |xs| == |samples|
    ensures forall i :: 0 <= i < |samples| ==> xs[i] == samples[i].raw
  {
    seq(|samples|, i requires 0 <= i < |samples| => samples[i].raw)
  }

  /** Under an identity mapping the mapped values are the raw samples. */
  lemma {:induction false} IdentityMapped(fn: int -> int, samples: seq<Sample>)
    requires forall x :: fn(x) == x
    ensures MapsNonNegative(fn, samples)
    ensures Mapped(fn, samples) == Raws(samples)
    decreases |samples|
  {
    if |samples| > 0 {
      IdentityMapped(fn, samples[1..]);
      assert Raws(samples) == [samples[0].raw] + Raws(samples[1..]);
    }
  }

  /**
    A freshly constructed control with averaging of length L sends, after a
    non-empty run, the quantised integer mean of the last min(n, L) raw
    samples.
   */
  lemma FreshRunMean(analogPin: nat, controllerNumber: nat, channel: nat, length: nat,
                     board: Board, samples: seq<Sample>, off: Offsets)
    requires length >= 2 && |samples| > 0
    ensures var a := Average(New(analogPin, controllerNumber, channel), length);
            && MapsNonNegative(a.analogMap, samples)
            && Run(Sys(a, board), samples, off).analog.value
               == Quantise(Mean(Window(Raws(samples), length)))
  {
    var a := Average(New(analogPin, controllerNumber, channel), length);
    ConfigureTracks(New(analogPin, controllerNumber, channel).filter, length);
    IdentityMapped(a.analogMap, samples);
    RunMean(Sys(a, board), [], samples, off);
    assert [] + Raws(samples) == Raws(samples);
  }

  /** Every value in xs is at most 1023, the top of the 10-bit range. */
  ghost predicate TenBit(xs: seq<nat>)
  {
    forall i :: 0 <= i < |xs| ==> xs[i] <= 1023
  }

  /**
    With mapped samples in [0, 1023], the value a refresh computes is a
    7-bit MIDI value, with or without averaging.
   */
  lemma {:induction false} RefreshInRange(s: Sys, h: seq<nat>, raw: nat, lvl: Level, off: Offsets)
    requires Valid(s.analog.filter)
    requires Enabled(s.analog.filter) ==> Tracks(s.analog.filter, h) && TenBit(h)
    requires 0 <= s.analog.analogMap(raw) <= 1023
    ensures Refresh(s, raw, lvl, off).analog.value <= 127
  {
    if Enabled(s.analog.filter) {
      PushBounded(s.analog.filter, h, s.analog.analogMap(raw) as nat, 1023);
    }
  }
}
