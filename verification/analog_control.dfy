/**
  One analog control (class Analog): a potentiometer sampled on every
  polling cycle, optionally smoothed, quantised to a 7-bit MIDI value and
  sent as a Control Change when that value changes, to a base or an
  alternate (channel, controller) pair chosen by a bank switch.

  The hardware is not part of this model. The analog sample and the level
  of the bank switch are parameters of Refresh; pin modes are a map from
  pin to mode; the MIDI sender is an append-only log of events. Both live
  in a Board next to the control's own state.
 */
module AnalogControl {
  import opened RunningAverage

  datatype PinMode = Input | InputPullup

  /** Logic level of a digital pin; the bank switch pulls its pin Low when on. */
  datatype Level = Low | High

  /** One Control Change message as handed to the MIDI sender. */
  datatype Event = ControlChange(channel: nat, controller: nat, value: nat)

  /** The channel and address offsets added to every message sent. */
  datatype Offsets = Offsets(channelOffset: nat, addressOffset: nat)

  /** The world outside the control: digital pin modes and the MIDI output log. */
  datatype Board = Board(modes: map<nat, PinMode>, log: seq<Event>)

  datatype Analog = Analog(
    analogPin: nat,
    controllerNumber: nat,
    channel: nat,
    analogMap: int -> int,
    filter: Filter,
    value: nat,
    oldVal: nat,
    bankEnabled: bool,
    bankPin: nat,
    altController: nat,
    altChannel: nat)

  datatype Sys = Sys(analog: Analog, board: Board)

  /** One polling cycle's inputs: the analog sample and the bank switch level. */
  datatype Sample = Sample(raw: nat, bankLevel: Level)

  /** Everything a polling cycle leaves alone: identity, mapping and bank setup. */
  ghost predicate SameSetup(a: Analog, b: Analog)
  {
    && a.analogPin == b.analogPin
    && a.controllerNumber == b.controllerNumber
    && a.channel == b.channel
    && a.analogMap == b.analogMap
    && a.bankEnabled == b.bankEnabled
    && a.bankPin == b.bankPin
    && a.altController == b.altController
    && a.altChannel == b.altChannel
    && a.filter.len == b.filter.len
  }

  /**
    The constructor: it stores the pin, controller and channel and touches
    no pin mode. Averaging and bank mode start off, the last value sent is
    0 and the mapping is the identity.
   */
  function New(analogPin: nat, controllerNumber: nat, channel: nat): (a: Analog)
    ensures Valid(a.filter)
    ensures !Enabled(a.filter) && !a.bankEnabled && a.oldVal == 0
    ensures a.analogPin == analogPin && a.controllerNumber == controllerNumber && a.channel == channel
    ensures forall x :: a.analogMap(x) == x
  {
    Analog(analogPin, controllerNumber, channel, x => x, Disabled(), 0, 0, false, 0, 0, 0)
  }

  /** Analog::average: configure the averaging buffer; nothing else changes. */
  function Average(a: Analog, length: nat): (r: Analog)
    requires Valid(a.filter)
    ensures Valid(r.filter)
    ensures r.filter == Configure(a.filter, length)
    ensures r.(filter := a.filter) == a
  {
    a.(filter := Configure(a.filter, length))
  }

  /** Analog::map: replace the mapping applied to every later raw sample; nothing else changes. */
  function SetMap(a: Analog, fn: int -> int): (r: Analog)
    ensures r.analogMap == fn
    ensures r.(analogMap := a.analogMap) == a
  {
    a.(analogMap := fn)
  }

  /**
    Analog::bank: enable bank mode with the given switch pin and alternate
    controller and channel, and put the switch pin in INPUT_PULLUP.
   */
  function Bank(s: Sys, bankPin: nat, altController: nat, altChannel: nat): (r: Sys)
    ensures r.analog.bankEnabled
    ensures r.analog.bankPin == bankPin
    ensures r.analog.altController == altController && r.analog.altChannel == altChannel
    ensures r.board.modes == s.board.modes[bankPin := InputPullup]
    ensures r.board.log == s.board.log
    ensures r.analog.(bankEnabled := s.analog.bankEnabled, bankPin := s.analog.bankPin,
                      altController := s.analog.altController, altChannel := s.analog.altChannel)
            == s.analog
  {
    Sys(s.analog.(bankEnabled := true, bankPin := bankPin,
                  altController := altController, altChannel := altChannel),
        s.board.(modes := s.board.modes[bankPin := InputPullup]))
  }

  /**
    Analog::detachBank: when bank mode is on, turn it off and return the
    switch pin to plain INPUT; otherwise do nothing.
   */
  function DetachBank(s: Sys): (r: Sys)
    ensures !r.analog.bankEnabled
    ensures !s.analog.bankEnabled ==> r == s
    ensures s.analog.bankEnabled ==>
              && r.analog == s.analog.(bankEnabled := false)
              && r.board.modes == s.board.modes[s.analog.bankPin := Input]
              && r.board.log == s.board.log
  {
    if s.analog.bankEnabled then
      Sys(s.analog.(bankEnabled := false),
          s.board.(modes := s.board.modes[s.analog.bankPin := Input]))
    else s
  }

  /**
    The pin-mode effect of the destructor: a switch pin still in bank mode
    goes back to plain INPUT. Releasing the buffer has no counterpart here.
   */
  function Destroy(s: Sys): (modes: map<nat, PinMode>)
    ensures s.analog.bankEnabled ==> modes == s.board.modes[s.analog.bankPin := Input]
    ensures !s.analog.bankEnabled ==> modes == s.board.modes
  {
    if s.analog.bankEnabled then s.board.modes[s.analog.bankPin := Input] else s.board.modes
  }

  /** 10-bit to 7-bit quantisation, `input >> 3`: a truncating division by 8. */
  function Quantise(input: nat): (v: nat)
    ensures 8 * v <= input < 8 * v + 8
    ensures input <= 1023 ==> v <= 127
  {
    input / 8
  }

  /**
    The message for a changed value: the alternate pair when bank mode is on
    and the switch reads Low, the base pair otherwise, offsets added.
   */
  function Message(a: Analog, bankLevel: Level, off: Offsets, value: nat): (e: Event)
    ensures e.value == value
    ensures a.bankEnabled && bankLevel == Low ==>
              e.channel == a.altChannel + off.channelOffset && e.controller == a.altController + off.addressOffset
    ensures !a.bankEnabled || bankLevel == High ==>
              e.channel == a.channel + off.channelOffset && e.controller == a.controllerNumber + off.addressOffset
  {
    if a.bankEnabled && bankLevel == Low then
      ControlChange(a.altChannel + off.channelOffset, a.altController + off.addressOffset, value)
    else
      ControlChange(a.channel + off.channelOffset, a.controllerNumber + off.addressOffset, value)
  }

  /** The mapped sample after the running average, when averaging is on. */
  function Smooth(f: Filter, input: nat): (r: Pushed)
    requires Valid(f)
    ensures Valid(r.filter)
    ensures r.filter.len == f.len
    ensures !Enabled(f) ==> r == Pushed(f, input)
    ensures Enabled(f) ==> r == Push(f, input)
  {
    if Enabled(f) then Push(f, input) else Pushed(f, input)
  }

  /**
    Analog::refresh: read, map, average (when enabled), quantise; then, only
    if the quantised value differs from the last one sent, send one Control
    Change routed by the bank switch and remember the value.
   */
  function Refresh(s: Sys, raw: nat, bankLevel: Level, off: Offsets): (r: Sys)
    requires Valid(s.analog.filter)
    requires 0 <= s.analog.analogMap(raw)
    ensures Valid(r.analog.filter)
    ensures SameSetup(r.analog, s.analog)
    ensures r.board.modes == s.board.modes
    ensures r.analog.oldVal == r.analog.value
    ensures !Enabled(s.analog.filter) ==>
              r.analog.value == Quantise(s.analog.analogMap(raw)) && r.analog.filter == s.analog.filter
    ensures r.analog.value == s.analog.oldVal <==> r.board.log == s.board.log
    ensures r.analog.value != s.analog.oldVal <==>
              r.board.log == s.board.log + [Message(s.analog, bankLevel, off, r.analog.value)]
  {
    var a := s.analog;
    var input: nat := a.analogMap(raw);
    var smoothed := Smooth(a.filter, input);
    var value := Quantise(smoothed.average);
    if value != a.oldVal then
      Sys(a.(filter := smoothed.filter, value := value, oldVal := value),
          s.board.(log := s.board.log + [Message(a, bankLevel, off, value)]))
    else
      Sys(a.(filter := smoothed.filter, value := value), s.board)
  }

  /** Every sample maps to a value the unsigned input variable can hold. */
  predicate MapsNonNegative(fn: int -> int, samples: seq<Sample>)
    decreases |samples|
  {
    |samples| == 0 || (0 <= fn(samples[0].raw) && MapsNonNegative(fn, samples[1..]))
  }

  /** The mapped values that successive polling cycles compute, in order. */
  function Mapped(fn: int -> int, samples: seq<Sample>): (xs: seq<nat>)
    requires MapsNonNegative(fn, samples)
    ensures |xs| == |samples|
    decreases |samples|
  {
    if |samples| == 0 then [] else [fn(samples[0].raw) as nat] + Mapped(fn, samples[1..])
  }

  /** Successive polling cycles, one per sample. */
  function Run(s: Sys, samples: seq<Sample>, off: Offsets): (r: Sys)
    requires Valid(s.analog.filter)
    requires MapsNonNegative(s.analog.analogMap, samples)
    ensures Valid(r.analog.filter)
    ensures SameSetup(r.analog, s.analog)
    ensures r.board.modes == s.board.modes
    ensures s.board.log <= r.board.log
    ensures |samples| > 0 ==> r.analog.oldVal == r.analog.value
    decreases |samples|
  {
    if |samples| == 0 then s
    else
      var next := Refresh(s, samples[0].raw, samples[0].bankLevel, off);
      Run(next, samples[1..], off)
  }

  /** The quantised value each polling cycle computes, in order. */
  function Trace(s: Sys, samples: seq<Sample>, off: Offsets): (vs: seq<nat>)
    requires Valid(s.analog.filter)
    requires MapsNonNegative(s.analog.analogMap, samples)
    ensures |vs| == |samples|
    ensures |samples| > 0 ==> vs[|vs| - 1] == Run(s, samples, off).analog.value
    decreases |samples|
  {
    if |samples| == 0 then []
    else
      var next := Refresh(s, samples[0].raw, samples[0].bankLevel, off);
      [next.analog.value] + Trace(next, samples[1..], off)
  }

  /** How many entries of vs differ from the one before, starting from prev. */
  function Changes(prev: nat, vs: seq<nat>): nat
    decreases |vs|
  {
    if |vs| == 0 then 0
    else (if vs[0] != prev then 1 else 0) + Changes(vs[0], vs[1..])
  }
}
