/** The TM1638 LED/key controller driver: one SPI bus shared by three commands (write the
    display configuration, read the four key bytes, write the sixteen segment bytes), an
    arbiter that queues requests as bits of a mask, and an SPI interrupt that moves the
    active command on by one byte per call and starts the next pending one when it ends.

    The arbiter is specified twice: as functions on an Engine value (Started, Requested,
    AfterIsr), about which the protocol lemmas are stated, and as the class Tm1638, whose
    methods change its fields in place and are proved to do what those functions say. */
module TM1638 {
  import opened StdInt
  import opened Project
  import opened Timer

  // TM1638 command bytes and their fields.
  const CmdData: bv8 := 0x40
  const CmdAddress: bv8 := 0xC0
  const CmdDisplay: bv8 := 0x80
  const DataWrite: bv8 := 0x00
  const DataRead: bv8 := 0x02
  const DataIncr: bv8 := 0x00
  const AddressMask: bv8 := 0x0F
  const DisplayBright: bv8 := 0x07
  const DisplayOn: bv8 := 0x08

  // Limits from the driver's header.
  const MaxBrightness: bv8 := 7
  const MaxDigit: int := 9
  const MaxValue: int := 15

  // Command identifiers, one bit each, as kept in pending_command and active_command.
  const Idle: bv8 := 0
  const WriteConfig: bv8 := 1
  const ReadKeys: bv8 := 2
  const WriteSegments: bv8 := 4

  /** The byte clocked out while the keys are read in. */
  const Dummy: bv8 := 0xFF

  /** _config starts as display on at half of the maximum brightness. */
  const InitialConfig: bv8 := CmdDisplay | DisplayOn | (MaxBrightness / 2)

  /** Handler identities of the two timer events. */
  const KeysHandler: nat := 1
  const SegmentsHandler: nat := 2

  /** The command bytes that are not a single constant. */
  const ReadCommand: bv8 := CmdData | DataRead | DataIncr
  const WriteCommand: bv8 := CmdData | DataWrite | DataIncr
  const AddressCommand: bv8 := CmdAddress | (0 & AddressMask)

  predicate IsKind(k: bv8)
  {
    k == WriteConfig || k == ReadKeys || k == WriteSegments
  }

  // The operations on command masks, each named once.

  /** mask | kind */
  function With(mask: bv8, kind: bv8): bv8
  {
    mask | kind
  }

  /** mask & ~kind */
  function Without(mask: bv8, kind: bv8): bv8
  {
    mask & !kind
  }

  /** mask & kind is nonzero */
  predicate Has(mask: bv8, kind: bv8)
  {
    mask & kind != 0
  }

  /** No bit beyond the three command bits is set. */
  predicate KindBitsOnly(mask: bv8)
  {
    mask & 0xF8 == 0
  }

  /** p & ~(p - 1), in 8-bit arithmetic: the lowest set bit of p. */
  function LowestBit(p: bv8): (r: bv8)
    ensures r & p == r
    ensures r == 0 <==> p == 0
    ensures r & (r - 1) == 0
    ensures r != 0 ==> p & (r - 1) == 0
  {
    p & !(p - 1)
  }

  /** Setting a command bit keeps a mask to command bits, cannot be undone by setting it
      again, and is undone by clearing it when no other bit was set. */
  lemma WithKind(mask: bv8, kind: bv8)
    requires KindBitsOnly(mask) && IsKind(kind)
    ensures KindBitsOnly(With(mask, kind)) && Has(With(mask, kind), kind)
    ensures With(With(mask, kind), kind) == With(mask, kind)
    ensures KindBitsOnly(Without(With(mask, kind), kind))
    ensures Has(With(mask, kind), kind) && Without(With(0, kind), kind) == 0
  {
  }

  /** From a mask of command bits, the lowest bit is the command of highest priority:
      config before keys before segments. */
  lemma LowestKind(mask: bv8)
    requires KindBitsOnly(mask)
    ensures LowestBit(mask) ==
              if Has(mask, WriteConfig) then WriteConfig
              else if Has(mask, ReadKeys) then ReadKeys
              else if Has(mask, WriteSegments) then WriteSegments
              else Idle
    ensures mask != 0 ==> IsKind(LowestBit(mask))
    ensures KindBitsOnly(Without(mask, LowestBit(mask)))
    ensures mask == 0 ==> LowestBit(mask) == 0 && Without(mask, LowestBit(mask)) == 0
  {
  }

  /** What the driver does to the hardware, in order: STB, SPDR writes, the MOSI pin
      direction and the SPI interrupt enable. */
  datatype Signal = StbLow | StbHigh | Send(byte: bv8) | MosiToInput | MosiToOutput | SpieOn | SpieOff

  /** The driver's state. busy is the TM1638_EV_BUSY bit of GPIOR0, spie the SPIE bit of
      SPCR, stbLow the STB line, mosiInput the MOSI pin turned round for reading; cursor is
      the data pointer, as an index into keys or segments; bus logs every Signal;
      keysInterval and segmentsInterval are keys_update_interval and
      segments_update_interval. */
  datatype Engine = Engine(
    pending: bv8, active: bv8, state: uint8, cursor: nat,
    busy: bool, spie: bool, stbLow: bool, mosiInput: bool,
    config: bv8, keys: seq<bv8>, segments: seq<bv8>, bus: seq<Signal>,
    keysInterval: uint32, segmentsInterval: uint32)

  /** The states the driver can be in between two requests or interrupts. */
  predicate EngineOk(e: Engine)
  {
    |e.keys| == 4 && |e.segments| == 16 &&
    (e.active == Idle || IsKind(e.active)) &&
    (e.busy <==> e.active != Idle) &&
    e.spie == e.busy && e.stbLow == e.busy &&
    (!e.busy ==> e.pending == 0) &&
    KindBitsOnly(e.pending) &&
    (e.mosiInput <==> (e.active == ReadKeys && e.state >= 1)) &&
    (e.active == WriteConfig ==> e.state == 0) &&
    (e.active == ReadKeys ==> e.state <= 4 && e.cursor == if e.state == 0 then 0 else e.state - 1) &&
    (e.active == WriteSegments ==> e.state <= 17 && e.cursor == if e.state == 0 then 0 else e.state - 1)
  }

  /** The first byte of each command: _config, the read data command, the write data
      command. */
  function FirstByte(config: bv8, kind: bv8): bv8
  {
    if kind == WriteConfig then config
    else if kind == ReadKeys then ReadCommand
    else WriteCommand
  }

  /** __TM1638_write_config, __TM1638_read_keys, __TM1638_write_segments: if the bus is
      free, take it, clear the kind's pending bit, lower STB, send the first byte, make the
      kind active at state 0 (the two data commands also reset the cursor) and enable the
      SPI interrupt; if the bus is busy, do nothing. */
  function Started(e: Engine, kind: bv8): Engine
  {
    if e.busy then e
    else e.(busy := true, pending := Without(e.pending, kind), stbLow := true,
            bus := e.bus + [StbLow, Send(FirstByte(e.config, kind)), SpieOn],
            active := kind, state := 0,
            cursor := if kind == WriteConfig then e.cursor else 0,
            spie := true)
  }

  /** TM1638_write_config, TM1638_read_keys, TM1638_write_segments: set the kind's pending
      bit, then try to start it. */
  function Requested(e: Engine, kind: bv8): (r: Engine)
    requires EngineOk(e) && IsKind(kind)
    ensures EngineOk(r)
  {
    WithKind(e.pending, kind);
    Started(e.(pending := With(e.pending, kind)), kind)
  }

  /** A command has just released the bus, STB still low, and waits for the tail of the
      interrupt. */
  predicate Released(e: Engine)
  {
    |e.keys| == 4 && |e.segments| == 16 && !e.busy && KindBitsOnly(e.pending) && !e.mosiInput
  }

  /** The key read's case of the switch. */
  function KeysStep(e: Engine, rx: bv8): Engine
    requires e.cursor < |e.keys|
  {
    if e.state == 0 then
      e.(mosiInput := true, bus := e.bus + [MosiToInput, Send(Dummy)])
    else if e.state < 4 then
      e.(keys := e.keys[e.cursor := rx], cursor := e.cursor + 1, bus := e.bus + [Send(Dummy)])
    else
      e.(keys := e.keys[e.cursor := rx], cursor := e.cursor + 1,
         mosiInput := false, bus := e.bus + [MosiToOutput], busy := false)
  }

  /** The segment write's case of the switch. */
  function SegmentsStep(e: Engine): Engine
    requires 1 <= e.state <= 16 ==> e.cursor < |e.segments|
  {
    if e.state == 0 then
      e.(bus := e.bus + [StbHigh, StbLow, Send(AddressCommand)])
    else if e.state <= 16 then
      e.(bus := e.bus + [Send(e.segments[e.cursor])], cursor := e.cursor + 1)
    else
      e.(busy := false)
  }

  /** The switch of the SPI interrupt, then state++ (8-bit). The bus is still held
      afterwards by a command that has bytes left, and nothing the interrupt does touches
      the queue, the configuration or the segments. */
  function Stepped(e: Engine, rx: bv8): (r: Engine)
    requires EngineOk(e)
    ensures r.busy ==> EngineOk(r)
    ensures !r.busy ==> Released(r)
    ensures r.pending == e.pending && r.config == e.config && r.segments == e.segments
  {
    var s :=
      if e.active == WriteConfig then e.(busy := false)
      else if e.active == ReadKeys then KeysStep(e, rx)
      else if e.active == WriteSegments then SegmentsStep(e)
      else e.(busy := false);
    s.(state := if s.state == 0xFF then 0 else s.state + 1)
  }

  /** The tail of the SPI interrupt: once the bus is free, raise STB, disable the
      interrupt, make the lowest pending kind active, clear its bit and start it. */
  function Dispatched(e: Engine): (r: Engine)
    requires EngineOk(e) || Released(e)
    ensures EngineOk(r)
  {
    if e.busy then e
    else
      var next := LowestBit(e.pending);
      LowestKind(e.pending);
      var r := e.(bus := e.bus + [StbHigh, SpieOff], stbLow := false, spie := false,
                  active := next, pending := Without(e.pending, next));
      if IsKind(next) then Started(r, next) else r
  }

  /** ISR(SPI_STC_vect): one call per byte clocked over the bus; rx is what SPDR holds. */
  function AfterIsr(e: Engine, rx: bv8): (r: Engine)
    requires EngineOk(e)
    ensures EngineOk(r)
  {
    Dispatched(Stepped(e, rx))
  }

  /** A run of interrupts with the bytes rxs arriving, and no request in between. */
  function RunIsr(e: Engine, rxs: seq<bv8>): (r: Engine)
    requires EngineOk(e)
    ensures EngineOk(r)
    decreases |rxs|
  {
    if |rxs| == 0 then e else RunIsr(AfterIsr(e, rxs[0]), rxs[1..])
  }

  /** The bus signals for writing the bytes bs in order. */
  function Sends(bs: seq<bv8>): (r: seq<Signal>)
    ensures |r| == |bs| && forall i :: 0 <= i < |bs| ==> r[i] == Send(bs[i])
  {
    if |bs| == 0 then [] else [Send(bs[0])] + Sends(bs[1..])
  }

  // Arbitration.

  /** The completion of a command starts the pending kind of highest priority, config
      before keys before segments, and clears exactly that bit; with nothing pending the
      bus is left idle with STB high and the interrupt off. */
  lemma DispatchPriority(e: Engine)
    requires Released(e)
    ensures Dispatched(e).active ==
              if Has(e.pending, WriteConfig) then WriteConfig
              else if Has(e.pending, ReadKeys) then ReadKeys
              else if Has(e.pending, WriteSegments) then WriteSegments
              else Idle
    ensures Dispatched(e).pending == Without(e.pending, Dispatched(e).active)
    ensures e.pending == 0 ==>
              Dispatched(e) == e.(bus := e.bus + [StbHigh, SpieOff], stbLow := false, spie := false, active := Idle)
    ensures e.pending != 0 ==>
              Dispatched(e).bus ==
                e.bus + [StbHigh, SpieOff, StbLow, Send(FirstByte(e.config, Dispatched(e).active)), SpieOn]
  {
    LowestKind(e.pending);
  }

  /** While the bus is busy a request only sets its pending bit. */
  lemma RequestWhileBusy(e: Engine, kind: bv8)
    requires EngineOk(e) && IsKind(kind) && e.busy
    ensures Requested(e, kind) == e.(pending := e.pending | kind)
  {
  }

  /** Requests of one kind made while busy collapse into one pending bit, hence into one
      transfer. */
  lemma RequestsCoalesce(e: Engine, kind: bv8)
    requires EngineOk(e) && IsKind(kind) && e.busy
    ensures Requested(Requested(e, kind), kind) == Requested(e, kind)
  {
    RequestWhileBusy(e, kind);
    RequestWhileBusy(Requested(e, kind), kind);
  }

  /** Re-requesting the kind that is on the bus queues one more run of it: its bit is
      cleared when it starts, not when it ends. */
  lemma RequestOfActiveQueuesAgain(e: Engine, kind: bv8)
    requires EngineOk(e) && IsKind(kind) && e.busy && e.active == kind
    ensures Has(Requested(e, kind).pending, kind)
    ensures Requested(e, kind).active == kind
  {
    RequestWhileBusy(e, kind);
    WithKind(e.pending, kind);
  }

  /** On a free bus a request starts its command at once: the bus is taken, nothing stays
      pending, STB goes low and the first byte is sent. */
  lemma RequestWhenFree(e: Engine, kind: bv8)
    requires EngineOk(e) && IsKind(kind) && !e.busy
    ensures Requested(e, kind).busy && Requested(e, kind).active == kind
    ensures Requested(e, kind).pending == 0 && Requested(e, kind).state == 0
    ensures Requested(e, kind).bus == e.bus + [StbLow, Send(FirstByte(e.config, kind)), SpieOn]
  {
  }

  /** Only the last step of a command releases the bus: the first interrupt of a config
      write, state 4 of a key read, state 17 of a segment write. Every interrupt moves the
      state on by one. */
  lemma ReleasePoints(e: Engine, rx: bv8)
    requires EngineOk(e) && e.busy
    ensures !Stepped(e, rx).busy <==>
              e.active == WriteConfig ||
              (e.active == ReadKeys && e.state == 4) ||
              (e.active == WriteSegments && e.state == 17)
    ensures Stepped(e, rx).state == e.state + 1
    ensures Stepped(e, rx).busy ==> AfterIsr(e, rx) == Stepped(e, rx)
  {
    if e.active == WriteConfig {
    } else if e.active == ReadKeys {
    } else {
    }
  }

  // One interrupt at a time.

  /** The last interrupt of a command with nothing queued behind it: STB back high, the
      interrupt off, the bus free. */
  lemma LastByteIdle(e: Engine, rx: bv8)
    requires EngineOk(e) && e.pending == 0 && !Stepped(e, rx).busy
    ensures AfterIsr(e, rx) ==
              Stepped(e, rx).(bus := Stepped(e, rx).bus + [StbHigh, SpieOff], stbLow := false,
                              spie := false, active := Idle)
  {
    LowestKind(0);
  }

  /** The first interrupt of a key read turns MOSI round and clocks the first dummy. */
  lemma KeysOpen(e: Engine, rx: bv8)
    requires EngineOk(e) && e.active == ReadKeys && e.state == 0
    ensures AfterIsr(e, rx) == e.(mosiInput := true, bus := e.bus + [MosiToInput, Send(Dummy)], state := 1)
  {
    assert Stepped(e, rx) == e.(mosiInput := true, bus := e.bus + [MosiToInput, Send(Dummy)], state := 1);
  }

  /** In states 1 to 3 of a key read, the byte received is stored and another dummy goes
      out. */
  lemma KeysByte(e: Engine, rx: bv8)
    requires EngineOk(e) && e.active == ReadKeys && 1 <= e.state <= 3
    ensures AfterIsr(e, rx) ==
              e.(keys := e.keys[e.state - 1 := rx], cursor := e.state as nat,
                 bus := e.bus + [Send(Dummy)], state := e.state + 1)
  {
    assert Stepped(e, rx) ==
             e.(keys := e.keys[e.state - 1 := rx], cursor := e.state as nat,
                bus := e.bus + [Send(Dummy)], state := e.state + 1);
  }

  /** State 4 of a key read stores the last byte, turns MOSI back and releases the bus. */
  lemma KeysEnd(e: Engine, rx: bv8)
    requires EngineOk(e) && e.active == ReadKeys && e.state == 4
    ensures Stepped(e, rx) ==
              e.(keys := e.keys[3 := rx], cursor := 4, mosiInput := false,
                 bus := e.bus + [MosiToOutput], busy := false, state := 5)
  {
  }

  /** The first interrupt of a segment write pulses STB and sends the address command. */
  lemma SegmentsOpen(e: Engine, rx: bv8)
    requires EngineOk(e) && e.active == WriteSegments && e.state == 0
    ensures AfterIsr(e, rx) == e.(bus := e.bus + [StbHigh, StbLow, Send(AddressCommand)], state := 1)
  {
    assert Stepped(e, rx) == e.(bus := e.bus + [StbHigh, StbLow, Send(AddressCommand)], state := 1);
  }

  /** In states 1 to 16 of a segment write, the next segment byte goes out. */
  lemma SegmentsByte(e: Engine, rx: bv8)
    requires EngineOk(e) && e.active == WriteSegments && 1 <= e.state <= 16
    ensures AfterIsr(e, rx) ==
              e.(bus := e.bus + [Send(e.segments[e.state - 1])], cursor := e.state as nat,
                 state := e.state + 1)
  {
    assert Stepped(e, rx) ==
             e.(bus := e.bus + [Send(e.segments[e.state - 1])], cursor := e.state as nat,
                state := e.state + 1);
  }

  /** State 17 of a segment write releases the bus. */
  lemma SegmentsEnd(e: Engine, rx: bv8)
    requires EngineOk(e) && e.active == WriteSegments && e.state == 17
    ensures Stepped(e, rx) == e.(busy := false, state := 18)
  {
  }

  /** A config write releases the bus at its first interrupt. */
  lemma ConfigEnd(e: Engine, rx: bv8)
    requires EngineOk(e) && e.active == WriteConfig
    ensures Stepped(e, rx) == e.(busy := false, state := 1)
  {
  }

  // Whole transfers.

  /** One interrupt more, and the rest of the run. */
  lemma RunIsrFirst(e: Engine, rxs: seq<bv8>)
    requires EngineOk(e) && |rxs| > 0
    ensures RunIsr(e, rxs) == RunIsr(AfterIsr(e, rxs[0]), rxs[1..])
  {
  }

  /** A config write alone on the bus: STB low, _config, and one interrupt later STB high
      with the bus free. */
  lemma WriteConfigTransfer(e: Engine, rx: bv8)
    requires EngineOk(e) && !e.busy
    ensures AfterIsr(Requested(e, WriteConfig), rx).bus ==
              e.bus + [StbLow, Send(e.config), SpieOn, StbHigh, SpieOff]
    ensures !AfterIsr(Requested(e, WriteConfig), rx).busy
  {
    var e1 := Requested(e, WriteConfig);
    RequestWhenFree(e, WriteConfig);
    ConfigEnd(e1, rx);
    LastByteIdle(e1, rx);
  }

  /** The key read from state s on: one dummy per remaining state below 4, the received
      bytes stored in order, then MOSI back to output and the bus released. */
  lemma {:induction false} KeysTail(e: Engine, rxs: seq<bv8>)
    requires EngineOk(e) && e.active == ReadKeys && 1 <= e.state <= 4 && e.pending == 0
    requires |rxs| == 5 - e.state
    ensures RunIsr(e, rxs).bus ==
              e.bus + seq(4 - e.state, _ => Send(Dummy)) + [MosiToOutput, StbHigh, SpieOff]
    ensures RunIsr(e, rxs).keys == e.keys[..e.state - 1] + rxs
    ensures !RunIsr(e, rxs).busy
    decreases |rxs|
  {
    if e.state == 4 {
      KeysLast(e, rxs);
    } else {
      var e1 := AfterIsr(e, rxs[0]);
      RunIsrFirst(e, rxs);
      KeysByte(e, rxs[0]);
      KeysTail(e1, rxs[1..]);
      assert e1.keys[..e1.state - 1] == e.keys[..e.state - 1] + [rxs[0]];
      assert e.keys[..e.state - 1] + [rxs[0]] + rxs[1..] == e.keys[..e.state - 1] + rxs;
      assert seq(4 - e.state, _ => Send(Dummy)) == [Send(Dummy)] + seq(4 - e1.state, _ => Send(Dummy));
    }
  }

  /** The interrupt that stores the last key byte ends the read. */
  lemma KeysLast(e: Engine, rxs: seq<bv8>)
    requires EngineOk(e) && e.active == ReadKeys && e.state == 4 && e.pending == 0 && |rxs| == 1
    ensures RunIsr(e, rxs).bus == e.bus + [MosiToOutput, StbHigh, SpieOff]
    ensures RunIsr(e, rxs).keys == e.keys[..3] + rxs
    ensures !RunIsr(e, rxs).busy
  {
    var e1 := AfterIsr(e, rxs[0]);
    RunIsrFirst(e, rxs);
    KeysEnd(e, rxs[0]);
    LastByteIdle(e, rxs[0]);
    assert e1.bus == e.bus + [MosiToOutput, StbHigh, SpieOff];
    assert e1.keys == e.keys[..3] + [rxs[0]];
    assert rxs[1..] == [];
  }

  /** A key read alone on the bus: 0x42 with STB low, MOSI turned to input, four dummies,
      MOSI back to output and STB high, five interrupts in all; the four bytes received
      after the command byte become keys[0..3], in order of arrival. */
  lemma ReadKeysTransfer(e: Engine, rxs: seq<bv8>)
    requires EngineOk(e) && !e.busy && |rxs| == 5
    ensures RunIsr(Requested(e, ReadKeys), rxs).bus ==
              e.bus + [StbLow, Send(0x42), SpieOn, MosiToInput,
                       Send(Dummy), Send(Dummy), Send(Dummy), Send(Dummy),
                       MosiToOutput, StbHigh, SpieOff]
    ensures RunIsr(Requested(e, ReadKeys), rxs).keys == rxs[1..]
    ensures !RunIsr(Requested(e, ReadKeys), rxs).busy
  {
    var e1 := Requested(e, ReadKeys);
    RequestWhenFree(e, ReadKeys);
    assert e1.bus == e.bus + [StbLow, Send(0x42), SpieOn];
    var e2 := AfterIsr(e1, rxs[0]);
    KeysOpen(e1, rxs[0]);
    RunIsrFirst(e1, rxs);
    KeysTail(e2, rxs[1..]);
    assert seq(3, _ => Send(Dummy)) == [Send(Dummy), Send(Dummy), Send(Dummy)];
    assert e2.keys[..0] == [];
  }

  /** The signals for a suffix of bs, one byte split off. */
  lemma SendsFrom(bs: seq<bv8>, i: nat)
    requires i < |bs|
    ensures Sends(bs[i..]) == [Send(bs[i])] + Sends(bs[i + 1..])
  {
    assert bs[i..][1..] == bs[i + 1..];
  }

  /** Appending in two steps or in one. */
  lemma AppendThree(a: seq<Signal>, b: seq<Signal>, c: seq<Signal>, d: seq<Signal>)
    ensures a + b + c + d == a + (b + c) + d
  {
  }

  /** The segment write from state s on: the segment bytes from s - 1 on, in order, then
      STB high and the bus released. */
  lemma {:induction false} SegmentsTail(e: Engine, rxs: seq<bv8>)
    requires EngineOk(e) && e.active == WriteSegments && 1 <= e.state <= 17 && e.pending == 0
    requires |rxs| == 18 - e.state
    ensures RunIsr(e, rxs).bus == e.bus + Sends(e.segments[e.state - 1..]) + [StbHigh, SpieOff]
    ensures RunIsr(e, rxs).segments == e.segments
    ensures !RunIsr(e, rxs).busy
    decreases |rxs|
  {
    RunIsrFirst(e, rxs);
    if e.state == 17 {
      SegmentsEnd(e, rxs[0]);
      LastByteIdle(e, rxs[0]);
      assert rxs[1..] == [];
      assert e.segments[16..] == [];
    } else {
      var e1 := AfterIsr(e, rxs[0]);
      SegmentsByte(e, rxs[0]);
      SegmentsTail(e1, rxs[1..]);
      var i := e.state as nat - 1;
      SendsFrom(e.segments, i);
      AppendThree(e.bus, [Send(e.segments[i])], Sends(e.segments[i + 1..]), [StbHigh, SpieOff]);
    }
  }

  /** A segment write alone on the bus puts exactly 0x40, then (STB pulsed high and low)
      0xC0, then the sixteen segment bytes in order on the bus, in eighteen interrupts. */
  lemma WriteSegmentsTransfer(e: Engine, rxs: seq<bv8>)
    requires EngineOk(e) && !e.busy && |rxs| == 18
    ensures RunIsr(Requested(e, WriteSegments), rxs).bus ==
              e.bus + [StbLow, Send(0x40), SpieOn, StbHigh, StbLow, Send(0xC0)]
                    + Sends(e.segments) + [StbHigh, SpieOff]
    ensures !RunIsr(Requested(e, WriteSegments), rxs).busy
  {
    var e1 := Requested(e, WriteSegments);
    RequestWhenFree(e, WriteSegments);
    assert e1.bus == e.bus + [StbLow, Send(0x40), SpieOn];
    var e2 := AfterIsr(e1, rxs[0]);
    SegmentsOpen(e1, rxs[0]);
    RunIsrFirst(e1, rxs);
    SegmentsTail(e2, rxs[1..]);
    assert e2.segments[0..] == e.segments;
  }

  // The display configuration.

  /** TM1638_enable's update of _config: the display-on bit follows enable, nothing else
      changes. */
  function EnableBits(config: bv8, enable: uint8): (r: bv8)
    ensures r & DisplayOn == (if enable != 0 then DisplayOn else 0)
    ensures r & !DisplayOn == config & !DisplayOn
  {
    (config & !DisplayOn) | (if enable != 0 then DisplayOn else 0)
  }

  /** TM1638_brightness's update of _config: the three brightness bits become
      brightness & 7, nothing else changes. */
  function BrightnessBits(config: bv8, brightness: uint8): (r: bv8)
    ensures r & DisplayBright == (brightness as bv8) & DisplayBright
    ensures r & !DisplayBright == config & !DisplayBright
  {
    (config & !DisplayBright) | ((brightness as bv8) & DisplayBright)
  }

  /** The display command bit survives both updates, and the initial configuration is
      the display command, display on, brightness 3. */
  lemma ConfigUpdatesKeepCommand(config: bv8, x: uint8)
    ensures EnableBits(config, x) & CmdDisplay == config & CmdDisplay
    ensures BrightnessBits(config, x) & CmdDisplay == config & CmdDisplay
    ensures InitialConfig == 0x8B
    ensures InitialConfig & DisplayBright == 3 && InitialConfig & DisplayOn == DisplayOn
  {
    var e := EnableBits(config, x);
    var b := BrightnessBits(config, x);
    assert e & CmdDisplay == (e & !DisplayOn) & CmdDisplay;
    assert b & CmdDisplay == (b & !DisplayBright) & CmdDisplay;
  }

  // The framebuffer: segments_buffer holds 8 little-endian 16-bit planes, one per
  // segment; bit d of plane s lights segment s of digit d.

  /** _digit_segments: the segments of the hex digits 0 to F (bit 0 is segment a). */
  const DigitSegments: seq<bv8> :=
    [0x3F, 0x06, 0x5B, 0x4F, 0x66, 0x6D, 0x7D, 0x07, 0x7F, 0x6F, 0x77, 0x7C, 0x39, 0x5E, 0x79, 0x71]

  /** The segments TM1638_write_digit shows for value: its glyph, or none at all when the
      value is not a hex digit. */
  function Glyph(value: int8): bv8
  {
    if value < 0 || value > MaxValue then 0 else DigitSegments[value]
  }

  /** The 16-bit word at bytes lo, hi, read little-endian. */
  function Plane(lo: bv8, hi: bv8): bv16
  {
    lo as bv16 | (hi as bv16 << 8)
  }

  function Low(w: bv16): bv8
  {
    (w & 0xFF) as bv8
  }

  function High(w: bv16): bv8
  {
    (w >> 8) as bv8
  }

  /** Splitting a word into its bytes and reading them back gives the word, and the
      other way round. */
  lemma PlaneOfBytes(w: bv16)
    ensures Plane(Low(w), High(w)) == w
  {
  }

  lemma BytesOfPlane(lo: bv8, hi: bv8)
    ensures Low(Plane(lo, hi)) == lo && High(Plane(lo, hi)) == hi
  {
  }

  /** digit_mask: bit d of a plane. */
  function DigitMask(d: nat): bv16
    requires d < 16
  {
    (1 as bv16) << d
  }

  /** Bits 0 to 7 of a plane are in its low byte, bits 8 to 15 in its high byte. */
  lemma MaskHalf(d: nat)
    requires d < 16
    ensures d < 8 ==> DigitMask(d) & 0xFF00 == 0
    ensures d >= 8 ==> DigitMask(d) & 0x00FF == 0
  {
  }

  /** Setting or clearing the bits of a mask confined to one byte of a plane keeps the
      other byte. */
  lemma ByteKept(lo: bv8, hi: bv8, mask: bv16, on: bool)
    ensures mask & 0xFF00 == 0 ==> High(WithBit(Plane(lo, hi), mask, on)) == hi
    ensures mask & 0x00FF == 0 ==> Low(WithBit(Plane(lo, hi), mask, on)) == lo
  {
  }

  /** g shifted right s times, one place at a time. */
  function Shr(g: bv8, s: nat): bv8
    decreases s
  {
    if s == 0 then g else Shr(g, s - 1) >> 1
  }

  /** Bit s of g. */
  function Bit8(g: bv8, s: nat): bool
  {
    Shr(g, s) & 0x01 == 0x01
  }

  /** The bits of mask set or cleared in w (the |= and &= ~ by digit_mask). */
  function WithBit(w: bv16, mask: bv16, on: bool): bv16
  {
    if on then w | mask else w & !mask
  }

  /** The bits of mask follow on; the others are those of w. */
  lemma WithBitBits(w: bv16, mask: bv16, on: bool)
    ensures WithBit(w, mask, on) & mask == if on then mask else 0
    ensures WithBit(w, mask, on) & !mask == w & !mask
  {
  }

  /** Splitting a rewritten plane into its two bytes and joining them again gives the bits
      of mask following on and the other bits of the old plane. */
  lemma PlaneBits(lo: bv8, hi: bv8, mask: bv16, on: bool)
    ensures var w := WithBit(Plane(lo, hi), mask, on);
            Plane(Low(w), High(w)) & mask == (if on then mask else 0) &&
            Plane(Low(w), High(w)) & !mask == Plane(lo, hi) & !mask
  {
    var w := WithBit(Plane(lo, hi), mask, on);
    PlaneOfBytes(w);
    WithBitBits(Plane(lo, hi), mask, on);
  }

  /** Plane s of segs with its bit d set to bit s of g. */
  function PlaneWithBit(segs: seq<bv8>, d: nat, g: bv8, s: nat): bv16
    requires |segs| == 16 && d < 16 && s < 8
  {
    WithBit(Plane(segs[2 * s], segs[2 * s + 1]), DigitMask(d), Bit8(g, s))
  }

  /** segs with planes 0 to p - 1 rewritten for glyph g at digit d: in plane s, bit d
      becomes bit s of g. */
  function WithDigitUpTo(segs: seq<bv8>, d: nat, g: bv8, p: nat): (r: seq<bv8>)
    requires |segs| == 16 && d < 16 && p <= 8
    ensures |r| == 16
    decreases p
  {
    if p == 0 then segs
    else
      var w := PlaneWithBit(segs, d, g, p - 1);
      WithDigitUpTo(segs, d, g, p - 1)[2 * (p - 1) := Low(w)][2 * (p - 1) + 1 := High(w)]
  }

  /** The framebuffer after showing glyph g at digit d. */
  function WithDigit(segs: seq<bv8>, d: nat, g: bv8): (r: seq<bv8>)
    requires |segs| == 16 && d < 16
    ensures |r| == 16
  {
    WithDigitUpTo(segs, d, g, |segs| / 2)
  }

  /** One plane more. */
  lemma WithDigitUpToNext(segs: seq<bv8>, d: nat, g: bv8, p: nat)
    requires |segs| == 16 && d < 16 && p < 8
    ensures WithDigitUpTo(segs, d, g, p + 1) ==
              WithDigitUpTo(segs, d, g, p)[2 * p := Low(PlaneWithBit(segs, d, g, p))]
                                          [2 * p + 1 := High(PlaneWithBit(segs, d, g, p))]
  {
  }

  /** The planes below p are rewritten, the others are as they were. */
  lemma {:induction false} WithDigitUpToAt(segs: seq<bv8>, d: nat, g: bv8, p: nat, s: nat)
    requires |segs| == 16 && d < 16 && p <= 8 && s < 8
    ensures s < p ==> WithDigitUpTo(segs, d, g, p)[2 * s] == Low(PlaneWithBit(segs, d, g, s)) &&
                      WithDigitUpTo(segs, d, g, p)[2 * s + 1] == High(PlaneWithBit(segs, d, g, s))
    ensures s >= p ==> WithDigitUpTo(segs, d, g, p)[2 * s] == segs[2 * s] &&
                       WithDigitUpTo(segs, d, g, p)[2 * s + 1] == segs[2 * s + 1]
    decreases p
  {
    if p > 0 {
      WithDigitUpToAt(segs, d, g, p - 1, s);
    }
  }

  /** The two bytes of plane s after WithDigit. */
  lemma WithDigitAt(segs: seq<bv8>, d: nat, g: bv8, s: nat)
    requires |segs| == 16 && d < 16 && s < 8
    ensures WithDigit(segs, d, g)[2 * s] == Low(PlaneWithBit(segs, d, g, s))
    ensures WithDigit(segs, d, g)[2 * s + 1] == High(PlaneWithBit(segs, d, g, s))
  {
    WithDigitUpToAt(segs, d, g, |segs| / 2, s);
  }

  /** After showing g at digit d, bit d of every plane is the matching bit of g. */
  lemma WithDigitPlaneBit(segs: seq<bv8>, d: nat, g: bv8, s: nat)
    requires |segs| == 16 && d < 16 && s < 8
    ensures Plane(WithDigit(segs, d, g)[2 * s], WithDigit(segs, d, g)[2 * s + 1]) & DigitMask(d) ==
              if Bit8(g, s) then DigitMask(d) else 0
  {
    WithDigitAt(segs, d, g, s);
    PlaneBits(segs[2 * s], segs[2 * s + 1], DigitMask(d), Bit8(g, s));
  }

  /** ... and every other bit of every plane is as it was. */
  lemma WithDigitPlaneRest(segs: seq<bv8>, d: nat, g: bv8, s: nat)
    requires |segs| == 16 && d < 16 && s < 8
    ensures Plane(WithDigit(segs, d, g)[2 * s], WithDigit(segs, d, g)[2 * s + 1]) & !DigitMask(d) ==
              Plane(segs[2 * s], segs[2 * s + 1]) & !DigitMask(d)
  {
    WithDigitAt(segs, d, g, s);
    PlaneBits(segs[2 * s], segs[2 * s + 1], DigitMask(d), Bit8(g, s));
  }

  /** Digits 0 to 7 live in the low bytes of the planes, 8 and 9 in the high bytes: the
      other half of the buffer is untouched. */
  lemma WithDigitBytes(segs: seq<bv8>, d: nat, g: bv8, k: nat)
    requires |segs| == 16 && d < 16 && k < 16
    ensures d < 8 && k % 2 == 1 ==> WithDigit(segs, d, g)[k] == segs[k]
    ensures d >= 8 && k % 2 == 0 ==> WithDigit(segs, d, g)[k] == segs[k]
  {
    var s := k / 2;
    WithDigitAt(segs, d, g, s);
    MaskHalf(d);
    ByteKept(segs[2 * s], segs[2 * s + 1], DigitMask(d), Bit8(g, s));
    assert k == 2 * s || k == 2 * s + 1;
  }

  /** write_digit(d, 7) lights segments a, b and c of digit d and no other; an out of
      range value blanks the digit. */
  lemma GlyphExamples()
    ensures Glyph(7) == 0x07
    ensures Bit8(Glyph(7), 0) && Bit8(Glyph(7), 1) && Bit8(Glyph(7), 2)
    ensures !Bit8(Glyph(7), 3) && !Bit8(Glyph(7), 4) && !Bit8(Glyph(7), 5) && !Bit8(Glyph(7), 6) &&
            !Bit8(Glyph(7), 7)
    ensures forall s :: 0 <= s < 8 ==> !Bit8(Glyph(-1), s) && !Bit8(Glyph(16), s)
  {
    forall s | 0 <= s < 8
      ensures !Bit8(Glyph(-1), s) && !Bit8(Glyph(16), s)
    {
      ShrZero(s);
    }
  }

  /** A blank glyph stays blank however far it is shifted. */
  lemma {:induction false} ShrZero(s: nat)
    ensures Shr(0, s) == 0
  {
    if s > 0 {
      ShrZero(s - 1);
    }
  }

  /** One pass of the TM1638_write_digit loop: plane p rewritten from the running glyph
      bits takes the buffer from p planes done to p + 1. */
  lemma PaintStep(before: seq<bv8>, d: nat, glyph: bv8, p: nat, i: nat, cur: seq<bv8>, bits: bv8, mask: bv16)
    requires |before| == 16 && d < 16 && p < 8 && i == 2 * p && mask == DigitMask(d)
    requires cur == WithDigitUpTo(before, d, glyph, p) && bits == Shr(glyph, p)
    ensures cur[i := Low(WithBit(Plane(cur[i], cur[i + 1]), mask, bits & 0x01 == 0x01))]
               [i + 1 := High(WithBit(Plane(cur[i], cur[i + 1]), mask, bits & 0x01 == 0x01))] ==
            WithDigitUpTo(before, d, glyph, p + 1)
    ensures bits >> 1 == Shr(glyph, p + 1)
  {
    WithDigitUpToAt(before, d, glyph, p, p);
    WithDigitUpToNext(before, d, glyph, p);
    assert (bits & 0x01 == 0x01) == Bit8(glyph, p);
    assert WithBit(Plane(cur[i], cur[i + 1]), mask, bits & 0x01 == 0x01) == PlaneWithBit(before, d, glyph, p);
  }

  /** EngineOk constrains the framebuffer only through its length. */
  lemma SegmentsOnly(e: Engine, segs: seq<bv8>)
    requires EngineOk(e) && |segs| == 16
    ensures EngineOk(e.(segments := segs))
  {
  }

  /** The driver. Fields mirror the static variables of the C file and the hardware bits
      it drives; bus is the ghost log of what went over the wire. */
  class Tm1638 {
    var pending: bv8
    var active: bv8
    var state: uint8
    var cursor: nat
    var busy: bool
    var spie: bool
    var stbLow: bool
    var mosiInput: bool
    var config: bv8
    /** keys_buffer, byte by byte (little-endian) */
    const keys: array<bv8>
    /** segments_buffer */
    const segments: array<bv8>
    ghost var bus: seq<Signal>
    var keysUpdateInterval: uint32
    var segmentsUpdateInterval: uint32
    const keysUpdateEvent: TimerEvent
    const segmentsUpdateEvent: TimerEvent

    ghost function Model(): Engine
      reads this, keys, segments
    {
      Engine(pending, active, state, cursor, busy, spie, stbLow, mosiInput,
             config, keys[..], segments[..], bus, keysUpdateInterval, segmentsUpdateInterval)
    }

    ghost predicate Valid()
      reads this, keys, segments
    {
      keys.Length == 4 && segments.Length == 16 && keysUpdateEvent != segmentsUpdateEvent &&
      EngineOk(Model())
    }

    /** The static initialisers: nothing pending or active, the bus free, _config at its
        default, zeroed buffers, and both timer events self-linked with their handlers. */
    constructor ()
      ensures Valid() && fresh(keys) && fresh(segments)
      ensures Model() == Engine(Idle, Idle, 0, 0, false, false, false, false, InitialConfig,
                                [0, 0, 0, 0], seq(16, _ => 0), [], 0, 0)
      ensures fresh(keysUpdateEvent) && fresh(segmentsUpdateEvent)
      ensures keysUpdateEvent.Expired() && keysUpdateEvent.handler == KeysHandler
      ensures segmentsUpdateEvent.Expired() && segmentsUpdateEvent.handler == SegmentsHandler
      ensures keysUpdateEvent.tbtick == 0 && segmentsUpdateEvent.tbtick == 0
    {
      pending, active, state, cursor := Idle, Idle, 0, 0;
      busy, spie, stbLow, mosiInput := false, false, false, false;
      config := InitialConfig;
      keys := new bv8[4](_ => 0);
      segments := new bv8[16](_ => 0);
      bus := [];
      keysUpdateInterval, segmentsUpdateInterval := 0, 0;
      keysUpdateEvent := new TimerEvent(KeysHandler);
      segmentsUpdateEvent := new TimerEvent(SegmentsHandler);
      new;
      assert keys[..] == [0, 0, 0, 0];
      assert segments[..] == seq(16, _ => 0);
    }

    /** The three start routines, told apart by kind. */
    method Start(kind: bv8)
      requires IsKind(kind)
      modifies this
      ensures Model() == Started(old(Model()), kind)
    {
      if !busy {
        var first := if kind == WriteConfig then config
                     else if kind == ReadKeys then ReadCommand
                     else WriteCommand;
        busy, pending, stbLow := true, Without(pending, kind), true;
        bus := bus + [StbLow, Send(first), SpieOn];
        active, state := kind, 0;
        if kind != WriteConfig {
          cursor := 0;
        }
        spie := true;
      }
    }

    /** The three request routines: one atomic step that queues kind and starts it if the
        bus is free. */
    method Request(kind: bv8)
      requires Valid() && IsKind(kind)
      modifies this
      ensures Valid()
      ensures Model() == Requested(old(Model()), kind)
    {
      WithKind(pending, kind);
      pending := With(pending, kind);
      Start(kind);
    }

    /** The READ_KEYS case of the interrupt's switch. */
    method KeysCase(rx: bv8)
      requires keys.Length == 4 && segments.Length == 16 && cursor < 4
      modifies this, keys
      ensures Model() == KeysStep(old(Model()), rx)
    {
      if state == 0 {
        mosiInput := true;
        bus := bus + [MosiToInput, Send(Dummy)];
      } else if state < 4 {
        keys[cursor] := rx;
        cursor := cursor + 1;
        bus := bus + [Send(Dummy)];
      } else {
        keys[cursor] := rx;
        cursor := cursor + 1;
        mosiInput := false;
        bus := bus + [MosiToOutput];
        busy := false;
      }
    }

    /** The WRITE_SEGMENTS case of the interrupt's switch. */
    method SegmentsCase()
      requires segments.Length == 16 && (1 <= state <= 16 ==> cursor < 16)
      modifies this
      ensures Model() == SegmentsStep(old(Model()))
    {
      if state == 0 {
        bus := bus + [StbHigh, StbLow, Send(AddressCommand)];
      } else if state <= 16 {
        bus := bus + [Send(segments[cursor])];
        cursor := cursor + 1;
      } else {
        busy := false;
      }
    }

    /** The tail of the interrupt: once the bus is free, release it and start the
        pending command of highest priority. */
    method Dispatch()
      requires EngineOk(Model()) || Released(Model())
      modifies this
      ensures Model() == Dispatched(old(Model()))
    {
      if !busy {
        bus := bus + [StbHigh, SpieOff];
        stbLow := false;
        spie := false;
        LowestKind(pending);
        active := LowestBit(pending);
        pending := Without(pending, active);
        if IsKind(active) {
          Start(active);
        }
      }
    }

    /** The SPI transfer-complete interrupt; rx is the byte just received. */
    method Isr(rx: bv8)
      requires Valid()
      modifies this, keys
      ensures Valid()
      ensures Model() == AfterIsr(old(Model()), rx)
    {
      ghost var e := Model();
      if active == WriteConfig {
        busy := false;
      } else if active == ReadKeys {
        KeysCase(rx);
      } else if active == WriteSegments {
        SegmentsCase();
      } else {
        busy := false;
      }
      state := if state == 0xFF then 0 else state + 1;
      assert Model() == Stepped(e, rx);
      Dispatch();
    }

    /** TM1638_get_keys: keys_buffer as a little-endian 32-bit word. */
    function GetKeys(): bv32
      requires Valid()
      reads this, keys, segments
    {
      keys[0] as bv32 | (keys[1] as bv32 << 8) | (keys[2] as bv32 << 16) | (keys[3] as bv32 << 24)
    }

    /** Byte i of the key word is keys_buffer[i]: the bytes in arrival order, least
        significant first. */
    lemma GetKeysBytes()
      requires Valid()
      ensures (GetKeys() & 0xFF) as bv8 == keys[0]
      ensures ((GetKeys() >> 8) & 0xFF) as bv8 == keys[1]
      ensures ((GetKeys() >> 16) & 0xFF) as bv8 == keys[2]
      ensures (GetKeys() >> 24) as bv8 == keys[3]
    {
    }

    /** TM1638_enable: update the display-on bit, then request a config write. */
    method Enable(enable: uint8)
      requires Valid()
      modifies this
      ensures Valid()
      ensures Model() == Requested(old(Model()).(config := EnableBits(old(config), enable)), WriteConfig)
    {
      config := EnableBits(config, enable);
      Request(WriteConfig);
    }

    /** TM1638_brightness: update the brightness bits, then request a config write. */
    method Brightness(brightness: uint8)
      requires Valid()
      modifies this
      ensures Valid()
      ensures Model() == Requested(old(Model()).(config := BrightnessBits(old(config), brightness)), WriteConfig)
    {
      config := BrightnessBits(config, brightness);
      Request(WriteConfig);
    }

    /** TM1638_write_digit: show value (a hex digit, anything else blanks) at digit
        position digit, by setting or clearing bit digit in each of the 8 planes. */
    method WriteDigit(digit: uint8, value: int8)
      requires Valid()
      modifies segments
      ensures Valid()
      ensures segments[..] == if digit as int <= MaxDigit then WithDigit(old(segments[..]), digit as nat, Glyph(value))
                              else old(segments[..])
    {
      if digit as int <= MaxDigit {
        ghost var m := Model();
        var mask := DigitMask(digit as nat);
        var glyph: bv8;
        if value < 0 || value > MaxValue {
          glyph := 0x00;
        } else {
          glyph := DigitSegments[value];
        }
        PaintDigit(digit as nat, mask, glyph);
        assert Model() == m.(segments := segments[..]);
        SegmentsOnly(m, segments[..]);
      }
    }

    /** The loop of TM1638_write_digit: plane by plane, the 16-bit word of two
        consecutive buffer bytes gets bit d set or cleared from the next glyph bit. */
    method PaintDigit(d: nat, mask: bv16, glyph: bv8)
      requires segments.Length == 16 && d < 16 && mask == DigitMask(d)
      modifies segments
      ensures segments[..] == WithDigit(old(segments[..]), d, glyph)
    {
      ghost var before := segments[..];
      var bits := glyph;
      var n := ArraySize(segments.Length, 1);
      var i := 0;
      ghost var p := 0;
      while i < n
        invariant n == 16 && i == 2 * p && 0 <= p <= 8
        invariant bits == Shr(glyph, p)
        invariant segments[..] == WithDigitUpTo(before, d, glyph, p)
      {
        ghost var cur := segments[..];
        PaintStep(before, d, glyph, p, i, cur, bits, mask);
        UpdatePlane(i, mask, bits & 0x01 == 0x01);
        bits := bits >> 1;
        i := i + 2;
        p := p + 1;
      }
      assert p == |before| / 2;
    }

    /** One plane of the loop: the little-endian word at segments[i], segments[i + 1]
        with the bits of mask set (on) or cleared. */
    method UpdatePlane(i: nat, mask: bv16, on: bool)
      requires i + 1 < segments.Length
      modifies segments
      ensures segments[..] == old(segments[..])[i := Low(WithBit(Plane(old(segments[i]), old(segments[i + 1])), mask, on))]
                                               [i + 1 := High(WithBit(Plane(old(segments[i]), old(segments[i + 1])), mask, on))]
    {
      ghost var s := segments[..];
      var word := WithBit(Plane(segments[i], segments[i + 1]), mask, on);
      var lo, hi := Low(word), High(word);
      segments[i] := lo;
      segments[i + 1] := hi;
      assert segments[..] == s[i := lo][i + 1 := hi];
    }

    /** The common part of the two timer handlers: queue kind, try to start it, and move
        the event on by one interval (32-bit tick arithmetic); 1 asks for rescheduling. */
    method UpdateHandler(ev: TimerEvent, kind: bv8, interval: uint32) returns (reschedule: int8)
      requires Valid() && IsKind(kind)
      modifies this, ev
      ensures Valid()
      ensures Model() == Requested(old(Model()), kind)
      ensures ev.tbtick as int == (old(ev.tbtick) as int + interval as int) % Modulus32
      ensures ev.next == old(ev.next) && ev.handler == old(ev.handler)
      ensures reschedule == 1
    {
      WithKind(pending, kind);
      pending := With(pending, kind);
      Start(kind);
      ev.tbtick := (ev.tbtick as int + interval as int) % Modulus32;
      reschedule := 1;
    }

    /** keys_update_handler: a key read every keys_update_interval. */
    method KeysUpdateHandler(ev: TimerEvent) returns (reschedule: int8)
      requires Valid()
      modifies this, ev
      ensures Valid()
      ensures Model() == Requested(old(Model()), ReadKeys)
      ensures ev.next == old(ev.next) && ev.handler == old(ev.handler)
      ensures ev.tbtick as int == (old(ev.tbtick) as int + old(keysUpdateInterval) as int) % Modulus32
      ensures reschedule == 1
    {
      reschedule := UpdateHandler(ev, ReadKeys, keysUpdateInterval);
    }

    /** segments_update_handler: a segment write every segments_update_interval. */
    method SegmentsUpdateHandler(ev: TimerEvent) returns (reschedule: int8)
      requires Valid()
      modifies this, ev
      ensures Valid()
      ensures Model() == Requested(old(Model()), WriteSegments)
      ensures ev.next == old(ev.next) && ev.handler == old(ev.handler)
      ensures ev.tbtick as int == (old(ev.tbtick) as int + old(segmentsUpdateInterval) as int) % Modulus32
      ensures reschedule == 1
    {
      reschedule := UpdateHandler(ev, WriteSegments, segmentsUpdateInterval);
    }

    /** The loop of TM1638_init that blanks segments_buffer. */
    method ClearSegments()
      requires segments.Length == 16 && keys.Length == 4
      modifies segments
      ensures Model() == old(Model()).(segments := seq(16, _ => 0))
    {
      var n := ArraySize(segments.Length, 1);
      for i := 0 to n
        invariant n == 16
        invariant forall k :: 0 <= k < i ==> segments[k] == 0
        invariant forall k :: i <= k < 16 ==> segments[k] == old(segments[k])
      {
        segments[i] := 0x00;
      }
      assert segments[..] == seq(16, _ => 0);
    }

    /** TM1638_init: reset the arbiter, write the config, clear and write the segments,
        and set up the timer events. The two out-parameters say whether the key scan and
        the display update are handed to the scheduler. */
    method Init(keysUpdateMs: uint8, segmentsUpdateMs: uint8, fCpu: uint32)
      returns (scheduleKeys: bool, scheduleSegments: bool)
      requires Valid() && !busy && fCpu % 1000 == 0
      modifies this, segments, keysUpdateEvent, segmentsUpdateEvent
      ensures Valid()
      ensures Model() == Requested(Requested(old(Model()), WriteConfig).(segments := seq(16, _ => 0)),
                                   WriteSegments).(keysInterval := keysUpdateInterval,
                                                   segmentsInterval := segmentsUpdateInterval)
      ensures keysUpdateInterval == TbticksFromMs(fCpu, keysUpdateMs)
      ensures segmentsUpdateInterval == TbticksFromMs(fCpu, segmentsUpdateMs)
      ensures scheduleKeys == (keysUpdateMs != 0) && scheduleSegments == (segmentsUpdateMs != 0)
      ensures keysUpdateEvent.tbtick == if scheduleKeys then keysUpdateInterval else old(keysUpdateEvent.tbtick)
      ensures segmentsUpdateEvent.tbtick ==
                if scheduleSegments then keysUpdateInterval / 2 else old(segmentsUpdateEvent.tbtick)
      ensures keysUpdateEvent.next == old(keysUpdateEvent.next) && keysUpdateEvent.handler == old(keysUpdateEvent.handler)
      ensures segmentsUpdateEvent.next == old(segmentsUpdateEvent.next) &&
              segmentsUpdateEvent.handler == old(segmentsUpdateEvent.handler)
    {
      Restart();
      scheduleKeys, scheduleSegments := ScheduleUpdates(keysUpdateMs, segmentsUpdateMs, fCpu);
    }

    /** The first half of TM1638_init: the arbiter reset (a no-op on a free bus), the
        config write, the cleared buffer and the segment write queued behind the config. */
    method Restart()
      requires Valid() && !busy
      modifies this, segments
      ensures Valid()
      ensures Model() == Requested(Requested(old(Model()), WriteConfig).(segments := seq(16, _ => 0)),
                                   WriteSegments)
    {
      ghost var m0 := Model();
      busy := false;
      pending := Idle;
      active := Idle;
      assert Model() == m0;
      Request(WriteConfig);
      ghost var m1 := Model();
      ClearSegments();
      assert Model() == m1.(segments := seq(16, _ => 0));
      Request(WriteSegments);
    }

    /** The second half of TM1638_init: the update intervals, and the first expiry of
        each timer event that is scheduled (the display half a key period after the keys). */
    method ScheduleUpdates(keysUpdateMs: uint8, segmentsUpdateMs: uint8, fCpu: uint32)
      returns (scheduleKeys: bool, scheduleSegments: bool)
      requires fCpu % 1000 == 0 && keysUpdateEvent != segmentsUpdateEvent
      modifies this, keysUpdateEvent, segmentsUpdateEvent
      ensures Model() == old(Model()).(keysInterval := keysUpdateInterval, segmentsInterval := segmentsUpdateInterval)
      ensures keysUpdateInterval == TbticksFromMs(fCpu, keysUpdateMs)
      ensures segmentsUpdateInterval == TbticksFromMs(fCpu, segmentsUpdateMs)
      ensures scheduleKeys == (keysUpdateMs != 0) && scheduleSegments == (segmentsUpdateMs != 0)
      ensures keysUpdateEvent.tbtick == if scheduleKeys then keysUpdateInterval else old(keysUpdateEvent.tbtick)
      ensures segmentsUpdateEvent.tbtick ==
                if scheduleSegments then keysUpdateInterval / 2 else old(segmentsUpdateEvent.tbtick)
      ensures keysUpdateEvent.next == old(keysUpdateEvent.next) && keysUpdateEvent.handler == old(keysUpdateEvent.handler)
      ensures segmentsUpdateEvent.next == old(segmentsUpdateEvent.next) &&
              segmentsUpdateEvent.handler == old(segmentsUpdateEvent.handler)
    {
      keysUpdateInterval := TbticksFromMs(fCpu, keysUpdateMs);
      segmentsUpdateInterval := TbticksFromMs(fCpu, segmentsUpdateMs);
      scheduleKeys := keysUpdateMs != 0;
      if scheduleKeys {
        keysUpdateEvent.tbtick := keysUpdateInterval;
      }
      scheduleSegments := segmentsUpdateMs != 0;
      if scheduleSegments {
        segmentsUpdateEvent.tbtick := keysUpdateInterval / 2;
      }
    }
  }

  /** What TM1638_init leaves behind on a free bus: the config write on the wire, the
      segment write pending behind it, and the buffer cleared. */
  lemma InitOutcome(e: Engine)
    requires EngineOk(e) && !e.busy
    ensures var r := Requested(Requested(e, WriteConfig).(segments := seq(16, _ => 0)), WriteSegments);
            r.active == WriteConfig && r.pending == WriteSegments && r.busy &&
            r.bus == e.bus + [StbLow, Send(e.config), SpieOn] &&
            r.segments == seq(16, _ => 0)
  {
  }

  /** TM1638_init runs with interrupts on, so the one interrupt of the config write may come
      during the clearing loop: the bus is then free again and the segment write starts at
      once instead of waiting, with the same bytes on the wire. */
  lemma InitInterrupted(e: Engine, rx: bv8)
    requires EngineOk(e) && !e.busy
    ensures var r := Requested(AfterIsr(Requested(e, WriteConfig), rx).(segments := seq(16, _ => 0)), WriteSegments);
            r.active == WriteSegments && r.pending == 0 && r.busy && r.state == 0 &&
            r.bus == e.bus + [StbLow, Send(e.config), SpieOn, StbHigh, SpieOff, StbLow, Send(WriteCommand), SpieOn] &&
            r.segments == seq(16, _ => 0)
  {
    var e1 := Requested(e, WriteConfig);
    RequestWhenFree(e, WriteConfig);
    ConfigEnd(e1, rx);
    LastByteIdle(e1, rx);
    var e2 := AfterIsr(e1, rx).(segments := seq(16, _ => 0));
    SegmentsOnly(AfterIsr(e1, rx), seq(16, _ => 0));
    RequestWhenFree(e2, WriteSegments);
  }

  /** Neither requests nor interrupts touch the two update intervals. */
  lemma IntervalsKept(e: Engine, kind: bv8, rx: bv8)
    requires EngineOk(e) && IsKind(kind)
    ensures Requested(e, kind).keysInterval == e.keysInterval
    ensures Requested(e, kind).segmentsInterval == e.segmentsInterval
    ensures AfterIsr(e, rx).keysInterval == e.keysInterval
    ensures AfterIsr(e, rx).segmentsInterval == e.segmentsInterval
  {
  }

  /** ... nor does any run of interrupts. */
  lemma {:induction false} RunIsrKeepsIntervals(e: Engine, rxs: seq<bv8>)
    requires EngineOk(e)
    ensures RunIsr(e, rxs).keysInterval == e.keysInterval
    ensures RunIsr(e, rxs).segmentsInterval == e.segmentsInterval
    decreases |rxs|
  {
    if |rxs| > 0 {
      IntervalsKept(e, WriteConfig, rxs[0]);
      RunIsrKeepsIntervals(AfterIsr(e, rxs[0]), rxs[1..]);
    }
  }
}
