/** The BeagleBone GPIO driver: decoding of the requested header pin
    numbers, claiming pins, the one-time set-up of each GPIO port, the
    output-enable and pad configuration of a claimed pin, and the write and
    read functions that move HAL bits to and from the GPIO data registers.

    Memory-mapped registers are values in the Driver object: the OE register
    of each port, the pad configuration written to the control module (a map
    from the pin's control offset), and the log of writes to the SETDATAOUT
    and CLEARDATAOUT registers. The DATAIN registers are a parameter of the
    read function. HAL exports are fallible external calls whose outcome is
    a parameter. */
module BbGpio {
  import opened Common

  const HEADERS: nat := 2
  const PINS_PER_HEADER: nat := 46
  /** Entries of the input_pins / output_pins arrays: HEADERS * PINS_PER_HEADER. */
  const NUM_SLOTS: nat := 92
  const NUM_LEDS: nat := 4
  const NUM_GPIO_PORTS: nat := 4
  /** Entries of the p8_pins / p9_pins tables, indexed by header pin 1..46. */
  const PIN_TABLE_SIZE: nat := 47

  /** GPIO module base addresses of the AM335x memory map. */
  const GPIO0_START_ADDR: int := 0x44E0_7000
  const GPIO1_START_ADDR: int := 0x4804_C000
  const GPIO2_START_ADDR: int := 0x481A_C000
  const GPIO3_START_ADDR: int := 0x481A_E000

  /** Fields of an AM335x pad configuration register. */
  const PIN_MODE7: bv32 := 7
  const PIN_PULLUD_DISABLED: bv32 := 0x08
  const PIN_PULLUD_ENABLED: bv32 := 0
  const PIN_PULLUP: bv32 := 0x10
  const PIN_PULLDOWN: bv32 := 0
  const PIN_RX_ENABLED: bv32 := 0x20
  const PIN_RX_DISABLED: bv32 := 0

  const NUL: char := '\0'

  /** A pin of expansion header P8 or P9. */
  datatype HeaderPin = HeaderPin(header: int, pin: int)

  /** A bb_gpio_pin record: GPIO port and bit, pad register offset, and the
      mode the pin is claimed in (NUL when free). */
  datatype PinInfo = PinInfo(portNum: int, pinNum: bv5, controlOffset: int, claimed: char)

  datatype DataReg = SetDataOut | ClearDataOut

  datatype RegWrite = RegWrite(port: int, reg: DataReg, mask: bv32)

  // ---------------------------------------------------------------------
  // Pin numbers
  // ---------------------------------------------------------------------

  /** The range test of rtapi_app_main. */
  predicate ValidPinNumber(pin: int) {
    !(pin < 101 || pin > 246 || (pin > 146 && pin < 201))
  }

  predicate IsHeaderPin(hp: HeaderPin) {
    (hp.header == 8 || hp.header == 9) && 1 <= hp.pin <= PINS_PER_HEADER
  }

  /** The module-parameter numbering: P8 pins add 100, P9 pins add 200. */
  function EncodePin(hp: HeaderPin): int {
    (hp.header - 7) * 100 + hp.pin
  }

  /** Decoding of a requested pin number: below 200 is header 8, otherwise
      header 9; anything outside 101..146 and 201..246 is refused. */
  function DecodePin(pin: int): (r: Option<HeaderPin>)
    ensures r.Some? <==> (101 <= pin <= 146 || 201 <= pin <= 246)
    ensures r.Some? ==> IsHeaderPin(r.value) && EncodePin(r.value) == pin
  {
    if !ValidPinNumber(pin) then None
    else if pin < 200 then Some(HeaderPin(8, pin - 100))
    else Some(HeaderPin(9, pin - 200))
  }

  lemma EncodeDecode(hp: HeaderPin)
    requires IsHeaderPin(hp)
    ensures DecodePin(EncodePin(hp)) == Some(hp)
  {
  }

  /** The flat index rtapi_app_main stores a pin under. */
  function FlatIndex(hp: HeaderPin): (i: int)
    requires IsHeaderPin(hp)
    ensures hp.header == 8 ==> 1 <= i <= PINS_PER_HEADER
    ensures hp.header == 9 ==> PINS_PER_HEADER < i <= 2 * PINS_PER_HEADER
  {
    hp.pin + (hp.header - 8) * PINS_PER_HEADER
  }

  /** The pin write_port and read_port look up for flat index i. */
  function PinAtAsWritten(i: int): HeaderPin {
    if i < PINS_PER_HEADER then HeaderPin(8, i) else HeaderPin(9, i - PINS_PER_HEADER)
  }

  /** As written, the pin stored for P8.46 is looked up as P9.0, and P9.46
      is stored one past the end of a NUM_SLOTS-entry array. */
  lemma FlatIndexMisreads()
    ensures PinAtAsWritten(FlatIndex(HeaderPin(8, 46))) == HeaderPin(9, 0)
    ensures !IsHeaderPin(PinAtAsWritten(FlatIndex(HeaderPin(8, 46))))
    ensures FlatIndex(HeaderPin(9, 46)) == NUM_SLOTS
  {
  }

  /** The slot of a header pin in the 92-entry arrays: 0..45 for P8 and
      46..91 for P9. */
  function SlotIndex(hp: HeaderPin): (i: nat)
    requires IsHeaderPin(hp)
    ensures i < NUM_SLOTS
    ensures i == FlatIndex(hp) - 1
  {
    hp.pin - 1 + (hp.header - 8) * PINS_PER_HEADER
  }

  /** The header pin stored in slot i. */
  function SlotPin(i: nat): (hp: HeaderPin)
    requires i < NUM_SLOTS
    ensures IsHeaderPin(hp) && SlotIndex(hp) == i
  {
    if i < PINS_PER_HEADER then HeaderPin(8, i + 1) else HeaderPin(9, i + 1 - PINS_PER_HEADER)
  }

  /** Every header pin is stored in its own slot and read back as itself. */
  lemma SlotRoundTrip(hp: HeaderPin)
    requires IsHeaderPin(hp)
    ensures SlotPin(SlotIndex(hp)) == hp
  {
  }

  lemma SlotsDistinct(a: HeaderPin, b: HeaderPin)
    requires IsHeaderPin(a) && IsHeaderPin(b) && a != b
    ensures SlotIndex(a) != SlotIndex(b)
  {
    SlotRoundTrip(a);
    SlotRoundTrip(b);
  }

  // ---------------------------------------------------------------------
  // Registers
  // ---------------------------------------------------------------------

  /** start_addr_for_port: the base address of GPIO0..GPIO3, -1 otherwise. */
  function StartAddrForPort(port: int): (a: int)
    ensures 0 <= port < NUM_GPIO_PORTS <==> a != -1
    ensures a != -1 ==> a > 0 && a % 0x1000 == 0
  {
    match port
    case 0 => GPIO0_START_ADDR
    case 1 => GPIO1_START_ADDR
    case 2 => GPIO2_START_ADDR
    case 3 => GPIO3_START_ADDR
    case _ => -1
  }

  /** Distinct ports have distinct register blocks. */
  lemma PortBasesDistinct(p: int, q: int)
    requires 0 <= p < q < NUM_GPIO_PORTS
    ensures StartAddrForPort(p) < StartAddrForPort(q)
  {
  }

  /** `1 << b` for a bit position b in 0..31. */
  function Mask(b: bv5): bv32 {
    (1 as bv32) << b
  }

  predicate Bit(x: bv32, b: bv5) {
    x & Mask(b) != 0
  }

  lemma MaskDisjoint(b: bv5, c: bv5)
    requires b != c
    ensures Mask(b) & Mask(c) == 0
  {
  }

  predicate IsInputMode(mode: char) {
    mode == 'I' || mode == 'U' || mode == 'D'
  }

  predicate IsGpioMode(mode: char) {
    mode == 'O' || IsInputMode(mode)
  }

  /** The OE register after configure_pin: a 0 bit enables the output. */
  function OeAfter(oe: bv32, b: bv5, mode: char): (r: bv32)
    ensures mode == 'O' ==> !Bit(r, b)
    ensures IsInputMode(mode) ==> Bit(r, b)
    ensures !IsGpioMode(mode) ==> r == oe
  {
    if mode == 'O' then oe & !Mask(b)
    else if IsInputMode(mode) then oe | Mask(b)
    else oe
  }

  /** configure_pin changes no other bit of the OE register. */
  lemma OeAfterKeepsOtherBits(oe: bv32, b: bv5, c: bv5, mode: char)
    requires c != b
    ensures Bit(OeAfter(oe, b, mode), c) == Bit(oe, c)
  {
    var r := OeAfter(oe, b, mode);
    if mode == 'O' {
      assert r == oe & !Mask(b);
      ClearBitKeeps(oe, b, c);
    } else if IsInputMode(mode) {
      assert r == oe | Mask(b);
      SetBitKeeps(oe, b, c);
    } else {
      assert r == oe;
    }
  }

  /** Clearing bit b keeps every other bit ... */
  lemma ClearBitKeeps(x: bv32, b: bv5, c: bv5)
    requires c != b
    ensures Bit(x & !Mask(b), c) == Bit(x, c)
  {
    MaskDisjoint(b, c);
    ClearKeepsDisjoint(x, Mask(b), Mask(c));
  }

  /** ... and so does setting it. */
  lemma SetBitKeeps(x: bv32, b: bv5, c: bv5)
    requires c != b
    ensures Bit(x | Mask(b), c) == Bit(x, c)
  {
    MaskDisjoint(b, c);
    SetKeepsDisjoint(x, Mask(b), Mask(c));
  }

  /** Helper: clearing the bits of m keeps those of a disjoint mask n. */
  lemma ClearKeepsDisjoint(x: bv32, m: bv32, n: bv32)
    requires m & n == 0
    ensures (x & !m) & n == x & n
  {
  }

  /** Helper: setting the bits of m keeps those of a disjoint mask n. */
  lemma SetKeepsDisjoint(x: bv32, m: bv32, n: bv32)
    requires m & n == 0
    ensures (x | m) & n == x & n
  {
  }

  /** The pad configuration configure_pin writes for a GPIO mode. */
  function PadConfig(mode: char): (v: bv32)
    requires IsGpioMode(mode)
    ensures v & 7 == 7
    ensures (v & PIN_RX_ENABLED != 0) <==> IsInputMode(mode)
    ensures (v & PIN_PULLUD_DISABLED == 0) <==> (mode == 'U' || mode == 'D')
    ensures (v & PIN_PULLUP != 0) <==> mode == 'U'
  {
    match mode
    case 'O' => PIN_MODE7 | PIN_PULLUD_DISABLED | PIN_RX_DISABLED
    case 'I' => PIN_MODE7 | PIN_PULLUD_DISABLED | PIN_RX_ENABLED
    case 'U' => PIN_MODE7 | PIN_PULLUD_ENABLED | PIN_PULLUP | PIN_RX_ENABLED
    case 'D' => PIN_MODE7 | PIN_PULLUD_ENABLED | PIN_PULLDOWN | PIN_RX_ENABLED
  }

  /** The register write that drives GPIO bit b of `port` to `level`. */
  function DriveWrite(port: int, b: bv5, level: bool): RegWrite {
    RegWrite(port, if level then SetDataOut else ClearDataOut, Mask(b))
  }

  /** The DATAOUT register of a port after a write to its SETDATAOUT or
      CLEARDATAOUT register: the 1 bits of the mask are set or cleared. */
  function DataOutAfter(dataOut: bv32, w: RegWrite): bv32 {
    if w.reg == SetDataOut then dataOut | w.mask else dataOut & !w.mask
  }

  /** A drive write sets the pin's output bit to the level ... */
  lemma DriveWriteSetsLevel(dataOut: bv32, port: int, b: bv5, level: bool)
    ensures Bit(DataOutAfter(dataOut, DriveWrite(port, b, level)), b) == level
  {
  }

  /** ... and leaves every other output bit of the port as it was. */
  lemma DriveWriteKeepsOtherBits(dataOut: bv32, port: int, b: bv5, c: bv5, level: bool)
    requires c != b
    ensures Bit(DataOutAfter(dataOut, DriveWrite(port, b, level)), c) == Bit(dataOut, c)
  {
    var w := DriveWrite(port, b, level);
    var after := DataOutAfter(dataOut, w);
    assert after == if level then dataOut | Mask(b) else dataOut & !Mask(b);
    if level {
      SetBitKeeps(dataOut, b, c);
    } else {
      ClearBitKeeps(dataOut, b, c);
    }
  }

  /** The level write_port drives a pin to: the HAL bit XOR its invert. */
  function OutputLevel(value: bool, invert: bool): bool {
    value != invert
  }

  /** What write_port emits for one entry: nothing when no HAL pin was
      exported there or the pin is not claimed as an output. */
  function EntryWrites(value: Option<bool>, invert: bool, pin: PinInfo): (ws: seq<RegWrite>)
    ensures |ws| <= 1
    ensures |ws| == 1 <==> value.Some? && pin.claimed == 'O'
    ensures |ws| == 1 ==> ws[0].port == pin.portNum && ws[0].mask == Mask(pin.pinNum) &&
                          (ws[0].reg == SetDataOut <==> OutputLevel(value.value, invert))
  {
    if value.None? || pin.claimed != 'O' then []
    else [DriveWrite(pin.portNum, pin.pinNum, OutputLevel(value.value, invert))]
  }

  /** read_port's value for one entry: the DATAIN bit XOR the invert, for
      a pin claimed as an input; otherwise the entry is left as it was. */
  function EntryRead(value: Option<bool>, invert: bool, pin: PinInfo, datain: bv32): (r: Option<bool>)
    ensures r.None? <==> value.None?
    ensures value.Some? && IsInputMode(pin.claimed) ==> r == Some(Bit(datain, pin.pinNum) != invert)
    ensures !IsInputMode(pin.claimed) ==> r == value
  {
    if value.None? || !IsInputMode(pin.claimed) then value
    else Some(Bit(datain, pin.pinNum) != invert)
  }

  predicate WellFormed(p: PinInfo) {
    0 <= p.portNum < NUM_GPIO_PORTS
  }

  predicate TableWellFormed(t: seq<PinInfo>) {
    forall i :: 0 <= i < |t| ==> WellFormed(t[i])
  }

  /** Concatenation of the entry writes of entries 0..k-1 of the LED table. */
  function LedWrites(values: seq<Option<bool>>, inverts: seq<bool>, leds: seq<PinInfo>, k: nat): seq<RegWrite>
    requires k <= |values| == |inverts| == |leds| && TableWellFormed(leds)
  {
    if k == 0 then [] else LedWrites(values, inverts, leds, k - 1) + EntryWrites(values[k - 1], inverts[k - 1], leds[k - 1])
  }

  /** The pin record of a header pin in the P8 / P9 tables. */
  function HeaderPinInfo(p8: seq<PinInfo>, p9: seq<PinInfo>, hp: HeaderPin): (p: PinInfo)
    requires |p8| == |p9| == PIN_TABLE_SIZE && TableWellFormed(p8) && TableWellFormed(p9) && IsHeaderPin(hp)
    ensures WellFormed(p)
  {
    if hp.header == 8 then p8[hp.pin] else p9[hp.pin]
  }

  /** The P8 / P9 tables with header pin `hp` claimed in `mode`. */
  function ClaimTables(p8: seq<PinInfo>, p9: seq<PinInfo>, hp: HeaderPin, mode: char): (t: (seq<PinInfo>, seq<PinInfo>))
    requires |p8| == |p9| == PIN_TABLE_SIZE && TableWellFormed(p8) && TableWellFormed(p9) && IsHeaderPin(hp)
    ensures |t.0| == |t.1| == PIN_TABLE_SIZE && TableWellFormed(t.0) && TableWellFormed(t.1)
    ensures HeaderPinInfo(t.0, t.1, hp) == HeaderPinInfo(p8, p9, hp).(claimed := mode)
  {
    if hp.header == 8 then (p8[hp.pin := p8[hp.pin].(claimed := mode)], p9)
    else (p8, p9[hp.pin := p9[hp.pin].(claimed := mode)])
  }

  /** The table entry write_port and read_port use for flat index i: P8
      entry i below 46, P9 entry i - 46 from 46 on. */
  function PinAtIndex(p8: seq<PinInfo>, p9: seq<PinInfo>, i: nat): (p: PinInfo)
    requires |p8| == |p9| == PIN_TABLE_SIZE && TableWellFormed(p8) && TableWellFormed(p9) && i <= NUM_SLOTS
    ensures WellFormed(p)
  {
    var hp := PinAtAsWritten(i);
    if hp.header == 8 then p8[hp.pin] else p9[hp.pin]
  }

  /** At the index a header pin is stored under, the lookup finds that
      pin's own entry, except for P8.46, where it finds P9 entry 0. */
  lemma FlatIndexLookup(p8: seq<PinInfo>, p9: seq<PinInfo>, hp: HeaderPin)
    requires |p8| == |p9| == PIN_TABLE_SIZE && TableWellFormed(p8) && TableWellFormed(p9) && IsHeaderPin(hp)
    ensures hp != HeaderPin(8, PINS_PER_HEADER) ==> PinAtIndex(p8, p9, FlatIndex(hp)) == HeaderPinInfo(p8, p9, hp)
    ensures hp == HeaderPin(8, PINS_PER_HEADER) ==> PinAtIndex(p8, p9, FlatIndex(hp)) == p9[0]
  {
  }

  /** The index the HAL bit of requested pin number `pin` is stored under;
      only 246 (P9.46) lands one past the end of the arrays. */
  function ExportIndex(pin: int): (i: nat)
    requires DecodePin(pin).Some?
    ensures 1 <= i <= NUM_SLOTS
    ensures i == NUM_SLOTS <==> pin == 246
    ensures i == PINS_PER_HEADER <==> pin == 146
  {
    FlatIndex(DecodePin(pin).value)
  }

  /** The contents of an array after a store of v at index i; a store at or
      past the end leaves the contents as they were. */
  function Store<T>(a: seq<T>, i: nat, v: T): (r: seq<T>)
    ensures |r| == |a|
    ensures i < |a| ==> r[i] == v
    ensures forall j :: 0 <= j < |a| && j != i ==> r[j] == a[j]
  {
    if i < |a| then a[i := v] else a
  }

  /** Requested pin number `pin` names a header pin claimed in `mode`. */
  predicate ClaimedAs(p8: seq<PinInfo>, p9: seq<PinInfo>, pin: int, mode: char)
    requires |p8| == |p9| == PIN_TABLE_SIZE && TableWellFormed(p8) && TableWellFormed(p9)
  {
    DecodePin(pin).Some? && HeaderPinInfo(p8, p9, DecodePin(pin).value).claimed == mode
  }

  /** Claiming a free pin leaves every claimed pin as it was. */
  lemma ClaimKeepsOtherClaims(p8: seq<PinInfo>, p9: seq<PinInfo>, hp: HeaderPin, mode: char, pin: int, m: char)
    requires |p8| == |p9| == PIN_TABLE_SIZE && TableWellFormed(p8) && TableWellFormed(p9) && IsHeaderPin(hp)
    requires HeaderPinInfo(p8, p9, hp).claimed == NUL && m != NUL && ClaimedAs(p8, p9, pin, m)
    ensures var t := ClaimTables(p8, p9, hp, mode); ClaimedAs(t.0, t.1, pin, m)
  {
  }

  /** Claiming header pin `hp` leaves every other requested number free
      exactly when it was free before. */
  lemma ClaimKeepsOthersFree(p8: seq<PinInfo>, p9: seq<PinInfo>, hp: HeaderPin, mode: char, pin: int)
    requires |p8| == |p9| == PIN_TABLE_SIZE && TableWellFormed(p8) && TableWellFormed(p9) && IsHeaderPin(hp)
    requires DecodePin(pin) != Some(hp)
    ensures var t := ClaimTables(p8, p9, hp, mode);
      ClaimedAs(t.0, t.1, pin, NUL) <==> ClaimedAs(p8, p9, pin, NUL)
  {
  }

  /** A parameter list that was not given is an empty list. */
  function Listed(l: Option<seq<int>>): (r: seq<int>)
    ensures l.None? ==> r == []
  {
    if l.Some? then l.value else []
  }

  /** No number is requested twice. */
  predicate Distinct(tokens: seq<int>) {
    forall i, j :: 0 <= i < j < |tokens| ==> tokens[i] != tokens[j]
  }

  /** None of the `count` export calls numbered from `from` on is the
      failing one. */
  predicate NoFailingExport(failAt: Option<nat>, from: nat, count: nat) {
    failAt.None? || failAt.value < from || from + count <= failAt.value
  }

  /** Export calls from..from+m+n-1 all succeed iff the first m and the
      next n do. */
  lemma NoFailingExportSplit(failAt: Option<nat>, from: nat, m: nat, n: nat)
    ensures NoFailingExport(failAt, from, m + n) <==>
      NoFailingExport(failAt, from, m) && NoFailingExport(failAt, from + m, n)
  {
  }

  /** The two export calls of one pin or LED succeed iff neither is the
      failing one. */
  lemma NoFailingExportPair(failAt: Option<nat>, from: nat)
    ensures NoFailingExport(failAt, from, 2) <==> failAt != Some(from) && failAt != Some(from + 1)
  {
  }

  /** Every requested LED number names an LED that is not claimed. */
  predicate LedsFree(leds: seq<PinInfo>, tokens: seq<int>)
    requires |leds| == NUM_LEDS
  {
    forall j :: 0 <= j < |tokens| ==> 0 <= tokens[j] < NUM_LEDS && leds[tokens[j]].claimed == NUL
  }

  /** Every requested number names a header pin that is not claimed. */
  predicate PinsFree(p8: seq<PinInfo>, p9: seq<PinInfo>, tokens: seq<int>)
    requires |p8| == |p9| == PIN_TABLE_SIZE && TableWellFormed(p8) && TableWellFormed(p9)
  {
    forall j :: 0 <= j < |tokens| ==> ClaimedAs(p8, p9, tokens[j], NUL)
  }

  /** After the pins of `done` were claimed (and nothing else changed), the
      pins of `rest` are free and distinct iff the whole request `done +
      rest` was free and distinct in the tables before. */
  lemma {:induction false} PinsFreeAppend(p8: seq<PinInfo>, p9: seq<PinInfo>, q8: seq<PinInfo>, q9: seq<PinInfo>,
                                          done: seq<int>, rest: seq<int>)
    requires |p8| == |p9| == PIN_TABLE_SIZE && TableWellFormed(p8) && TableWellFormed(p9)
    requires |q8| == |q9| == PIN_TABLE_SIZE && TableWellFormed(q8) && TableWellFormed(q9)
    requires Distinct(done) && PinsFree(p8, p9, done)
    requires forall k :: 0 <= k < |done| ==> !ClaimedAs(q8, q9, done[k], NUL)
    requires forall pin :: pin !in done ==> (ClaimedAs(q8, q9, pin, NUL) <==> ClaimedAs(p8, p9, pin, NUL))
    ensures Distinct(done + rest) && PinsFree(p8, p9, done + rest) <==> Distinct(rest) && PinsFree(q8, q9, rest)
  {
    var all := done + rest;
    if Distinct(rest) && PinsFree(q8, q9, rest) {
      forall j | 0 <= j < |rest|
        ensures rest[j] !in done && ClaimedAs(p8, p9, rest[j], NUL)
      {
        assert ClaimedAs(q8, q9, rest[j], NUL);
      }
      forall i, j | 0 <= i < j < |all|
        ensures all[i] != all[j]
      {
        if j >= |done| && i < |done| {
          assert all[j] == rest[j - |done|] && all[i] == done[i];
        }
      }
      forall j | 0 <= j < |all|
        ensures ClaimedAs(p8, p9, all[j], NUL)
      {
        if j >= |done| {
          assert all[j] == rest[j - |done|];
        }
      }
    }
    if Distinct(all) && PinsFree(p8, p9, all) {
      forall i, j | 0 <= i < j < |rest|
        ensures rest[i] != rest[j]
      {
        assert all[|done| + i] == rest[i] && all[|done| + j] == rest[j];
      }
      forall j | 0 <= j < |rest|
        ensures ClaimedAs(q8, q9, rest[j], NUL)
      {
        assert all[|done| + j] == rest[j] && ClaimedAs(p8, p9, all[|done| + j], NUL);
        forall k | 0 <= k < |done|
          ensures done[k] != rest[j]
        {
          assert all[k] == done[k];
        }
      }
    }
  }

  /** A request whose numbers are distinct and free has a first part whose
      numbers are distinct and free. */
  lemma PinsPrefixFree(p8: seq<PinInfo>, p9: seq<PinInfo>, a: seq<int>, b: seq<int>)
    requires |p8| == |p9| == PIN_TABLE_SIZE && TableWellFormed(p8) && TableWellFormed(p9)
    ensures Distinct(a + b) ==> Distinct(a)
    ensures PinsFree(p8, p9, a + b) ==> PinsFree(p8, p9, a)
  {
    forall i | 0 <= i < |a|
      ensures (a + b)[i] == a[i]
    {
    }
  }

  /** The same for LED numbers. */
  lemma LedsPrefixFree(leds: seq<PinInfo>, a: seq<int>, b: seq<int>)
    requires |leds| == NUM_LEDS
    ensures Distinct(a + b) ==> Distinct(a)
    ensures LedsFree(leds, a + b) ==> LedsFree(leds, a)
  {
    forall i | 0 <= i < |a|
      ensures (a + b)[i] == a[i]
    {
    }
  }

  /** rtapi_app_main's request can be granted from these tables: its LED
      numbers are distinct and name free LEDs, and its input and output
      numbers together are distinct and name free header pins. */
  predicate RequestFree(leds: seq<PinInfo>, p8: seq<PinInfo>, p9: seq<PinInfo>, ledTokens: seq<int>, pinTokens: seq<int>)
    requires |leds| == NUM_LEDS
    requires |p8| == |p9| == PIN_TABLE_SIZE && TableWellFormed(p8) && TableWellFormed(p9)
  {
    Distinct(ledTokens) && LedsFree(leds, ledTokens) && Distinct(pinTokens) && PinsFree(p8, p9, pinTokens)
  }

  /** A sequence with one more number at the end is distinct iff the
      shorter one is and does not hold that number. */
  lemma DistinctSnoc(s: seq<int>, x: int)
    ensures Distinct(s + [x]) <==> Distinct(s) && x !in s
  {
    var t := s + [x];
    forall i | 0 <= i < |s|
      ensures t[i] == s[i]
    {
    }
    if Distinct(s) && x !in s {
      forall i, j | 0 <= i < j < |t|
        ensures t[i] != t[j]
      {
        if j == |s| {
          assert t[i] == s[i] && t[j] == x;
        }
      }
    }
    if Distinct(t) {
      forall k | 0 <= k < |s|
        ensures s[k] != x
      {
        assert t[k] == s[k] && t[|s|] == x;
      }
    }
  }

  /** The same for free header pins. */
  lemma PinsFreeSnoc(p8: seq<PinInfo>, p9: seq<PinInfo>, s: seq<int>, x: int)
    requires |p8| == |p9| == PIN_TABLE_SIZE && TableWellFormed(p8) && TableWellFormed(p9)
    ensures PinsFree(p8, p9, s + [x]) <==> PinsFree(p8, p9, s) && ClaimedAs(p8, p9, x, NUL)
  {
    var t := s + [x];
    forall i | 0 <= i < |s|
      ensures t[i] == s[i]
    {
    }
    assert t[|s|] == x;
  }

  /** The same for free LEDs. */
  lemma LedsFreeSnoc(leds: seq<PinInfo>, s: seq<int>, x: int)
    requires |leds| == NUM_LEDS
    ensures LedsFree(leds, s + [x]) <==> LedsFree(leds, s) && 0 <= x < NUM_LEDS && leds[x].claimed == NUL
  {
    var t := s + [x];
    forall i | 0 <= i < |s|
      ensures t[i] == s[i]
    {
    }
    assert t[|s|] == x;
  }

  /** x is one of the first n numbers of s. */
  predicate OccursBefore(s: seq<int>, n: nat, x: int)
    requires n <= |s|
  {
    n > 0 && (s[n - 1] == x || OccursBefore(s, n - 1, x))
  }

  /** Over the whole sequence, that is membership. */
  lemma {:induction false} OccursBeforeIn(s: seq<int>, n: nat, x: int)
    requires n <= |s|
    ensures OccursBefore(s, n, x) <==> x in s[..n]
  {
    if n > 0 {
      OccursBeforeIn(s, n - 1, x);
      assert s[..n] == s[..n - 1] + [s[n - 1]];
    }
  }

  /** The LED table after the LED loop of rtapi_app_main claimed the first
      n LEDs of `tokens` in turn, the first making export call number
      `calls`; None when the loop fails: an LED is already claimed, or one
      of its two export calls fails. */
  function ClaimLedsResult(leds: seq<PinInfo>, tokens: seq<int>, n: nat, calls: nat, failAt: Option<nat>)
    : (r: Option<seq<PinInfo>>)
    requires |leds| == NUM_LEDS && n <= |tokens|
    requires forall k :: 0 <= k < |tokens| ==> 0 <= tokens[k] < NUM_LEDS
    ensures r.Some? ==> |r.value| == NUM_LEDS
  {
    if n == 0 then Some(leds)
    else
      var prev := ClaimLedsResult(leds, tokens, n - 1, calls, failAt);
      var led := tokens[n - 1];
      if prev.None? || prev.value[led].claimed != NUL || !NoFailingExport(failAt, calls + 2 * (n - 1), 2) then None
      else Some(prev.value[led := prev.value[led].(claimed := 'O')])
  }

  /** When the first n passes of the LED loop succeed, exactly those LEDs
      are now claimed 'O' and every other LED is as it was. */
  lemma {:induction false} ClaimLedsResultTable(leds: seq<PinInfo>, tokens: seq<int>, n: nat, calls: nat, failAt: Option<nat>)
    requires |leds| == NUM_LEDS && n <= |tokens|
    requires forall k :: 0 <= k < |tokens| ==> 0 <= tokens[k] < NUM_LEDS
    requires ClaimLedsResult(leds, tokens, n, calls, failAt).Some?
    ensures var t := ClaimLedsResult(leds, tokens, n, calls, failAt).value;
      && (forall l :: 0 <= l < NUM_LEDS && (forall k :: 0 <= k < n ==> tokens[k] != l) ==> t[l] == leds[l])
      && (forall k :: 0 <= k < n ==> t[tokens[k]] == leds[tokens[k]].(claimed := 'O'))
  {
    if n > 0 {
      ClaimLedsResultTable(leds, tokens, n - 1, calls, failAt);
    }
  }

  /** The first n passes of the LED loop succeed iff those LED numbers are
      distinct, every one names a free LED, and none of their 2 * n export
      calls fails. */
  lemma {:induction false} ClaimLedsResultOk(leds: seq<PinInfo>, tokens: seq<int>, n: nat, calls: nat, failAt: Option<nat>)
    requires |leds| == NUM_LEDS && n <= |tokens|
    requires forall k :: 0 <= k < |tokens| ==> 0 <= tokens[k] < NUM_LEDS
    ensures ClaimLedsResult(leds, tokens, n, calls, failAt).Some? <==>
      Distinct(tokens[..n]) && LedsFree(leds, tokens[..n]) && NoFailingExport(failAt, calls, 2 * n)
  {
    if n > 0 {
      var init, x := tokens[..n - 1], tokens[n - 1];
      assert tokens[..n] == init + [x];
      ClaimLedsResultOk(leds, tokens, n - 1, calls, failAt);
      DistinctSnoc(init, x);
      LedsFreeSnoc(leds, init, x);
      NoFailingExportSplit(failAt, calls, 2 * (n - 1), 2);
      if ClaimLedsResult(leds, tokens, n - 1, calls, failAt).Some? {
        ClaimLedsResultTable(leds, tokens, n - 1, calls, failAt);
        assert x in init <==> exists k :: 0 <= k < n - 1 && tokens[k] == x;
      }
    }
  }

  /** Once the first n passes of the LED loop fail, so do the first m. */
  lemma {:induction false} ClaimLedsResultFails(leds: seq<PinInfo>, tokens: seq<int>, n: nat, m: nat, calls: nat,
                                                failAt: Option<nat>)
    requires |leds| == NUM_LEDS && n <= m <= |tokens|
    requires forall k :: 0 <= k < |tokens| ==> 0 <= tokens[k] < NUM_LEDS
    requires ClaimLedsResult(leds, tokens, n, calls, failAt).None?
    ensures ClaimLedsResult(leds, tokens, m, calls, failAt).None?
    decreases m
  {
    if m > n {
      ClaimLedsResultFails(leds, tokens, n, m - 1, calls, failAt);
    }
  }

  /** Pass n of the LED loop, from the table `t` the first n passes leave. */
  lemma ClaimLedsResultStep(leds: seq<PinInfo>, tokens: seq<int>, n: nat, calls: nat, failAt: Option<nat>,
                            t: seq<PinInfo>)
    requires |leds| == NUM_LEDS && n < |tokens|
    requires forall k :: 0 <= k < |tokens| ==> 0 <= tokens[k] < NUM_LEDS
    requires ClaimLedsResult(leds, tokens, n, calls, failAt) == Some(t)
    ensures ClaimLedsResult(leds, tokens, n + 1, calls, failAt) ==
      if t[tokens[n]].claimed == NUL && failAt != Some(calls + 2 * n) && failAt != Some(calls + 2 * n + 1)
      then Some(t[tokens[n] := t[tokens[n]].(claimed := 'O')])
      else None
  {
    NoFailingExportPair(failAt, calls + 2 * n);
  }

  /** The P8 / P9 tables after the input loop (`mode` 'U') or the output
      loop (`mode` 'O') of rtapi_app_main claimed the first n numbers of
      `tokens` in turn, the first making export call number `calls`; None
      when the loop fails: a number names no header pin or a pin already
      claimed, or one of its two export calls fails. */
  function ClaimPinsResult(p8: seq<PinInfo>, p9: seq<PinInfo>, tokens: seq<int>, n: nat, mode: char, calls: nat,
                           failAt: Option<nat>): (r: Option<(seq<PinInfo>, seq<PinInfo>)>)
    requires |p8| == |p9| == PIN_TABLE_SIZE && TableWellFormed(p8) && TableWellFormed(p9) && n <= |tokens|
    ensures r.Some? ==>
      |r.value.0| == |r.value.1| == PIN_TABLE_SIZE && TableWellFormed(r.value.0) && TableWellFormed(r.value.1)
  {
    if n == 0 then Some((p8, p9))
    else
      var prev := ClaimPinsResult(p8, p9, tokens, n - 1, mode, calls, failAt);
      var pin := tokens[n - 1];
      if prev.None? || !ClaimedAs(prev.value.0, prev.value.1, pin, NUL) || !NoFailingExport(failAt, calls + 2 * (n - 1), 2)
      then None
      else Some(ClaimTables(prev.value.0, prev.value.1, DecodePin(pin).value, mode))
  }

  /** When the first n passes of the input or output loop succeed, those
      pins are claimed in its mode, every other number is free exactly when
      it was, and no claim is lost. */
  lemma {:induction false} ClaimPinsResultTables(p8: seq<PinInfo>, p9: seq<PinInfo>, tokens: seq<int>, n: nat,
                                                 mode: char, calls: nat, failAt: Option<nat>)
    requires |p8| == |p9| == PIN_TABLE_SIZE && TableWellFormed(p8) && TableWellFormed(p9) && mode != NUL
    requires n <= |tokens| && ClaimPinsResult(p8, p9, tokens, n, mode, calls, failAt).Some?
    ensures var t := ClaimPinsResult(p8, p9, tokens, n, mode, calls, failAt).value;
      && (forall pin :: ClaimedAs(t.0, t.1, pin, NUL) <==> ClaimedAs(p8, p9, pin, NUL) && pin !in tokens[..n])
      && (forall k :: 0 <= k < n ==> ClaimedAs(t.0, t.1, tokens[k], mode))
      && (forall pin, m :: m != NUL && ClaimedAs(p8, p9, pin, m) ==> ClaimedAs(t.0, t.1, pin, m))
  {
    if n > 0 {
      var init, x := tokens[..n - 1], tokens[n - 1];
      assert tokens[..n] == init + [x];
      ClaimPinsResultTables(p8, p9, tokens, n - 1, mode, calls, failAt);
      var prev := ClaimPinsResult(p8, p9, tokens, n - 1, mode, calls, failAt).value;
      var hp := DecodePin(x).value;
      var t := ClaimTables(prev.0, prev.1, hp, mode);
      forall pin
        ensures ClaimedAs(t.0, t.1, pin, NUL) <==> ClaimedAs(p8, p9, pin, NUL) && pin !in tokens[..n]
      {
        if DecodePin(pin) != Some(hp) {
          ClaimKeepsOthersFree(prev.0, prev.1, hp, mode, pin);
        }
      }
      forall k | 0 <= k < n - 1
        ensures ClaimedAs(t.0, t.1, tokens[k], mode)
      {
        ClaimKeepsOtherClaims(prev.0, prev.1, hp, mode, tokens[k], mode);
      }
      forall pin, m | m != NUL && ClaimedAs(p8, p9, pin, m)
        ensures ClaimedAs(t.0, t.1, pin, m)
      {
        ClaimKeepsOtherClaims(prev.0, prev.1, hp, mode, pin, m);
      }
    }
  }

  /** The first n passes of the input or output loop succeed iff those
      numbers are distinct, every one names a free header pin, and none of
      their 2 * n export calls fails. */
  lemma {:induction false} ClaimPinsResultOk(p8: seq<PinInfo>, p9: seq<PinInfo>, tokens: seq<int>, n: nat, mode: char,
                                             calls: nat, failAt: Option<nat>)
    requires |p8| == |p9| == PIN_TABLE_SIZE && TableWellFormed(p8) && TableWellFormed(p9) && mode != NUL
    requires n <= |tokens|
    ensures ClaimPinsResult(p8, p9, tokens, n, mode, calls, failAt).Some? <==>
      Distinct(tokens[..n]) && PinsFree(p8, p9, tokens[..n]) && NoFailingExport(failAt, calls, 2 * n)
  {
    if n > 0 {
      var init, x := tokens[..n - 1], tokens[n - 1];
      assert tokens[..n] == init + [x];
      ClaimPinsResultOk(p8, p9, tokens, n - 1, mode, calls, failAt);
      DistinctSnoc(init, x);
      PinsFreeSnoc(p8, p9, init, x);
      NoFailingExportSplit(failAt, calls, 2 * (n - 1), 2);
      if ClaimPinsResult(p8, p9, tokens, n - 1, mode, calls, failAt).Some? {
        ClaimPinsResultTables(p8, p9, tokens, n - 1, mode, calls, failAt);
      }
    }
  }

  /** Once the first n passes of the input or output loop fail, so do the
      first m. */
  lemma {:induction false} ClaimPinsResultFails(p8: seq<PinInfo>, p9: seq<PinInfo>, tokens: seq<int>, n: nat, m: nat,
                                                mode: char, calls: nat, failAt: Option<nat>)
    requires |p8| == |p9| == PIN_TABLE_SIZE && TableWellFormed(p8) && TableWellFormed(p9)
    requires n <= m <= |tokens| && ClaimPinsResult(p8, p9, tokens, n, mode, calls, failAt).None?
    ensures ClaimPinsResult(p8, p9, tokens, m, mode, calls, failAt).None?
    decreases m
  {
    if m > n {
      ClaimPinsResultFails(p8, p9, tokens, n, m - 1, mode, calls, failAt);
    }
  }

  /** Pass n of the input or output loop, from the tables (a, b) the first
      n passes leave. */
  lemma ClaimPinsResultStep(p8: seq<PinInfo>, p9: seq<PinInfo>, tokens: seq<int>, n: nat, mode: char,
                            calls: nat, failAt: Option<nat>, a: seq<PinInfo>, b: seq<PinInfo>)
    requires |p8| == |p9| == PIN_TABLE_SIZE && TableWellFormed(p8) && TableWellFormed(p9)
    requires n < |tokens| && ClaimPinsResult(p8, p9, tokens, n, mode, calls, failAt) == Some((a, b))
    ensures ClaimPinsResult(p8, p9, tokens, n + 1, mode, calls, failAt) ==
      if ClaimedAs(a, b, tokens[n], NUL) && failAt != Some(calls + 2 * n) && failAt != Some(calls + 2 * n + 1)
      then Some(ClaimTables(a, b, DecodePin(tokens[n]).value, mode))
      else None
  {
    NoFailingExportPair(failAt, calls + 2 * n);
  }

  /** Two pin records share neither a GPIO bit nor a pad register. */
  predicate SeparateRegisters(a: PinInfo, b: PinInfo) {
    (a.portNum != b.portNum || a.pinNum != b.pinNum) && a.controlOffset != b.controlOffset
  }

  /** The pin tables give distinct header pins and LEDs separate GPIO bits
      and pad registers, as the board's tables do for its GPIO pins. */
  ghost predicate RegistersSeparate(p8: seq<PinInfo>, p9: seq<PinInfo>, leds: seq<PinInfo>)
    requires |p8| == |p9| == PIN_TABLE_SIZE && TableWellFormed(p8) && TableWellFormed(p9)
    requires |leds| == NUM_LEDS
  {
    && (forall a, b :: IsHeaderPin(a) && IsHeaderPin(b) && a != b ==>
          SeparateRegisters(HeaderPinInfo(p8, p9, a), HeaderPinInfo(p8, p9, b)))
    && (forall a, l :: IsHeaderPin(a) && 0 <= l < NUM_LEDS ==> SeparateRegisters(HeaderPinInfo(p8, p9, a), leds[l]))
    && (forall l, m :: 0 <= l < NUM_LEDS && 0 <= m < NUM_LEDS && l != m ==> SeparateRegisters(leds[l], leds[m]))
  }

  /** What configure_pin leaves for a pin claimed in a GPIO mode: its OE bit
      is 1 exactly for an input mode, and its pad holds PadConfig. */
  ghost predicate PinConfigured(oe: seq<bv32>, pads: map<int, bv32>, p: PinInfo)
    requires |oe| == NUM_GPIO_PORTS && WellFormed(p) && IsGpioMode(p.claimed)
  {
    Bit(oe[p.portNum], p.pinNum) == IsInputMode(p.claimed) &&
    p.controlOffset in pads && pads[p.controlOffset] == PadConfig(p.claimed)
  }

  /** Every header pin and LED claimed in a GPIO mode is configured for it. */
  ghost predicate ClaimsConfigured(p8: seq<PinInfo>, p9: seq<PinInfo>, leds: seq<PinInfo>,
                                   oe: seq<bv32>, pads: map<int, bv32>)
    requires |p8| == |p9| == PIN_TABLE_SIZE && TableWellFormed(p8) && TableWellFormed(p9)
    requires |leds| == NUM_LEDS && TableWellFormed(leds) && |oe| == NUM_GPIO_PORTS
  {
    && (forall hp :: IsHeaderPin(hp) && IsGpioMode(HeaderPinInfo(p8, p9, hp).claimed) ==>
          PinConfigured(oe, pads, HeaderPinInfo(p8, p9, hp)))
    && (forall l :: 0 <= l < NUM_LEDS && IsGpioMode(leds[l].claimed) ==> PinConfigured(oe, pads, leds[l]))
  }

  /** The OE register and pad map after configure_pin of `p` in `mode`. */
  function OeConfigured(oe: seq<bv32>, p: PinInfo, mode: char): (r: seq<bv32>)
    requires |oe| == NUM_GPIO_PORTS && WellFormed(p)
    ensures |r| == NUM_GPIO_PORTS
  {
    oe[p.portNum := OeAfter(oe[p.portNum], p.pinNum, mode)]
  }

  function PadsConfigured(pads: map<int, bv32>, p: PinInfo, mode: char): map<int, bv32> {
    if IsGpioMode(mode) then pads[p.controlOffset := PadConfig(mode)] else pads
  }

  /** Configuring a pin leaves a pin with separate registers configured. */
  lemma ConfigureKeepsConfigured(oe: seq<bv32>, pads: map<int, bv32>, p: PinInfo, mode: char, q: PinInfo)
    requires |oe| == NUM_GPIO_PORTS && WellFormed(p) && WellFormed(q) && IsGpioMode(q.claimed)
    requires SeparateRegisters(p, q) && PinConfigured(oe, pads, q)
    ensures PinConfigured(OeConfigured(oe, p, mode), PadsConfigured(pads, p, mode), q)
  {
    if p.portNum == q.portNum {
      OeAfterKeepsOtherBits(oe[p.portNum], p.pinNum, q.pinNum, mode);
    }
  }

  /** Claiming and configuring a header pin keeps every claimed pin
      configured when the tables give pins separate registers. */
  lemma ClaimConfigureKeepsConfigured(p8: seq<PinInfo>, p9: seq<PinInfo>, leds: seq<PinInfo>,
                                      oe: seq<bv32>, pads: map<int, bv32>, hp: HeaderPin, mode: char)
    requires |p8| == |p9| == PIN_TABLE_SIZE && TableWellFormed(p8) && TableWellFormed(p9) && IsHeaderPin(hp)
    requires |leds| == NUM_LEDS && TableWellFormed(leds) && |oe| == NUM_GPIO_PORTS
    requires RegistersSeparate(p8, p9, leds) && ClaimsConfigured(p8, p9, leds, oe, pads)
    ensures var t := ClaimTables(p8, p9, hp, mode);
      var p := HeaderPinInfo(p8, p9, hp);
      RegistersSeparate(t.0, t.1, leds) &&
      ClaimsConfigured(t.0, t.1, leds, OeConfigured(oe, p, mode), PadsConfigured(pads, p, mode))
  {
    var t := ClaimTables(p8, p9, hp, mode);
    var p := HeaderPinInfo(p8, p9, hp);
    var oe', pads' := OeConfigured(oe, p, mode), PadsConfigured(pads, p, mode);
    forall a | IsHeaderPin(a)
      ensures HeaderPinInfo(t.0, t.1, a) == if a == hp then p.(claimed := mode) else HeaderPinInfo(p8, p9, a)
    {
    }
    forall a | IsHeaderPin(a) && IsGpioMode(HeaderPinInfo(t.0, t.1, a).claimed)
      ensures PinConfigured(oe', pads', HeaderPinInfo(t.0, t.1, a))
    {
      if a == hp {
        assert OeAfter(oe[p.portNum], p.pinNum, mode) == oe'[p.portNum];
      } else {
        ConfigureKeepsConfigured(oe, pads, p, mode, HeaderPinInfo(p8, p9, a));
      }
    }
    forall l | 0 <= l < NUM_LEDS && IsGpioMode(leds[l].claimed)
      ensures PinConfigured(oe', pads', leds[l])
    {
      ConfigureKeepsConfigured(oe, pads, p, mode, leds[l]);
    }
  }

  /** The same for claiming and configuring an LED. */
  lemma LedConfigureKeepsConfigured(p8: seq<PinInfo>, p9: seq<PinInfo>, leds: seq<PinInfo>,
                                    oe: seq<bv32>, pads: map<int, bv32>, led: nat, mode: char)
    requires |p8| == |p9| == PIN_TABLE_SIZE && TableWellFormed(p8) && TableWellFormed(p9)
    requires |leds| == NUM_LEDS && TableWellFormed(leds) && |oe| == NUM_GPIO_PORTS && led < NUM_LEDS
    requires RegistersSeparate(p8, p9, leds) && ClaimsConfigured(p8, p9, leds, oe, pads)
    ensures var leds' := leds[led := leds[led].(claimed := mode)];
      RegistersSeparate(p8, p9, leds') &&
      ClaimsConfigured(p8, p9, leds', OeConfigured(oe, leds[led], mode), PadsConfigured(pads, leds[led], mode))
  {
    var p := leds[led];
    var leds' := leds[led := p.(claimed := mode)];
    var oe', pads' := OeConfigured(oe, p, mode), PadsConfigured(pads, p, mode);
    forall a | IsHeaderPin(a) && IsGpioMode(HeaderPinInfo(p8, p9, a).claimed)
      ensures PinConfigured(oe', pads', HeaderPinInfo(p8, p9, a))
    {
      ConfigureKeepsConfigured(oe, pads, p, mode, HeaderPinInfo(p8, p9, a));
    }
    forall l | 0 <= l < NUM_LEDS && IsGpioMode(leds'[l].claimed)
      ensures PinConfigured(oe', pads', leds'[l])
    {
      if l == led {
        assert OeAfter(oe[p.portNum], p.pinNum, mode) == oe'[p.portNum];
      } else {
        ConfigureKeepsConfigured(oe, pads, p, mode, leds[l]);
      }
    }
  }

  /** Concatenation of the entry writes of slots 0..k-1. */
  function SlotWrites(values: seq<Option<bool>>, inverts: seq<bool>, p8: seq<PinInfo>, p9: seq<PinInfo>, k: nat): seq<RegWrite>
    requires k <= |values| == |inverts| == NUM_SLOTS
    requires |p8| == |p9| == PIN_TABLE_SIZE && TableWellFormed(p8) && TableWellFormed(p9)
  {
    if k == 0 then []
    else SlotWrites(values, inverts, p8, p9, k - 1) +
         EntryWrites(values[k - 1], inverts[k - 1], HeaderPinInfo(p8, p9, SlotPin(k - 1)))
  }

  /** Every write of a pass targets one GPIO port and one bit, and there is
      at most one write per entry. */
  lemma {:induction false} SlotWritesShape(values: seq<Option<bool>>, inverts: seq<bool>,
                                          p8: seq<PinInfo>, p9: seq<PinInfo>, k: nat)
    requires k <= |values| == |inverts| == NUM_SLOTS
    requires |p8| == |p9| == PIN_TABLE_SIZE && TableWellFormed(p8) && TableWellFormed(p9)
    ensures |SlotWrites(values, inverts, p8, p9, k)| <= k
    ensures forall j :: 0 <= j < |SlotWrites(values, inverts, p8, p9, k)| ==>
              0 <= SlotWrites(values, inverts, p8, p9, k)[j].port < NUM_GPIO_PORTS
  {
    if k > 0 {
      SlotWritesShape(values, inverts, p8, p9, k - 1);
      var pin := HeaderPinInfo(p8, p9, SlotPin(k - 1));
      assert WellFormed(pin);
      var e := EntryWrites(values[k - 1], inverts[k - 1], pin);
      assert SlotWrites(values, inverts, p8, p9, k) == SlotWrites(values, inverts, p8, p9, k - 1) + e;
    }
  }

  /** An output slot with an exported HAL bit whose pin is claimed 'O'
      contributes exactly the write driving that pin to value XOR invert. */
  lemma {:induction false} SlotWritesContain(values: seq<Option<bool>>, inverts: seq<bool>,
                                            p8: seq<PinInfo>, p9: seq<PinInfo>, k: nat, i: nat)
    requires k <= |values| == |inverts| == NUM_SLOTS
    requires |p8| == |p9| == PIN_TABLE_SIZE && TableWellFormed(p8) && TableWellFormed(p9)
    requires i < k && values[i].Some? && HeaderPinInfo(p8, p9, SlotPin(i)).claimed == 'O'
    ensures var pin := HeaderPinInfo(p8, p9, SlotPin(i));
      DriveWrite(pin.portNum, pin.pinNum, OutputLevel(values[i].value, inverts[i]))
        in SlotWrites(values, inverts, p8, p9, k)
  {
    if i < k - 1 {
      SlotWritesContain(values, inverts, p8, p9, k - 1, i);
    }
  }

  /** Concatenation of the entry writes of the output loop of write_port
      as written, for flat indices 1..k-1. */
  function OutputWrites(values: seq<Option<bool>>, inverts: seq<bool>, p8: seq<PinInfo>, p9: seq<PinInfo>, k: nat): seq<RegWrite>
    requires k <= |values| == |inverts| == NUM_SLOTS
    requires |p8| == |p9| == PIN_TABLE_SIZE && TableWellFormed(p8) && TableWellFormed(p9)
  {
    if k <= 1 then []
    else OutputWrites(values, inverts, p8, p9, k - 1) +
         EntryWrites(values[k - 1], inverts[k - 1], PinAtIndex(p8, p9, k - 1))
  }

  /** An index from 1 on with an exported HAL bit whose looked-up entry is
      claimed 'O' contributes the write driving that entry's pin to value
      XOR invert. */
  lemma {:induction false} OutputWritesContain(values: seq<Option<bool>>, inverts: seq<bool>,
                                              p8: seq<PinInfo>, p9: seq<PinInfo>, k: nat, i: nat)
    requires k <= |values| == |inverts| == NUM_SLOTS
    requires |p8| == |p9| == PIN_TABLE_SIZE && TableWellFormed(p8) && TableWellFormed(p9)
    requires 1 <= i < k && values[i].Some? && PinAtIndex(p8, p9, i).claimed == 'O'
    ensures var pin := PinAtIndex(p8, p9, i);
      DriveWrite(pin.portNum, pin.pinNum, OutputLevel(values[i].value, inverts[i]))
        in OutputWrites(values, inverts, p8, p9, k)
  {
    if i < k - 1 {
      OutputWritesContain(values, inverts, p8, p9, k - 1, i);
    }
  }

  /** The output loop as written never looks at the P8.46 entry: whatever
      that entry holds, claimed or not, the writes are the same. */
  lemma {:induction false} OutputWritesIgnoreP8Pin46(values: seq<Option<bool>>, inverts: seq<bool>,
                                                    p8: seq<PinInfo>, p9: seq<PinInfo>, k: nat, x: PinInfo)
    requires k <= |values| == |inverts| == NUM_SLOTS
    requires |p8| == |p9| == PIN_TABLE_SIZE && TableWellFormed(p8) && TableWellFormed(p9) && WellFormed(x)
    ensures OutputWrites(values, inverts, p8[PINS_PER_HEADER := x], p9, k) == OutputWrites(values, inverts, p8, p9, k)
  {
    if k > 1 {
      OutputWritesIgnoreP8Pin46(values, inverts, p8, p9, k - 1, x);
      assert PinAtIndex(p8[PINS_PER_HEADER := x], p9, k - 1) == PinAtIndex(p8, p9, k - 1);
    }
  }

  /** A claimed output pin other than P8.46 and P9.46, whose HAL bit is
      exported at its flat index, is driven by the output loop. */
  lemma ClaimedOutputDriven(values: seq<Option<bool>>, inverts: seq<bool>, p8: seq<PinInfo>, p9: seq<PinInfo>, pin: int)
    requires |values| == |inverts| == NUM_SLOTS
    requires |p8| == |p9| == PIN_TABLE_SIZE && TableWellFormed(p8) && TableWellFormed(p9)
    requires ClaimedAs(p8, p9, pin, 'O') && pin != 146 && pin != 246 && values[ExportIndex(pin)].Some?
    ensures var info := HeaderPinInfo(p8, p9, DecodePin(pin).value);
      DriveWrite(info.portNum, info.pinNum, OutputLevel(values[ExportIndex(pin)].value, inverts[ExportIndex(pin)]))
        in OutputWrites(values, inverts, p8, p9, NUM_SLOTS)
  {
    FlatIndexLookup(p8, p9, DecodePin(pin).value);
    OutputWritesContain(values, inverts, p8, p9, NUM_SLOTS, ExportIndex(pin));
  }

  /** P8.46 as an output, with its HAL bit exported, is never driven when
      P9 entry 0 is not claimed 'O' and nothing else is exported. */
  lemma P8Pin46NotDriven(values: seq<Option<bool>>, inverts: seq<bool>, p8: seq<PinInfo>, p9: seq<PinInfo>)
    requires |values| == |inverts| == NUM_SLOTS
    requires |p8| == |p9| == PIN_TABLE_SIZE && TableWellFormed(p8) && TableWellFormed(p9)
    requires p8[PINS_PER_HEADER].claimed == 'O' && p9[0].claimed != 'O'
    requires forall i :: 0 <= i < NUM_SLOTS ==> (values[i].Some? <==> i == ExportIndex(146))
    ensures OutputWrites(values, inverts, p8, p9, NUM_SLOTS) == []
  {
    OutputWritesNone(values, inverts, p8, p9, NUM_SLOTS);
  }

  /** Helper: the pass emits nothing when no index it visits both has an
      exported bit and a looked-up entry claimed 'O'. */
  lemma {:induction false} OutputWritesNone(values: seq<Option<bool>>, inverts: seq<bool>,
                                           p8: seq<PinInfo>, p9: seq<PinInfo>, k: nat)
    requires k <= |values| == |inverts| == NUM_SLOTS
    requires |p8| == |p9| == PIN_TABLE_SIZE && TableWellFormed(p8) && TableWellFormed(p9)
    requires forall i :: 1 <= i < k ==> values[i].None? || PinAtIndex(p8, p9, i).claimed != 'O'
    ensures OutputWrites(values, inverts, p8, p9, k) == []
  {
    if k > 1 {
      OutputWritesNone(values, inverts, p8, p9, k - 1);
    }
  }

  // ---------------------------------------------------------------------
  // port_data_t
  // ---------------------------------------------------------------------

  /** The HAL side of the driver: for each LED and slot, the exported HAL
      bit (None while nothing is exported there) and its invert parameter. */
  class PortData {
    var ledPins: array<Option<bool>>
    var inputPins: array<Option<bool>>
    var outputPins: array<Option<bool>>
    var ledInv: array<bool>
    var inputInv: array<bool>
    var outputInv: array<bool>

    ghost predicate Valid()
      reads this
    {
      ledPins.Length == NUM_LEDS && inputPins.Length == NUM_SLOTS && outputPins.Length == NUM_SLOTS &&
      ledInv.Length == NUM_LEDS && inputInv.Length == NUM_SLOTS && outputInv.Length == NUM_SLOTS &&
      ledPins != inputPins && ledPins != outputPins && inputPins != outputPins &&
      ledInv != inputInv && ledInv != outputInv && inputInv != outputInv
    }

    /** hal_malloc of a zeroed port_data_t. */
    constructor ()
      ensures Valid()
      ensures fresh(ledPins) && fresh(inputPins) && fresh(outputPins)
      ensures fresh(ledInv) && fresh(inputInv) && fresh(outputInv)
      ensures forall i :: 0 <= i < NUM_LEDS ==> ledPins[i].None?
      ensures forall i :: 0 <= i < NUM_SLOTS ==> inputPins[i].None? && outputPins[i].None?
    {
      ledPins := new Option<bool>[NUM_LEDS](_ => None);
      inputPins := new Option<bool>[NUM_SLOTS](_ => None);
      outputPins := new Option<bool>[NUM_SLOTS](_ => None);
      ledInv := new bool[NUM_LEDS](_ => false);
      inputInv := new bool[NUM_SLOTS](_ => false);
      outputInv := new bool[NUM_SLOTS](_ => false);
    }
  }

  // ---------------------------------------------------------------------
  // The driver
  // ---------------------------------------------------------------------

  class Driver {
    /** The pin tables of the board header (index 0 unused). */
    var p8: seq<PinInfo>
    var p9: seq<PinInfo>
    var leds: seq<PinInfo>
    /** gpio_ports[n] != NULL: port n has been mapped. */
    var gpioPorts: seq<bool>
    /** The ports mapped so far, in order. */
    var mapLog: seq<int>
    /** The OE register of each GPIO port. */
    var oe: seq<bv32>
    /** Pad configuration written to the control module, by control offset. */
    var pads: map<int, bv32>
    /** Writes to the SETDATAOUT / CLEARDATAOUT registers, in order. */
    var dataWrites: seq<RegWrite>
    /** HAL export calls made so far. */
    var exportCalls: nat
    var halExited: bool
    var halReady: bool
    /** Set when a HAL bit was stored one past the end of its port-data
      array: the stores of P9.46, whose flat index is NUM_SLOTS. */
    var outOfRangeStore: bool

    ghost predicate Valid()
      reads this`p8, this`p9, this`leds, this`gpioPorts, this`oe, this`mapLog
    {
      |p8| == PIN_TABLE_SIZE && |p9| == PIN_TABLE_SIZE && |leds| == NUM_LEDS &&
      TableWellFormed(p8) && TableWellFormed(p9) && TableWellFormed(leds) &&
      |gpioPorts| == NUM_GPIO_PORTS && |oe| == NUM_GPIO_PORTS &&
      (forall k :: 0 <= k < |mapLog| ==> 0 <= mapLog[k] < NUM_GPIO_PORTS) &&
      (forall n :: 0 <= n < NUM_GPIO_PORTS ==> (gpioPorts[n] <==> n in mapLog)) &&
      (forall a, b :: 0 <= a < b < |mapLog| ==> mapLog[a] != mapLog[b])
    }

    /** The tables give pins separate registers and every pin claimed in a
      GPIO mode is configured for it. */
    ghost predicate PinsConfigured()
      reads this`p8, this`p9, this`leds, this`oe, this`pads
    {
      && |p8| == PIN_TABLE_SIZE && |p9| == PIN_TABLE_SIZE && |leds| == NUM_LEDS && |oe| == NUM_GPIO_PORTS
      && TableWellFormed(p8) && TableWellFormed(p9) && TableWellFormed(leds)
      && RegistersSeparate(p8, p9, leds) && ClaimsConfigured(p8, p9, leds, oe, pads)
    }

    constructor (p8: seq<PinInfo>, p9: seq<PinInfo>, leds: seq<PinInfo>, oe: seq<bv32>)
      requires |p8| == PIN_TABLE_SIZE && |p9| == PIN_TABLE_SIZE && |leds| == NUM_LEDS && |oe| == NUM_GPIO_PORTS
      requires TableWellFormed(p8) && TableWellFormed(p9) && TableWellFormed(leds)
      ensures Valid()
      ensures this.p8 == p8 && this.p9 == p9 && this.leds == leds && this.oe == oe
      ensures gpioPorts == [false, false, false, false] && mapLog == [] && dataWrites == []
      ensures pads == map[] && exportCalls == 0 && !halExited && !halReady && !outOfRangeStore
    {
      this.p8 := p8;
      this.p9 := p9;
      this.leds := leds;
      this.oe := oe;
      gpioPorts := [false, false, false, false];
      mapLog := [];
      pads := map[];
      dataWrites := [];
      exportCalls := 0;
      halExited := false;
      halReady := false;
      outOfRangeStore := false;
    }

    /** configure_gpio_port, for a port not yet mapped: the mapping at
      StartAddrForPort(n) itself is I/O and is only recorded. */
    method ConfigureGpioPort(n: int)
      requires Valid() && 0 <= n < NUM_GPIO_PORTS && !gpioPorts[n]
      modifies this`gpioPorts, this`mapLog
      ensures Valid()
      ensures gpioPorts == old(gpioPorts)[n := true] && mapLog == old(mapLog) + [n]
    {
      gpioPorts := gpioPorts[n := true];
      mapLog := mapLog + [n];
    }

    /** Map the port of a pin unless it is already mapped. */
    method EnsurePort(n: int)
      requires Valid() && 0 <= n < NUM_GPIO_PORTS
      modifies this`gpioPorts, this`mapLog
      ensures Valid()
      ensures gpioPorts == old(gpioPorts)[n := true]
      ensures old(gpioPorts[n]) ==> mapLog == old(mapLog)
      ensures !old(gpioPorts[n]) ==> mapLog == old(mapLog) + [n]
    {
      if !gpioPorts[n] {
        ConfigureGpioPort(n);
      }
    }

    /** The register part of configure_pin for a pin record: the OE bit and
      the pad configuration (only for a GPIO mode). */
    method ConfigurePinRegisters(pin: PinInfo, mode: char)
      requires Valid() && WellFormed(pin)
      modifies this`oe, this`pads
      ensures Valid()
      ensures oe == old(oe)[pin.portNum := OeAfter(old(oe)[pin.portNum], pin.pinNum, mode)]
      ensures pads == if IsGpioMode(mode) then old(pads)[pin.controlOffset := PadConfig(mode)] else old(pads)
    {
      if IsGpioMode(mode) {
        oe := oe[pin.portNum := OeAfter(oe[pin.portNum], pin.pinNum, mode)];
        pads := pads[pin.controlOffset := PadConfig(mode)];
      }
    }

    /** configure_pin for a header pin: record the claim, then set the
      registers. */
    method ConfigureHeaderPin(hp: HeaderPin, mode: char)
      requires Valid() && IsHeaderPin(hp)
      modifies this`p8, this`p9, this`oe, this`pads
      ensures Valid()
      ensures (p8, p9) == ClaimTables(old(p8), old(p9), hp, mode)
      ensures var pin := HeaderPinInfo(old(p8), old(p9), hp);
        oe == old(oe)[pin.portNum := OeAfter(old(oe)[pin.portNum], pin.pinNum, mode)] &&
        pads == if IsGpioMode(mode) then old(pads)[pin.controlOffset := PadConfig(mode)] else old(pads)
      ensures old(PinsConfigured()) ==> PinsConfigured()
    {
      if PinsConfigured() {
        ClaimConfigureKeepsConfigured(p8, p9, leds, oe, pads, hp, mode);
      }
      var pin := HeaderPinInfo(p8, p9, hp);
      if hp.header == 8 {
        p8 := p8[hp.pin := pin.(claimed := mode)];
      } else {
        p9 := p9[hp.pin := pin.(claimed := mode)];
      }
      ConfigurePinRegisters(pin, mode);
    }

    /** configure_pin for a user LED. */
    method ConfigureLedPin(led: nat, mode: char)
      requires Valid() && led < NUM_LEDS
      modifies this`leds, this`oe, this`pads
      ensures Valid()
      ensures leds == old(leds)[led := old(leds[led]).(claimed := mode)]
      ensures var pin := old(leds[led]);
        oe == old(oe)[pin.portNum := OeAfter(old(oe)[pin.portNum], pin.pinNum, mode)] &&
        pads == if IsGpioMode(mode) then old(pads)[pin.controlOffset := PadConfig(mode)] else old(pads)
      ensures old(PinsConfigured()) ==> PinsConfigured()
    {
      if PinsConfigured() {
        LedConfigureKeepsConfigured(p8, p9, leds, oe, pads, led, mode);
      }
      var pin := leds[led];
      leds := leds[led := pin.(claimed := mode)];
      ConfigurePinRegisters(pin, mode);
    }

    /** One HAL export call; it fails when it is call number `failAt`. */
    method Export(failAt: Option<nat>) returns (ok: bool)
      modifies this`exportCalls
      ensures exportCalls == old(exportCalls) + 1
      ensures ok <==> failAt != Some(old(exportCalls))
    {
      ok := failAt != Some(exportCalls);
      exportCalls := exportCalls + 1;
    }

    /** The end of rtapi_app_main: the export of the write function, then
      of the read function (the second is not attempted when the first
      fails); hal_exit when either fails, hal_ready otherwise. */
    method ExportFunctions(failAt: Option<nat>) returns (ok: bool)
      modifies this`exportCalls, this`halExited, this`halReady
      ensures ok <==> NoFailingExport(failAt, old(exportCalls), 2)
      ensures halReady == (old(halReady) || ok) && halExited == (old(halExited) || !ok)
    {
      ok := Export(failAt);
      if ok {
        ok := Export(failAt);
      }
      if ok {
        halReady := true;
      } else {
        halExited := true;
      }
    }

    /** The body of the input loop (`mode` 'U', the input arrays) or the
      output loop (`mode` 'O', the output arrays) of rtapi_app_main for one
      requested pin number: refuse a number outside the header ranges or a
      pin already claimed, then export and configure it. Every failure
      calls hal_exit and returns -1. The HAL bit and its invert are stored
      at the pin's flat index. */
    method ClaimHeaderPin(pins: array<Option<bool>>, inv: array<bool>, mode: char, pin: int, failAt: Option<nat>)
      returns (r: int)
      requires Valid() && pins.Length == NUM_SLOTS && inv.Length == NUM_SLOTS && (mode == 'U' || mode == 'O')
      modifies this`p8, this`p9, this`oe, this`pads, this`gpioPorts, this`mapLog, this`exportCalls, this`halExited
      modifies this`outOfRangeStore, pins, inv
      ensures Valid()
      ensures r == 0 || r == -1
      ensures halExited == (old(halExited) || r == -1)
      ensures leds == old(leds) && halReady == old(halReady) && dataWrites == old(dataWrites)
      ensures forall n :: 0 <= n < NUM_GPIO_PORTS && old(gpioPorts[n]) ==> gpioPorts[n]
      ensures !ClaimedAs(old(p8), old(p9), pin, NUL) ==>
                r == -1 && p8 == old(p8) && p9 == old(p9) && outOfRangeStore == old(outOfRangeStore) &&
                pins[..] == old(pins[..])
      ensures r == 0 <==>
        ClaimedAs(old(p8), old(p9), pin, NUL) && failAt != Some(old(exportCalls)) && failAt != Some(old(exportCalls) + 1)
      ensures r == 0 ==> exportCalls == old(exportCalls) + 2
      ensures r == -1 ==> p8 == old(p8) && p9 == old(p9)
      ensures ClaimedAs(old(p8), old(p9), pin, NUL) ==>
        pins[..] == old(pins[..]) || pins[..] == Store(old(pins[..]), ExportIndex(pin), Some(false))
      ensures forall i :: 0 <= i < NUM_SLOTS && old(pins[i]).Some? ==> pins[i].Some?
      ensures r == 0 ==> DecodePin(pin).Some? && (pin != 246 ==> pins[ExportIndex(pin)] == Some(false))
      ensures r == 0 ==>
        var hp := DecodePin(pin).value;
        var info := HeaderPinInfo(old(p8), old(p9), hp);
        && (p8, p9) == ClaimTables(old(p8), old(p9), hp, mode)
        && pins[..] == Store(old(pins[..]), ExportIndex(pin), Some(false))
        && inv[..] == Store(old(inv[..]), ExportIndex(pin), false)
        && outOfRangeStore == (old(outOfRangeStore) || pin == 246)
        && gpioPorts == old(gpioPorts)[info.portNum := true]
        && mapLog == (if old(gpioPorts[info.portNum]) then old(mapLog) else old(mapLog) + [info.portNum])
        && oe == old(oe)[info.portNum := OeAfter(old(oe)[info.portNum], info.pinNum, mode)]
        && pads == old(pads)[info.controlOffset := PadConfig(mode)]
      ensures r == -1 ==> gpioPorts == old(gpioPorts) && mapLog == old(mapLog) && oe == old(oe) && pads == old(pads)
      ensures old(PinsConfigured()) ==> PinsConfigured()
    {
      var d := DecodePin(pin);
      if d.None? {
        halExited := true;
        return -1;
      }
      var hp := d.value;
      if HeaderPinInfo(p8, p9, hp).claimed != NUL {
        halExited := true;
        return -1;
      }
      r := ExportHeaderPin(pins, inv, mode, hp, failAt);
    }

    /** The two HAL exports of one pin: its bit (exported as 0) and its
      invert parameter (set to false), stored at index i; either can fail.
      A store at index pins.Length lands past the array and is only
      recorded. */
    method ExportBits(pins: array<Option<bool>>, inv: array<bool>, i: nat, failAt: Option<nat>) returns (ok: bool)
      requires pins.Length == inv.Length && i <= pins.Length
      modifies this`exportCalls, this`outOfRangeStore, pins, inv
      ensures ok <==> failAt != Some(old(exportCalls)) && failAt != Some(old(exportCalls) + 1)
      ensures exportCalls == old(exportCalls) + (if failAt == Some(old(exportCalls)) then 1 else 2)
      ensures var pinOk := failAt != Some(old(exportCalls));
        && pins[..] == (if pinOk then Store(old(pins[..]), i, Some(false)) else old(pins[..]))
        && inv[..] == (if ok then Store(old(inv[..]), i, false) else old(inv[..]))
        && outOfRangeStore == (old(outOfRangeStore) || (pinOk && i == pins.Length))
    {
      ok := Export(failAt);
      if !ok {
        return;
      }
      if i < pins.Length {
        pins[i] := Some(false);
      } else {
        outOfRangeStore := true;
      }
      ok := Export(failAt);
      if !ok {
        return;
      }
      if i < inv.Length {
        inv[i] := false;
      }
    }

    /** The rest of that loop body for a free header pin: export the HAL bit
      and its invert parameter at the pin's flat index, map the pin's port
      if needed and configure the pin in `mode`. */
    method ExportHeaderPin(pins: array<Option<bool>>, inv: array<bool>, mode: char, hp: HeaderPin, failAt: Option<nat>)
      returns (r: int)
      requires Valid() && pins.Length == NUM_SLOTS && inv.Length == NUM_SLOTS && (mode == 'U' || mode == 'O')
      requires IsHeaderPin(hp) && HeaderPinInfo(p8, p9, hp).claimed == NUL
      modifies this`p8, this`p9, this`oe, this`pads, this`gpioPorts, this`mapLog, this`exportCalls, this`halExited
      modifies this`outOfRangeStore, pins, inv
      ensures Valid()
      ensures r == 0 || r == -1
      ensures halExited == (old(halExited) || r == -1)
      ensures leds == old(leds) && halReady == old(halReady) && dataWrites == old(dataWrites)
      ensures forall n :: 0 <= n < NUM_GPIO_PORTS && old(gpioPorts[n]) ==> gpioPorts[n]
      ensures r == 0 <==> failAt != Some(old(exportCalls)) && failAt != Some(old(exportCalls) + 1)
      ensures r == 0 ==> exportCalls == old(exportCalls) + 2
      ensures r == -1 ==> p8 == old(p8) && p9 == old(p9)
      ensures pins[..] == old(pins[..]) || pins[..] == Store(old(pins[..]), FlatIndex(hp), Some(false))
      ensures r == 0 ==>
        var info := HeaderPinInfo(old(p8), old(p9), hp);
        && (p8, p9) == ClaimTables(old(p8), old(p9), hp, mode)
        && pins[..] == Store(old(pins[..]), FlatIndex(hp), Some(false))
        && inv[..] == Store(old(inv[..]), FlatIndex(hp), false)
        && outOfRangeStore == (old(outOfRangeStore) || hp == HeaderPin(9, PINS_PER_HEADER))
        && gpioPorts == old(gpioPorts)[info.portNum := true]
        && mapLog == (if old(gpioPorts[info.portNum]) then old(mapLog) else old(mapLog) + [info.portNum])
        && oe == old(oe)[info.portNum := OeAfter(old(oe)[info.portNum], info.pinNum, mode)]
        && pads == old(pads)[info.controlOffset := PadConfig(mode)]
      ensures r == -1 ==> gpioPorts == old(gpioPorts) && mapLog == old(mapLog) && oe == old(oe) && pads == old(pads)
      ensures old(PinsConfigured()) ==> PinsConfigured()
    {
      var ok := ExportBits(pins, inv, FlatIndex(hp), failAt);
      if !ok {
        halExited := true;
        return -1;
      }
      ConfigureClaimed(hp, mode);
      r := 0;
    }

    /** The end of that loop body: map the pin's port if needed, then
      configure the pin in `mode`. */
    method ConfigureClaimed(hp: HeaderPin, mode: char)
      requires Valid() && IsHeaderPin(hp)
      modifies this`p8, this`p9, this`oe, this`pads, this`gpioPorts, this`mapLog
      ensures Valid()
      ensures forall n :: 0 <= n < NUM_GPIO_PORTS && old(gpioPorts[n]) ==> gpioPorts[n]
      ensures var info := HeaderPinInfo(old(p8), old(p9), hp);
        && (p8, p9) == ClaimTables(old(p8), old(p9), hp, mode)
        && gpioPorts == old(gpioPorts)[info.portNum := true]
        && mapLog == (if old(gpioPorts[info.portNum]) then old(mapLog) else old(mapLog) + [info.portNum])
        && oe == old(oe)[info.portNum := OeAfter(old(oe)[info.portNum], info.pinNum, mode)]
        && pads == if IsGpioMode(mode) then old(pads)[info.controlOffset := PadConfig(mode)] else old(pads)
      ensures old(PinsConfigured()) ==> PinsConfigured()
    {
      EnsurePort(HeaderPinInfo(p8, p9, hp).portNum);
      ConfigureHeaderPin(hp, mode);
    }

    /** The end of that loop body: map the LED's port if needed, then
      configure the LED as an output. */
    method ConfigureClaimedLed(led: nat)
      requires Valid() && led < NUM_LEDS
      modifies this`leds, this`oe, this`pads, this`gpioPorts, this`mapLog
      ensures Valid()
      ensures forall n :: 0 <= n < NUM_GPIO_PORTS && old(gpioPorts[n]) ==> gpioPorts[n]
      ensures var pin := old(leds[led]);
        && leds == old(leds)[led := pin.(claimed := 'O')]
        && gpioPorts == old(gpioPorts)[pin.portNum := true]
        && mapLog == (if old(gpioPorts[pin.portNum]) then old(mapLog) else old(mapLog) + [pin.portNum])
        && oe == old(oe)[pin.portNum := OeAfter(old(oe)[pin.portNum], pin.pinNum, 'O')]
        && pads == old(pads)[pin.controlOffset := PadConfig('O')]
      ensures old(PinsConfigured()) ==> PinsConfigured()
    {
      EnsurePort(leds[led].portNum);
      ConfigureLedPin(led, 'O');
    }

    /** The body of the user-LED loop of rtapi_app_main for LED `led`. */
    method ClaimLed(port: PortData, led: nat, failAt: Option<nat>) returns (r: int)
      requires Valid() && port.Valid() && led < NUM_LEDS
      modifies this`leds, this`oe, this`pads, this`gpioPorts, this`mapLog, this`exportCalls, this`halExited
      modifies this`outOfRangeStore, port.ledPins, port.ledInv
      ensures Valid()
      ensures r == 0 || r == -1
      ensures halExited == (old(halExited) || r == -1)
      ensures r == 0 <==>
        old(leds[led]).claimed == NUL && failAt != Some(old(exportCalls)) && failAt != Some(old(exportCalls) + 1)
      ensures r == 0 ==> exportCalls == old(exportCalls) + 2
      ensures r == 0 ==>
        && leds == old(leds)[led := old(leds[led]).(claimed := 'O')]
        && port.ledPins[..] == old(port.ledPins[..])[led := Some(false)]
        && port.ledInv[..] == old(port.ledInv[..])[led := false]
        && gpioPorts == old(gpioPorts)[old(leds[led]).portNum := true]
        && mapLog == (if old(gpioPorts[leds[led].portNum]) then old(mapLog) else old(mapLog) + [old(leds[led]).portNum])
        && oe == old(oe)[old(leds[led]).portNum := OeAfter(old(oe)[old(leds[led]).portNum], old(leds[led]).pinNum, 'O')]
        && pads == old(pads)[old(leds[led]).controlOffset := PadConfig('O')]
      ensures r == -1 ==>
        leds == old(leds) && gpioPorts == old(gpioPorts) && mapLog == old(mapLog) && oe == old(oe) && pads == old(pads)
      ensures forall i :: 0 <= i < NUM_LEDS && old(port.ledPins[i]).Some? ==> port.ledPins[i].Some?
      ensures p8 == old(p8) && p9 == old(p9) && halReady == old(halReady) && dataWrites == old(dataWrites)
      ensures outOfRangeStore == old(outOfRangeStore)
      ensures forall n :: 0 <= n < NUM_GPIO_PORTS && old(gpioPorts[n]) ==> gpioPorts[n]
      ensures old(PinsConfigured()) ==> PinsConfigured()
    {
      if leds[led].claimed != NUL {
        halExited := true;
        return -1;
      }
      var ok := ExportBits(port.ledPins, port.ledInv, led, failAt);
      if !ok {
        halExited := true;
        return -1;
      }
      ConfigureClaimedLed(led);
      r := 0;
    }

    /** Pass j of the LED loop of rtapi_app_main (LED tokens[j]), with
      `leds0` and `calls0` the LED table and export count before the loop
      and the first j LEDs claimed: the pass succeeds iff ClaimLedsResult
      of the first j + 1 LEDs does, that is iff the LED is free and neither
      export fails, and the LED table is then that result. On failure the
      table is unchanged. The bits stored for earlier LEDs stay stored. */
    method ClaimNextLed(port: PortData, tokens: seq<int>, j: nat, failAt: Option<nat>,
                        ghost leds0: seq<PinInfo>, ghost calls0: nat) returns (r: int)
      requires Valid() && port.Valid() && !halReady && !halExited && j < |tokens|
      requires forall k :: 0 <= k < |tokens| ==> 0 <= tokens[k] < NUM_LEDS
      requires |leds0| == NUM_LEDS && ClaimLedsResult(leds0, tokens, j, calls0, failAt) == Some(leds)
      requires exportCalls == calls0 + 2 * j
      requires forall k :: 0 <= k < j ==> port.ledPins[tokens[k]].Some?
      modifies this`leds, this`oe, this`pads, this`gpioPorts, this`mapLog, this`exportCalls, this`halExited
      modifies this`outOfRangeStore, port.ledPins, port.ledInv
      ensures Valid()
      ensures r == 0 || r == -1
      ensures halExited == (r == -1) && !halReady
      ensures p8 == old(p8) && p9 == old(p9) && outOfRangeStore == old(outOfRangeStore) && dataWrites == old(dataWrites)
      ensures forall i :: 0 <= i < NUM_LEDS && old(port.ledPins[i]).Some? ==> port.ledPins[i].Some?
      ensures r == 0 ==>
        exportCalls == calls0 + 2 * (j + 1) && ClaimLedsResult(leds0, tokens, j + 1, calls0, failAt) == Some(leds)
      ensures r == -1 ==> ClaimLedsResult(leds0, tokens, j + 1, calls0, failAt).None? && leds == old(leds)
      ensures r == 0 ==> forall k :: 0 <= k < j + 1 ==> port.ledPins[tokens[k]].Some?
      ensures forall n :: 0 <= n < NUM_GPIO_PORTS && old(gpioPorts[n]) ==> gpioPorts[n]
      ensures old(PinsConfigured()) ==> PinsConfigured()
    {
      ghost var t := leds;
      r := ClaimLed(port, tokens[j], failAt);
      ClaimLedsResultStep(leds0, tokens, j, calls0, failAt, t);
    }

    /** The LED loop of rtapi_app_main over the requested LED numbers. It
      succeeds iff ClaimLedsResult does, that is iff the numbers are
      distinct, each names a free LED, and no export fails; the LED table
      is then ClaimLedsResult's. */
    method ClaimLeds(port: PortData, tokens: seq<int>, failAt: Option<nat>) returns (r: int)
      requires Valid() && port.Valid() && !halReady && !halExited
      requires forall j :: 0 <= j < |tokens| ==> 0 <= tokens[j] < NUM_LEDS
      modifies this`leds, this`oe, this`pads, this`gpioPorts, this`mapLog, this`exportCalls, this`halExited
      modifies this`outOfRangeStore, port.ledPins, port.ledInv
      ensures Valid()
      ensures r == 0 || r == -1
      ensures halExited == (r == -1) && !halReady
      ensures p8 == old(p8) && p9 == old(p9) && outOfRangeStore == old(outOfRangeStore) && dataWrites == old(dataWrites)
      ensures r == 0 <==> ClaimLedsResult(old(leds), tokens, |tokens|, old(exportCalls), failAt).Some?
      ensures r == 0 ==> Some(leds) == ClaimLedsResult(old(leds), tokens, |tokens|, old(exportCalls), failAt)
      ensures r == 0 <==>
        Distinct(tokens) && LedsFree(old(leds), tokens) && NoFailingExport(failAt, old(exportCalls), 2 * |tokens|)
      ensures r == 0 ==> exportCalls == old(exportCalls) + 2 * |tokens|
      ensures r == 0 ==> forall j :: 0 <= j < |tokens| ==> leds[tokens[j]].claimed == 'O' && port.ledPins[tokens[j]].Some?
      ensures forall n :: 0 <= n < NUM_GPIO_PORTS && old(gpioPorts[n]) ==> gpioPorts[n]
      ensures old(PinsConfigured()) ==> PinsConfigured()
    {
      ghost var leds0, calls0, conf := leds, exportCalls, PinsConfigured();
      var j := 0;
      r := 0;
      while j < |tokens| && r == 0
        invariant j <= |tokens| && (r == 0 || r == -1)
        invariant Valid() && port.Valid() && !halReady && halExited == (r == -1)
        invariant p8 == old(p8) && p9 == old(p9) && outOfRangeStore == old(outOfRangeStore) && dataWrites == old(dataWrites)
        invariant ClaimLedsResult(leds0, tokens, j, calls0, failAt) == Some(leds)
        invariant r == 0 ==> exportCalls == calls0 + 2 * j
        invariant r == 0 ==> forall k :: 0 <= k < j ==> port.ledPins[tokens[k]].Some?
        invariant r == -1 ==> j < |tokens| && ClaimLedsResult(leds0, tokens, j + 1, calls0, failAt).None?
        invariant forall n :: 0 <= n < NUM_GPIO_PORTS && old(gpioPorts[n]) ==> gpioPorts[n]
        invariant conf ==> PinsConfigured()
        decreases |tokens| - j, r + 1
      {
        r := ClaimNextLed(port, tokens, j, failAt, leds0, calls0);
        if r == 0 {
          j := j + 1;
        }
      }
      ClaimLedsResultOk(leds0, tokens, |tokens|, calls0, failAt);
      if r == 0 {
        assert tokens[..|tokens|] == tokens;
        ClaimLedsResultTable(leds0, tokens, |tokens|, calls0, failAt);
      } else {
        ClaimLedsResultFails(leds0, tokens, j + 1, |tokens|, calls0, failAt);
      }
    }

    /** Pass j of the input loop (`mode` 'U') or the output loop (`mode`
      'O') of rtapi_app_main (number tokens[j]). The ghost parameters are
      the state before the loop: the tables (p80, p90), the export count
      `calls0`, the HAL bits `pins0`, the out-of-range flag `store0`, the
      mapped ports `gpio0` and whether the claims were configured (`conf`).
      With the first j numbers claimed, the pass succeeds iff
      ClaimPinsResult of the first j + 1 numbers does, that is iff the
      number names a free header pin and neither export fails, and the
      tables are then that result. On failure the tables are unchanged. No
      HAL bit, mapped port or configured claim is lost. */
    method ClaimNextPin(pins: array<Option<bool>>, inv: array<bool>, mode: char, tokens: seq<int>, j: nat,
                        failAt: Option<nat>, ghost p80: seq<PinInfo>, ghost p90: seq<PinInfo>, ghost calls0: nat,
                        ghost pins0: seq<Option<bool>>, ghost store0: bool, ghost gpio0: seq<bool>, ghost conf: bool)
      returns (r: int)
      requires Valid() && pins.Length == NUM_SLOTS && inv.Length == NUM_SLOTS && (mode == 'U' || mode == 'O')
      requires !halReady && !halExited && j < |tokens|
      requires |p80| == |p90| == PIN_TABLE_SIZE && TableWellFormed(p80) && TableWellFormed(p90)
      requires ClaimPinsResult(p80, p90, tokens, j, mode, calls0, failAt) == Some((p8, p9))
      requires exportCalls == calls0 + 2 * j
      requires |pins0| == NUM_SLOTS && forall i :: 0 <= i < NUM_SLOTS && pins0[i].Some? ==> pins[i].Some?
      requires forall k :: 0 <= k < j ==> DecodePin(tokens[k]).Some? && (tokens[k] != 246 ==> pins[ExportIndex(tokens[k])].Some?)
      requires outOfRangeStore == (store0 || OccursBefore(tokens, j, 246))
      requires |gpio0| == NUM_GPIO_PORTS && forall n :: 0 <= n < NUM_GPIO_PORTS && gpio0[n] ==> gpioPorts[n]
      requires conf ==> PinsConfigured()
      modifies this`p8, this`p9, this`oe, this`pads, this`gpioPorts, this`mapLog, this`exportCalls, this`halExited
      modifies this`outOfRangeStore, pins, inv
      ensures Valid()
      ensures r == 0 || r == -1
      ensures halExited == (r == -1) && !halReady
      ensures leds == old(leds) && dataWrites == old(dataWrites)
      ensures forall i :: 0 <= i < NUM_SLOTS && pins0[i].Some? ==> pins[i].Some?
      ensures r == 0 ==>
        exportCalls == calls0 + 2 * (j + 1) && ClaimPinsResult(p80, p90, tokens, j + 1, mode, calls0, failAt) == Some((p8, p9))
      ensures r == -1 ==> ClaimPinsResult(p80, p90, tokens, j + 1, mode, calls0, failAt).None? && p8 == old(p8) && p9 == old(p9)
      ensures r == 0 ==>
        forall k :: 0 <= k < j + 1 ==> DecodePin(tokens[k]).Some? && (tokens[k] != 246 ==> pins[ExportIndex(tokens[k])].Some?)
      ensures r == 0 ==> outOfRangeStore == (store0 || OccursBefore(tokens, j + 1, 246))
      ensures forall n :: 0 <= n < NUM_GPIO_PORTS && gpio0[n] ==> gpioPorts[n]
      ensures conf ==> PinsConfigured()
    {
      ghost var a, b := p8, p9;
      r := ClaimHeaderPin(pins, inv, mode, tokens[j], failAt);
      ClaimPinsResultStep(p80, p90, tokens, j, mode, calls0, failAt, a, b);
    }

    /** The passes of the input or output loop of rtapi_app_main up to the
      first that fails. The first `n` passes succeed: the tables are then
      ClaimPinsResult of the first n numbers. The loop completes (r == 0)
      when n is all of them; otherwise ClaimPinsResult fails at pass n + 1.
      No HAL bit, mapped port or configured claim is lost. */
    method ClaimPinPasses(pins: array<Option<bool>>, inv: array<bool>, mode: char, tokens: seq<int>, failAt: Option<nat>)
      returns (r: int, ghost n: nat)
      requires Valid() && pins.Length == NUM_SLOTS && inv.Length == NUM_SLOTS && (mode == 'U' || mode == 'O')
      requires !halReady && !halExited
      modifies this`p8, this`p9, this`oe, this`pads, this`gpioPorts, this`mapLog, this`exportCalls, this`halExited
      modifies this`outOfRangeStore, pins, inv
      ensures Valid()
      ensures r == 0 || r == -1
      ensures halExited == (r == -1) && !halReady
      ensures leds == old(leds) && dataWrites == old(dataWrites)
      ensures forall i :: 0 <= i < NUM_SLOTS && old(pins[i]).Some? ==> pins[i].Some?
      ensures n <= |tokens| && ClaimPinsResult(old(p8), old(p9), tokens, n, mode, old(exportCalls), failAt) == Some((p8, p9))
      ensures r == 0 ==> n == |tokens| && exportCalls == old(exportCalls) + 2 * n
      ensures r == 0 ==>
        forall k :: 0 <= k < n ==> DecodePin(tokens[k]).Some? && (tokens[k] != 246 ==> pins[ExportIndex(tokens[k])].Some?)
      ensures r == 0 ==> outOfRangeStore == (old(outOfRangeStore) || OccursBefore(tokens, n, 246))
      ensures r == -1 ==> n < |tokens| && ClaimPinsResult(old(p8), old(p9), tokens, n + 1, mode, old(exportCalls), failAt).None?
      ensures forall n :: 0 <= n < NUM_GPIO_PORTS && old(gpioPorts[n]) ==> gpioPorts[n]
      ensures old(PinsConfigured()) ==> PinsConfigured()
    {
      ghost var p80, p90, calls0, pins0, store0, gpio0, conf :=
        p8, p9, exportCalls, pins[..], outOfRangeStore, gpioPorts, PinsConfigured();
      for j := 0 to |tokens|
        invariant Valid() && !halReady && !halExited
        invariant leds == old(leds) && dataWrites == old(dataWrites)
        invariant forall i :: 0 <= i < NUM_SLOTS && pins0[i].Some? ==> pins[i].Some?
        invariant ClaimPinsResult(p80, p90, tokens, j, mode, calls0, failAt) == Some((p8, p9))
        invariant exportCalls == calls0 + 2 * j
        invariant forall k :: 0 <= k < j ==>
          DecodePin(tokens[k]).Some? && (tokens[k] != 246 ==> pins[ExportIndex(tokens[k])].Some?)
        invariant outOfRangeStore == (store0 || OccursBefore(tokens, j, 246))
        invariant forall n :: 0 <= n < NUM_GPIO_PORTS && gpio0[n] ==> gpioPorts[n]
        invariant conf ==> PinsConfigured()
      {
        n := j;
        r := ClaimNextPin(pins, inv, mode, tokens, j, failAt, p80, p90, calls0, pins0, store0, gpio0, conf);
        if r < 0 {
          return;
        }
      }
      r, n := 0, |tokens|;
    }

    /** The input loop (`mode` 'U', the input arrays) or the output loop
      (`mode` 'O', the output arrays) of rtapi_app_main over the requested
      pin numbers. It succeeds iff ClaimPinsResult does, that is iff the
      numbers are distinct, each names a free header pin, and no export
      fails; the tables are then ClaimPinsResult's. Pins claimed before
      keep their claim and stored bits stay stored. */
    method ClaimHeaderPins(pins: array<Option<bool>>, inv: array<bool>, mode: char, tokens: seq<int>, failAt: Option<nat>)
      returns (r: int)
      requires Valid() && pins.Length == NUM_SLOTS && inv.Length == NUM_SLOTS && (mode == 'U' || mode == 'O')
      requires !halReady && !halExited
      modifies this`p8, this`p9, this`oe, this`pads, this`gpioPorts, this`mapLog, this`exportCalls, this`halExited
      modifies this`outOfRangeStore, pins, inv
      ensures Valid()
      ensures r == 0 || r == -1
      ensures halExited == (r == -1) && !halReady
      ensures leds == old(leds) && dataWrites == old(dataWrites)
      ensures forall i :: 0 <= i < NUM_SLOTS && old(pins[i]).Some? ==> pins[i].Some?
      ensures r == 0 <==> ClaimPinsResult(old(p8), old(p9), tokens, |tokens|, mode, old(exportCalls), failAt).Some?
      ensures r == 0 ==> Some((p8, p9)) == ClaimPinsResult(old(p8), old(p9), tokens, |tokens|, mode, old(exportCalls), failAt)
      ensures r == 0 <==>
        Distinct(tokens) && PinsFree(old(p8), old(p9), tokens) && NoFailingExport(failAt, old(exportCalls), 2 * |tokens|)
      ensures r == 0 ==> exportCalls == old(exportCalls) + 2 * |tokens|
      ensures r == 0 ==>
        forall j :: 0 <= j < |tokens| ==>
          ClaimedAs(p8, p9, tokens[j], mode) && (tokens[j] != 246 ==> pins[ExportIndex(tokens[j])].Some?)
      ensures r == 0 ==> forall pin :: pin !in tokens ==> (ClaimedAs(p8, p9, pin, NUL) <==> ClaimedAs(old(p8), old(p9), pin, NUL))
      ensures r == 0 ==> outOfRangeStore == (old(outOfRangeStore) || 246 in tokens)
      ensures forall pin, m :: m != NUL && ClaimedAs(old(p8), old(p9), pin, m) ==> ClaimedAs(p8, p9, pin, m)
      ensures forall n :: 0 <= n < NUM_GPIO_PORTS && old(gpioPorts[n]) ==> gpioPorts[n]
      ensures old(PinsConfigured()) ==> PinsConfigured()
    {
      ghost var p80, p90, calls0, store0 := p8, p9, exportCalls, outOfRangeStore;
      ghost var n;
      r, n := ClaimPinPasses(pins, inv, mode, tokens, failAt);
      ClaimPinsResultOk(p80, p90, tokens, |tokens|, mode, calls0, failAt);
      ClaimPinsResultTables(p80, p90, tokens, n, mode, calls0, failAt);
      if r == 0 {
        assert tokens[..|tokens|] == tokens;
        OccursBeforeIn(tokens, |tokens|, 246);
      } else {
        ClaimPinsResultFails(p80, p90, tokens, n + 1, |tokens|, mode, calls0, failAt);
      }
    }

    /** The LED loop, then the input and output loops, of rtapi_app_main. */
    method ClaimRequested(port: PortData, ledList: Option<seq<int>>, inputList: Option<seq<int>>,
                          outputList: Option<seq<int>>, failAt: Option<nat>) returns (r: int)
      requires Valid() && port.Valid() && !halReady && !halExited
      requires ledList.Some? ==> forall j :: 0 <= j < |ledList.value| ==> 0 <= ledList.value[j] < NUM_LEDS
      modifies this`p8, this`p9, this`leds, this`oe, this`pads, this`gpioPorts, this`mapLog, this`exportCalls, this`halExited
      modifies this`outOfRangeStore, port.ledPins, port.ledInv, port.inputPins, port.outputPins, port.inputInv, port.outputInv
      ensures Valid()
      ensures r == 0 || r == -1
      ensures halExited == (r == -1) && !halReady
      ensures r == 0 <==>
        var pins := Listed(inputList) + Listed(outputList);
        RequestFree(old(leds), old(p8), old(p9), Listed(ledList), pins) &&
        NoFailingExport(failAt, old(exportCalls), 2 * (|Listed(ledList)| + |pins|))
      ensures r == 0 ==> exportCalls == old(exportCalls) + 2 * (|Listed(ledList)| + |Listed(inputList) + Listed(outputList)|)
      ensures dataWrites == old(dataWrites)
      ensures r == 0 && ledList.Some? ==>
                forall j :: 0 <= j < |ledList.value| ==>
                  leds[ledList.value[j]].claimed == 'O' && port.ledPins[ledList.value[j]].Some?
      ensures r == 0 && inputList.Some? ==>
                forall j :: 0 <= j < |inputList.value| ==>
                  ClaimedAs(p8, p9, inputList.value[j], 'U') &&
                  (inputList.value[j] != 246 ==> port.inputPins[ExportIndex(inputList.value[j])].Some?)
      ensures r == 0 && outputList.Some? ==>
                forall j :: 0 <= j < |outputList.value| ==>
                  ClaimedAs(p8, p9, outputList.value[j], 'O') &&
                  (outputList.value[j] != 246 ==> port.outputPins[ExportIndex(outputList.value[j])].Some?)
      ensures r == 0 ==>
                outOfRangeStore == (old(outOfRangeStore) || (inputList.Some? && 246 in inputList.value) ||
                                    (outputList.Some? && 246 in outputList.value))
      ensures forall n :: 0 <= n < NUM_GPIO_PORTS && old(gpioPorts[n]) ==> gpioPorts[n]
      ensures old(PinsConfigured()) ==> PinsConfigured()
      ensures r == 0 && old(PinsConfigured()) && ledList.Some? ==>
                forall j :: 0 <= j < |ledList.value| ==>
                  var info := leds[ledList.value[j]];
                  !Bit(oe[info.portNum], info.pinNum) && info.controlOffset in pads &&
                  pads[info.controlOffset] == PadConfig('O')
      ensures r == 0 && old(PinsConfigured()) && inputList.Some? ==>
                forall j :: 0 <= j < |inputList.value| ==>
                  DecodePin(inputList.value[j]).Some? &&
                  var info := HeaderPinInfo(p8, p9, DecodePin(inputList.value[j]).value);
                  Bit(oe[info.portNum], info.pinNum) && info.controlOffset in pads &&
                  pads[info.controlOffset] == PadConfig('U')
      ensures r == 0 && old(PinsConfigured()) && outputList.Some? ==>
                forall j :: 0 <= j < |outputList.value| ==>
                  DecodePin(outputList.value[j]).Some? &&
                  var info := HeaderPinInfo(p8, p9, DecodePin(outputList.value[j]).value);
                  !Bit(oe[info.portNum], info.pinNum) && info.controlOffset in pads &&
                  pads[info.controlOffset] == PadConfig('O')
    {
      r := 0;
      if ledList.Some? {
        r := ClaimLeds(port, ledList.value, failAt);
        if r < 0 {
          return -1;
        }
      }
      r := ClaimHeaderLists(port, inputList, outputList, failAt);
    }

    /** rtapi_app_main with the comma-separated module parameters already
      split into numbers (None for a parameter that was not given):
      hal_init (`halInitOk`), hal_malloc of the port data (`mallocOk`,
      `port` being the allocated block), the LED, input and output loops,
      then the export of the write and read functions. The caller lists LED
      numbers 0..3 only: the driver indexes its LED table with them
      unchecked. */
    method RtapiAppMain(port: PortData, ledList: Option<seq<int>>, inputList: Option<seq<int>>,
                        outputList: Option<seq<int>>, halInitOk: bool, mallocOk: bool,
                        failAt: Option<nat>) returns (r: int)
      requires Valid() && port.Valid() && !halReady && !halExited
      requires ledList.Some? ==> forall j :: 0 <= j < |ledList.value| ==> 0 <= ledList.value[j] < NUM_LEDS
      modifies this`p8, this`p9, this`leds, this`oe, this`pads, this`gpioPorts, this`mapLog, this`exportCalls, this`halExited, this`halReady
      modifies this`outOfRangeStore, port.ledPins, port.ledInv, port.inputPins, port.outputPins, port.inputInv, port.outputInv
      ensures Valid()
      ensures r == 0 || r == -1
      ensures !halInitOk ==> r == -1 && !halExited && p8 == old(p8) && p9 == old(p9) && leds == old(leds)
      ensures halInitOk && !mallocOk ==> r == -1 && halExited && p8 == old(p8) && p9 == old(p9) && leds == old(leds)
      ensures halInitOk && r == -1 ==> halExited && !halReady
      ensures r == 0 <==>
        var pins := Listed(inputList) + Listed(outputList);
        halInitOk && mallocOk && RequestFree(old(leds), old(p8), old(p9), Listed(ledList), pins) &&
        NoFailingExport(failAt, old(exportCalls), 2 * (|Listed(ledList)| + |pins|) + 2)
      ensures r == 0 <==> halReady
      ensures r == 0 ==> !halExited
      ensures dataWrites == old(dataWrites)
      ensures r == 0 && ledList.Some? ==>
                forall j :: 0 <= j < |ledList.value| ==>
                  leds[ledList.value[j]].claimed == 'O' && port.ledPins[ledList.value[j]].Some?
      ensures r == 0 && inputList.Some? ==>
                forall j :: 0 <= j < |inputList.value| ==>
                  ClaimedAs(p8, p9, inputList.value[j], 'U') &&
                  (inputList.value[j] != 246 ==> port.inputPins[ExportIndex(inputList.value[j])].Some?)
      ensures r == 0 && outputList.Some? ==>
                forall j :: 0 <= j < |outputList.value| ==>
                  ClaimedAs(p8, p9, outputList.value[j], 'O') &&
                  (outputList.value[j] != 246 ==> port.outputPins[ExportIndex(outputList.value[j])].Some?)
      ensures r == 0 ==>
                outOfRangeStore == (old(outOfRangeStore) || (inputList.Some? && 246 in inputList.value) ||
                                    (outputList.Some? && 246 in outputList.value))
      ensures forall n :: 0 <= n < NUM_GPIO_PORTS && old(gpioPorts[n]) ==> gpioPorts[n]
      ensures old(PinsConfigured()) ==> PinsConfigured()
      ensures r == 0 && old(PinsConfigured()) && ledList.Some? ==>
                forall j :: 0 <= j < |ledList.value| ==>
                  var info := leds[ledList.value[j]];
                  !Bit(oe[info.portNum], info.pinNum) && info.controlOffset in pads &&
                  pads[info.controlOffset] == PadConfig('O')
      ensures r == 0 && old(PinsConfigured()) && inputList.Some? ==>
                forall j :: 0 <= j < |inputList.value| ==>
                  DecodePin(inputList.value[j]).Some? &&
                  var info := HeaderPinInfo(p8, p9, DecodePin(inputList.value[j]).value);
                  Bit(oe[info.portNum], info.pinNum) && info.controlOffset in pads &&
                  pads[info.controlOffset] == PadConfig('U')
      ensures r == 0 && old(PinsConfigured()) && outputList.Some? ==>
                forall j :: 0 <= j < |outputList.value| ==>
                  DecodePin(outputList.value[j]).Some? &&
                  var info := HeaderPinInfo(p8, p9, DecodePin(outputList.value[j]).value);
                  !Bit(oe[info.portNum], info.pinNum) && info.controlOffset in pads &&
                  pads[info.controlOffset] == PadConfig('O')
    {
      if !halInitOk {
        return -1;
      }
      if !mallocOk {
        halExited := true;
        return -1;
      }
      ghost var claims := 2 * (|Listed(ledList)| + |Listed(inputList) + Listed(outputList)|);
      NoFailingExportSplit(failAt, exportCalls, claims, 2);
      r := ClaimRequested(port, ledList, inputList, outputList, failAt);
      if r < 0 {
        return -1;
      }
      var ok := ExportFunctions(failAt);
      r := if ok then 0 else -1;
    }

    /** The input loop, then the output loop, of rtapi_app_main. */
    method ClaimHeaderLists(port: PortData, inputList: Option<seq<int>>, outputList: Option<seq<int>>,
                            failAt: Option<nat>) returns (r: int)
      requires Valid() && port.Valid() && !halReady && !halExited
      modifies this`p8, this`p9, this`oe, this`pads, this`gpioPorts, this`mapLog, this`exportCalls, this`halExited
      modifies this`outOfRangeStore, port.inputPins, port.outputPins, port.inputInv, port.outputInv
      ensures Valid()
      ensures r == 0 || r == -1
      ensures halExited == (r == -1) && !halReady
      ensures leds == old(leds) && dataWrites == old(dataWrites)
      ensures r == 0 <==>
        var pins := Listed(inputList) + Listed(outputList);
        Distinct(pins) && PinsFree(old(p8), old(p9), pins) && NoFailingExport(failAt, old(exportCalls), 2 * |pins|)
      ensures r == 0 ==> exportCalls == old(exportCalls) + 2 * (|Listed(inputList)| + |Listed(outputList)|)
      ensures r == 0 && inputList.Some? ==>
                forall j :: 0 <= j < |inputList.value| ==>
                  ClaimedAs(p8, p9, inputList.value[j], 'U') &&
                  (inputList.value[j] != 246 ==> port.inputPins[ExportIndex(inputList.value[j])].Some?)
      ensures r == 0 && outputList.Some? ==>
                forall j :: 0 <= j < |outputList.value| ==>
                  ClaimedAs(p8, p9, outputList.value[j], 'O') &&
                  (outputList.value[j] != 246 ==> port.outputPins[ExportIndex(outputList.value[j])].Some?)
      ensures r == 0 ==>
                outOfRangeStore == (old(outOfRangeStore) || (inputList.Some? && 246 in inputList.value) ||
                                    (outputList.Some? && 246 in outputList.value))
      ensures forall n :: 0 <= n < NUM_GPIO_PORTS && old(gpioPorts[n]) ==> gpioPorts[n]
      ensures old(PinsConfigured()) ==> PinsConfigured()
    {
      ghost var ins, outs := Listed(inputList), Listed(outputList);
      PinsPrefixFree(p8, p9, ins, outs);
      r := 0;
      if inputList.Some? {
        r := ClaimHeaderPins(port.inputPins, port.inputInv, 'U', inputList.value, failAt);
        if r < 0 {
          return -1;
        }
      }
      PinsFreeAppend(old(p8), old(p9), p8, p9, ins, outs);
      ghost var afterInputs := (p8, p9);
      ghost var afterInputPins := port.inputPins[..];
      if outputList.Some? {
        r := ClaimHeaderPins(port.outputPins, port.outputInv, 'O', outputList.value, failAt);
        if r < 0 {
          return -1;
        }
        if inputList.Some? {
          forall j | 0 <= j < |inputList.value|
            ensures ClaimedAs(p8, p9, inputList.value[j], 'U')
          {
            assert ClaimedAs(afterInputs.0, afterInputs.1, inputList.value[j], 'U');
          }
          forall j | 0 <= j < |inputList.value| && inputList.value[j] != 246
            ensures port.inputPins[ExportIndex(inputList.value[j])].Some?
          {
            assert afterInputPins[ExportIndex(inputList.value[j])].Some?;
          }
        }
      }
      r := 0;
    }

    /** write_port: for each LED, then each flat index from 1 on, with an
      exported HAL bit and a looked-up entry claimed 'O', write the pin's
      bit to CLEARDATAOUT when the bit XOR its invert is 0 and to
      SETDATAOUT otherwise. */
    method WritePort(port: PortData)
      requires Valid() && port.Valid()
      modifies this`dataWrites
      ensures dataWrites == old(dataWrites)
                            + LedWrites(port.ledPins[..], port.ledInv[..], leds, NUM_LEDS)
                            + OutputWrites(port.outputPins[..], port.outputInv[..], p8, p9, NUM_SLOTS)
    {
      WriteLeds(port);
      WriteOutputs(port);
    }

    /** The LED loop of write_port. */
    method WriteLeds(port: PortData)
      requires Valid() && port.Valid()
      modifies this`dataWrites
      ensures dataWrites == old(dataWrites) + LedWrites(port.ledPins[..], port.ledInv[..], leds, NUM_LEDS)
    {
      for i := 0 to NUM_LEDS
        invariant dataWrites == old(dataWrites) + LedWrites(port.ledPins[..], port.ledInv[..], leds, i)
      {
        var pin := leds[i];
        if port.ledPins[i].Some? && pin.claimed == 'O' {
          dataWrites := dataWrites + [DriveWrite(pin.portNum, pin.pinNum, OutputLevel(port.ledPins[i].value, port.ledInv[i]))];
        }
      }
    }

    /** The output loop of write_port, over flat indices 1..NUM_SLOTS-1. */
    method WriteOutputs(port: PortData)
      requires Valid() && port.Valid()
      modifies this`dataWrites
      ensures dataWrites == old(dataWrites) + OutputWrites(port.outputPins[..], port.outputInv[..], p8, p9, NUM_SLOTS)
    {
      for i := 1 to NUM_SLOTS
        invariant dataWrites == old(dataWrites) + OutputWrites(port.outputPins[..], port.outputInv[..], p8, p9, i)
      {
        var pin := PinAtIndex(p8, p9, i);
        if port.outputPins[i].Some? && pin.claimed == 'O' {
          dataWrites := dataWrites + [DriveWrite(pin.portNum, pin.pinNum, OutputLevel(port.outputPins[i].value, port.outputInv[i]))];
        }
      }
    }

    /** read_port: for each flat index from 1 on with an exported HAL bit
      whose looked-up entry is claimed 'I', 'U' or 'D', set the bit to the
      pin's DATAIN bit XOR its invert; `datain` holds the DATAIN register
      of each port. */
    method ReadPort(port: PortData, datain: seq<bv32>)
      requires Valid() && port.Valid() && |datain| == NUM_GPIO_PORTS
      modifies port.inputPins
      ensures port.inputPins[0] == old(port.inputPins[0])
      ensures forall i :: 1 <= i < NUM_SLOTS ==>
                var pin := PinAtIndex(p8, p9, i);
                port.inputPins[i] == EntryRead(old(port.inputPins[i]), port.inputInv[i], pin, datain[pin.portNum])
    {
      for i := 1 to NUM_SLOTS
        invariant port.inputPins[0] == old(port.inputPins[0])
        invariant forall k :: 1 <= k < i ==>
                    var pin := PinAtIndex(p8, p9, k);
                    port.inputPins[k] == EntryRead(old(port.inputPins[k]), port.inputInv[k], pin, datain[pin.portNum])
        invariant forall k :: i <= k < NUM_SLOTS ==> port.inputPins[k] == old(port.inputPins[k])
      {
        var pin := PinAtIndex(p8, p9, i);
        if port.inputPins[i].Some? && IsInputMode(pin.claimed) {
          port.inputPins[i] := Some(Bit(datain[pin.portNum], pin.pinNum) != port.inputInv[i]);
        }
      }
    }
  }

  /** A pin requested twice is refused the second time. */
  method DuplicatePinRefused(drv: Driver, port: PortData, pin: int) returns (first: int, second: int)
    requires drv.Valid() && port.Valid()
    modifies drv, port.inputPins, port.outputPins, port.inputInv, port.outputInv
    ensures first == 0 ==> second == -1
  {
    first := drv.ClaimHeaderPin(port.inputPins, port.inputInv, 'U', pin, None);
    second := drv.ClaimHeaderPin(port.outputPins, port.outputInv, 'O', pin, None);
  }

  /** P8.46 claimed as an output on a board with no other output exported:
      its HAL bit is stored at flat index 46, where write_port looks up P9
      entry 0, so write_port drives nothing on the header. */
  method P8Pin46OutputNeverDriven(drv: Driver, port: PortData) returns (r: int)
    requires drv.Valid() && port.Valid()
    requires forall i :: 0 <= i < NUM_SLOTS ==> port.outputPins[i].None?
    requires drv.p8[PINS_PER_HEADER].claimed == NUL && drv.p9[0].claimed != 'O'
    modifies drv, port.inputPins, port.outputPins, port.inputInv, port.outputInv
    ensures drv.Valid() && r == 0
    ensures ClaimedAs(drv.p8, drv.p9, 146, 'O') && port.outputPins[PINS_PER_HEADER] == Some(false)
    ensures drv.dataWrites == old(drv.dataWrites) + LedWrites(port.ledPins[..], port.ledInv[..], drv.leds, NUM_LEDS)
  {
    r := ClaimP8Pin46(drv, port);
    P8Pin46NotDriven(port.outputPins[..], port.outputInv[..], drv.p8, drv.p9);
    drv.WritePort(port);
  }

  /** The claim step of that scenario: P8.46 is claimed 'O', its HAL bit is
      the only output exported, and P9 entry 0 keeps its claim. */
  method ClaimP8Pin46(drv: Driver, port: PortData) returns (r: int)
    requires drv.Valid() && port.Valid()
    requires forall i :: 0 <= i < NUM_SLOTS ==> port.outputPins[i].None?
    requires drv.p8[PINS_PER_HEADER].claimed == NUL && drv.p9[0].claimed != 'O'
    modifies drv, port.inputPins, port.outputPins, port.inputInv, port.outputInv
    ensures drv.Valid() && port.Valid() && r == 0
    ensures drv.dataWrites == old(drv.dataWrites) && drv.leds == old(drv.leds)
    ensures ClaimedAs(drv.p8, drv.p9, 146, 'O') && drv.p8[PINS_PER_HEADER].claimed == 'O'
    ensures drv.p9[0].claimed != 'O'
    ensures port.outputPins[..] == Store(old(port.outputPins[..]), PINS_PER_HEADER, Some(false))
  {
    assert ClaimedAs(drv.p8, drv.p9, 146, NUL);
    r := drv.ClaimHeaderPin(port.outputPins, port.outputInv, 'O', 146, None);
    assert drv.p8[PINS_PER_HEADER].claimed == 'O' && drv.p9[0] == old(drv.p9[0]);
  }

}
