/**
 * Bus-topology discovery in the sensor registry: the BME280 routine (disable
 * every multiplexer, verify each candidate, scan verified ones channel by
 * channel, then add the direct sensors) and the LTR329 routine (probe 0x29
 * directly, then scan every 0x70-0x77 address unverified). Each routine has a
 * specification function that computes both the descriptors and the list of
 * bus transactions from the oracle and the history before the call; the
 * methods issue the transactions on an `I2cBus` and are proved against them.
 */
module Topology {
  import opened Values
  import opened PyText
  import opened Hardware
  import opened I2cDetect

  /** The outcome of `subprocess.run(['i2cdetect', '-y', '1'], ...)`. */
  datatype Detect =
    | Unreachable                              // the call raised (no binary, timeout)
    | Ran(returnCode: int, stdout: string)

  /** What a piece of discovery returns, with the transactions it issued, in order. */
  datatype Run<T> = Run(out: T, ops: seq<Op>)

  /** The PCA9548 address range, `[0x70, ..., 0x77]`. */
  predicate IsMuxAddress(a: int) {
    0x70 <= a <= 0x77
  }

  /** The BME280 addresses, `[0x76, 0x77]`. */
  predicate IsBme280Address(a: int) {
    a == 0x76 || a == 0x77
  }

  const Ltr329Address := 0x29
  const PartIdRegister := 0x86
  const Ltr329PartId := 0xA0

  /** `1 << ch` */
  function Mask(ch: nat): nat {
    if ch == 0 then 1 else 2 * Mask(ch - 1)
  }

  /** The channel-select bytes written from channel `ch` up to channel 7. */
  function Masks(ch: nat): seq<int>
    decreases 8 - ch
  {
    if ch >= 8 then [] else [Mask(ch)] + Masks(ch + 1)
  }

  // ---------------------------------------------------------------------------
  // Descriptors

  function BmeDirectId(addr: nat): string {
    "bme280_" + Hex2(addr)
  }

  function BmeMuxId(mux: nat, ch: nat, addr: nat): string {
    "bme280_" + Hex2(mux) + "_" + Decimal(ch) + "_" + Hex2(addr)
  }

  function LtrDirectId(addr: nat): string {
    "ltr329_" + Hex2(addr)
  }

  function LtrMuxId(mux: nat, ch: nat, addr: nat): string {
    "ltr329_" + Hex2(mux) + "_" + Decimal(ch) + "_" + Hex2(addr)
  }

  /** A BME280 wired straight to the bus. */
  function DirectBme280(addr: nat): Dict {
    map[
      "sensor_id" := Str(BmeDirectId(addr)),
      "name" := Str("BME280 Sensor (0x" + Hex2(addr) + ")"),
      "config" := Mapping(map["i2c_address" := Int(addr), "bus_number" := Int(1)]),
      "location" := Str("I2C Direct"),
      "description" := Str("Temperature, humidity, pressure sensor")
    ]
  }

  /** A BME280 found behind channel `ch` of the multiplexer at `mux`. */
  function MuxBme280(mux: nat, ch: nat, addr: nat): Dict {
    map[
      "sensor_id" := Str(BmeMuxId(mux, ch, addr)),
      "name" := Str("BME280 via MUX 0x" + Hex2(mux) + " Ch" + Decimal(ch)),
      "config" := Mapping(map[
        "i2c_address" := Int(addr), "bus_number" := Int(1),
        "mux_address" := Int(mux), "mux_channel" := Int(ch)]),
      "location" := Str("PCA9548 0x" + Hex2(mux) + " Channel " + Decimal(ch)),
      "description" := Str("Temperature, humidity, pressure sensor")
    ]
  }

  /** The id and config of a multiplexed BME280 descriptor. */
  lemma MuxBme280Fields(mux: nat, ch: nat, addr: nat)
    ensures var d := MuxBme280(mux, ch, addr);
            && "sensor_id" in d && d["sensor_id"] == Str(BmeMuxId(mux, ch, addr))
            && "config" in d && "sensor_type" !in d
            && d["config"] == Mapping(map["i2c_address" := Int(addr), "bus_number" := Int(1),
                                          "mux_address" := Int(mux), "mux_channel" := Int(ch)])
  {
  }

  /** An LTR329 wired straight to the bus: no `config`, no `location`. */
  function DirectLtr329(addr: nat): Dict {
    map[
      "sensor_id" := Str(LtrDirectId(addr)),
      "name" := Str("LTR-329 Light Sensor (0x" + Hex2(addr) + ")"),
      "i2c_address" := Int(addr),
      "bus_number" := Int(1),
      "description" := Str("Ambient light sensor")
    ]
  }

  /** An LTR329 behind a multiplexer channel: the mux fields are top-level keys. */
  function MuxLtr329(mux: nat, ch: nat, addr: nat): Dict {
    map[
      "sensor_id" := Str(LtrMuxId(mux, ch, addr)),
      "name" := Str("LTR-329 Light Sensor (MUX 0x" + Hex2(mux) + " Ch" + Decimal(ch) + ")"),
      "i2c_address" := Int(addr),
      "mux_address" := Int(mux),
      "mux_channel" := Int(ch),
      "bus_number" := Int(1),
      "description" := Str("Ambient light sensor via multiplexer")
    ]
  }

  // ---------------------------------------------------------------------------
  // Specification functions. `A` is the oracle, `open` whether `SMBus(1)`
  // opens, `h` the transactions issued before.

  /** `_disable_all_multiplexers`: `write_byte(addr, 0)` to every detected mux address. */
  function DisableOps(open: bool, addrs: seq<int>): seq<Op> {
    if open then MuxResets(addrs) else []
  }

  function MuxResets(addrs: seq<int>): seq<Op> {
    if addrs == [] then []
    else (if IsMuxAddress(addrs[0]) then [WriteByte(addrs[0], 0)] else []) + MuxResets(addrs[1..])
  }

  /** `_verify_pca9548`: select channel 0, then disable; true iff both writes complete. */
  function VerifyMux(A: Answer, open: bool, h: seq<Op>, a: int): Run<bool> {
    if !open then Run(false, [])
    else
      var w1 := WriteByte(a, 1);
      if A(h, w1).Fail? then Run(false, [w1])
      else
        var w2 := WriteByte(a, 0);
        Run(A(h + [w1], w2).Done?, [w1, w2])
  }

  /** One channel of `_scan_pca9548_channels`: select it, then probe 0x76 and 0x77. */
  function BmeChannel(A: Answer, h: seq<Op>, mux: nat, ch: nat): Run<seq<Dict>> {
    var sel := WriteByte(mux, Mask(ch));
    if A(h, sel).Fail? then Run([], [sel])
    else
      var p6 := ReadByte(0x76);
      var p7 := ReadByte(0x77);
      var h1 := h + [sel];
      var h2 := h1 + [p6];
      Run((if A(h1, p6).Done? then [MuxBme280(mux, ch, 0x76)] else []) +
          (if A(h2, p7).Done? then [MuxBme280(mux, ch, 0x77)] else []),
          [sel, p6, p7])
  }

  /** Channels `ch` to 7 of `_scan_pca9548_channels`. */
  function BmeChannels(A: Answer, h: seq<Op>, mux: nat, ch: nat): Run<seq<Dict>>
    decreases 8 - ch
  {
    if ch >= 8 then Run([], [])
    else
      var s := BmeChannel(A, h, mux, ch);
      var rest := BmeChannels(A, h + s.ops, mux, ch + 1);
      Run(s.out + rest.out, s.ops + rest.ops)
  }

  /** `_scan_pca9548_channels`: all eight channels, then the reset write (whatever it answers). */
  function ScanMux(A: Answer, open: bool, h: seq<Op>, mux: nat): Run<seq<Dict>> {
    if !open then Run([], [])
    else
      var s := BmeChannels(A, h, mux, 0);
      Run(s.out, s.ops + [WriteByte(mux, 0)])
  }

  /** What the multiplexer loop of `_discover_bme280` has found. */
  datatype MuxFound = MuxFound(sensors: seq<Dict>, muxes: seq<int>)

  /** One detected address of the multiplexer loop. */
  function MuxCandidate(A: Answer, open: bool, h: seq<Op>, a: int): Run<MuxFound> {
    if !IsMuxAddress(a) then Run(MuxFound([], []), [])
    else
      var v := VerifyMux(A, open, h, a);
      if !v.out then Run(MuxFound([], []), v.ops)
      else
        var s := ScanMux(A, open, h + v.ops, a as nat);
        Run(MuxFound(s.out, [a]), v.ops + s.ops)
  }

  /** The multiplexer loop of `_discover_bme280`, over the detected addresses in order. */
  function MuxPhase(A: Answer, open: bool, h: seq<Op>, addrs: seq<int>): Run<MuxFound>
    decreases |addrs|
  {
    if addrs == [] then Run(MuxFound([], []), [])
    else
      var c := MuxCandidate(A, open, h, addrs[0]);
      var rest := MuxPhase(A, open, h + c.ops, addrs[1..]);
      Run(MuxFound(c.out.sensors + rest.out.sensors, c.out.muxes + rest.out.muxes), c.ops + rest.ops)
  }

  /** The direct loop of `_discover_bme280`: detected 0x76/0x77 that are not verified muxes. */
  function DirectBmes(addrs: seq<int>, muxes: seq<int>): seq<Dict> {
    if addrs == [] then []
    else
      (if IsBme280Address(addrs[0]) && addrs[0] !in muxes then [DirectBme280(addrs[0] as nat)] else []) +
      DirectBmes(addrs[1..], muxes)
  }

  /** `_discover_bme280` */
  function Bme280Discovery(detect: Detect, A: Answer, open: bool, h: seq<Op>): Run<seq<Dict>> {
    if detect.Unreachable? || detect.returnCode != 0 then Run([], [])
    else
      match BmeAddresses(detect.stdout)
      case Err(_) => Run([], [])
      case Ok(addrs) =>
        var d := DisableOps(open, addrs);
        var m := MuxPhase(A, open, h + d, addrs);
        Run(m.out.sensors + DirectBmes(addrs, m.out.muxes), d + m.ops)
  }

  /** The direct loop of `_discover_ltr329`: read the part ID of every detected 0x29. */
  function LtrDirect(A: Answer, open: bool, h: seq<Op>, addrs: seq<int>): Run<seq<Dict>>
    decreases |addrs|
  {
    if addrs == [] then Run([], [])
    else if addrs[0] == Ltr329Address && open then
      var op := ReadByteData(Ltr329Address, PartIdRegister);
      var rest := LtrDirect(A, open, h + [op], addrs[1..]);
      Run((if A(h, op) == Done(Ltr329PartId) then [DirectLtr329(Ltr329Address)] else []) + rest.out,
          [op] + rest.ops)
    else LtrDirect(A, open, h, addrs[1..])
  }

  /** One channel of the LTR329 multiplexer scan. */
  function LtrChannel(A: Answer, h: seq<Op>, mux: nat, ch: nat): Run<seq<Dict>> {
    var sel := WriteByte(mux, Mask(ch));
    if A(h, sel).Fail? then Run([], [sel])
    else
      var probe := ReadByteData(Ltr329Address, PartIdRegister);
      Run(if A(h + [sel], probe) == Done(Ltr329PartId) then [MuxLtr329(mux, ch, Ltr329Address)] else [],
          [sel, probe])
  }

  function LtrChannels(A: Answer, h: seq<Op>, mux: nat, ch: nat): Run<seq<Dict>>
    decreases 8 - ch
  {
    if ch >= 8 then Run([], [])
    else
      var s := LtrChannel(A, h, mux, ch);
      var rest := LtrChannels(A, h + s.ops, mux, ch + 1);
      Run(s.out + rest.out, s.ops + rest.ops)
  }

  /** One detected address of the LTR329 multiplexer loop: channels 0-7, then the reset write. */
  function LtrCandidate(A: Answer, open: bool, h: seq<Op>, a: int): Run<seq<Dict>> {
    if IsMuxAddress(a) && open then
      var s := LtrChannels(A, h, a as nat, 0);
      Run(s.out, s.ops + [WriteByte(a, 0)])
    else Run([], [])
  }

  /** The multiplexer loop of `_discover_ltr329`: every detected 0x70-0x77 address, unverified. */
  function LtrMuxes(A: Answer, open: bool, h: seq<Op>, addrs: seq<int>): Run<seq<Dict>>
    decreases |addrs|
  {
    if addrs == [] then Run([], [])
    else
      var c := LtrCandidate(A, open, h, addrs[0]);
      var rest := LtrMuxes(A, open, h + c.ops, addrs[1..]);
      Run(c.out + rest.out, c.ops + rest.ops)
  }

  /** The multiplexer loop of `_discover_ltr329` from position `i`: the candidate there, then the rest. */
  lemma LtrMuxesStep(A: Answer, open: bool, h: seq<Op>, addrs: seq<int>, i: nat)
    requires i < |addrs|
    ensures var c := LtrCandidate(A, open, h, addrs[i]);
            var rest := LtrMuxes(A, open, h + c.ops, addrs[i + 1..]);
            LtrMuxes(A, open, h, addrs[i..]) == Run(c.out + rest.out, c.ops + rest.ops)
  {
    assert addrs[i..][1..] == addrs[i + 1..];
  }

  /** `_discover_ltr329`; `smbus2` is imported before anything else happens. */
  function Ltr329Discovery(smbus2: bool, detect: Detect, A: Answer, open: bool, h: seq<Op>): Run<seq<Dict>> {
    if !smbus2 || detect.Unreachable? || detect.returnCode != 0 then Run([], [])
    else
      var addrs := LtrAddresses(detect.stdout);
      var d := LtrDirect(A, open, h, addrs);
      var m := LtrMuxes(A, open, h + d.ops, addrs);
      Run(d.out + m.out, d.ops + m.ops)
  }

  // ---------------------------------------------------------------------------
  // The routines, issuing transactions on the bus

  method DisableAllMultiplexers(bus: I2cBus, addrs: seq<int>)
    modifies bus
    ensures bus.trace == old(bus.trace) + DisableOps(bus.CanOpen(Int(1)), addrs)
  {
    if !bus.CanOpen(Int(1)) {
      return;
    }
    ghost var h0 := bus.trace;
    var i := 0;
    assert addrs[0..] == addrs;
    while i < |addrs|
      invariant 0 <= i <= |addrs|
      invariant h0 + MuxResets(addrs) == bus.trace + MuxResets(addrs[i..])
    {
      assert addrs[i..][1..] == addrs[i + 1..];
      if IsMuxAddress(addrs[i]) {
        var _ := bus.Transact(WriteByte(addrs[i], 0));
        Assoc(old(bus.trace), [WriteByte(addrs[i], 0)], MuxResets(addrs[i + 1..]));
      }
      i := i + 1;
    }
    assert bus.trace + [] == bus.trace;
  }

  method VerifyPca9548(bus: I2cBus, a: int) returns (ok: bool)
    modifies bus
    ensures var v := VerifyMux(bus.answer, bus.CanOpen(Int(1)), old(bus.trace), a);
            ok == v.out && bus.trace == old(bus.trace) + v.ops
  {
    if !bus.CanOpen(Int(1)) {
      return false;
    }
    var r1 := bus.Transact(WriteByte(a, 1));
    if r1.Fail? {
      return false;
    }
    var r2 := bus.Transact(WriteByte(a, 0));
    ok := r2.Done?;
  }

  method ScanBmeChannel(bus: I2cBus, mux: nat, ch: nat) returns (found: seq<Dict>)
    modifies bus
    ensures var s := BmeChannel(bus.answer, old(bus.trace), mux, ch);
            found == s.out && bus.trace == old(bus.trace) + s.ops
  {
    var sel := bus.Transact(WriteByte(mux, Mask(ch)));
    if sel.Fail? {
      return [];
    }
    found := [];
    var r6 := bus.Transact(ReadByte(0x76));
    if r6.Done? {
      found := found + [MuxBme280(mux, ch, 0x76)];
    }
    var r7 := bus.Transact(ReadByte(0x77));
    if r7.Done? {
      found := found + [MuxBme280(mux, ch, 0x77)];
    }
  }

  /** `_scan_pca9548_channels` */
  method ScanPca9548Channels(bus: I2cBus, mux: nat) returns (sensors: seq<Dict>)
    modifies bus
    ensures var s := ScanMux(bus.answer, bus.CanOpen(Int(1)), old(bus.trace), mux);
            sensors == s.out && bus.trace == old(bus.trace) + s.ops
  {
    if !bus.CanOpen(Int(1)) {
      return [];
    }
    ghost var h0 := bus.trace;
    ghost var A := bus.answer;
    sensors := [];
    ghost var issued: seq<Op> := [];
    var ch := 0;
    while ch < 8
      invariant 0 <= ch <= 8
      invariant bus.trace == h0 + issued && bus.answer == A
      invariant BmeChannels(A, h0, mux, 0).out == sensors + BmeChannels(A, bus.trace, mux, ch).out
      invariant BmeChannels(A, h0, mux, 0).ops == issued + BmeChannels(A, bus.trace, mux, ch).ops
    {
      ghost var before := bus.trace;
      var found := ScanBmeChannel(bus, mux, ch);
      ghost var rest := BmeChannels(A, bus.trace, mux, ch + 1);
      Assoc(sensors, found, rest.out);
      Assoc(issued, bus.trace[|before|..], rest.ops);
      Assoc(h0, issued, bus.trace[|before|..]);
      sensors := sensors + found;
      issued := issued + bus.trace[|before|..];
      ch := ch + 1;
    }
    assert sensors + [] == sensors;
    assert issued + [] == issued;
    var _ := bus.Transact(WriteByte(mux, 0));
  }

  /** The multiplexer loop of `_discover_bme280`. */
  method ScanVerifiedMuxes(bus: I2cBus, addrs: seq<int>) returns (found: MuxFound)
    modifies bus
    ensures var m := MuxPhase(bus.answer, bus.CanOpen(Int(1)), old(bus.trace), addrs);
            found == m.out && bus.trace == old(bus.trace) + m.ops
  {
    ghost var h0 := bus.trace;
    ghost var A := bus.answer;
    ghost var open := bus.CanOpen(Int(1));
    var sensors: seq<Dict> := [];
    var muxes: seq<int> := [];
    ghost var issued: seq<Op> := [];
    var i := 0;
    assert addrs[0..] == addrs;
    while i < |addrs|
      invariant 0 <= i <= |addrs|
      invariant bus.trace == h0 + issued && bus.answer == A && bus.CanOpen(Int(1)) == open
      invariant MuxPhase(A, open, h0, addrs).out.sensors == sensors + MuxPhase(A, open, bus.trace, addrs[i..]).out.sensors
      invariant MuxPhase(A, open, h0, addrs).out.muxes == muxes + MuxPhase(A, open, bus.trace, addrs[i..]).out.muxes
      invariant MuxPhase(A, open, h0, addrs).ops == issued + MuxPhase(A, open, bus.trace, addrs[i..]).ops
    {
      assert addrs[i..][1..] == addrs[i + 1..];
      ghost var before := bus.trace;
      var a := addrs[i];
      var gotSensors: seq<Dict> := [];
      var gotMuxes: seq<int> := [];
      if IsMuxAddress(a) {
        var ok := VerifyPca9548(bus, a);
        if ok {
          gotMuxes := [a];
          gotSensors := ScanPca9548Channels(bus, a as nat);
          Assoc(before, VerifyMux(A, open, before, a).ops, ScanMux(A, open, before + VerifyMux(A, open, before, a).ops, a as nat).ops);
        }
      }
      assert bus.trace == before + MuxCandidate(A, open, before, a).ops;
      ghost var rest := MuxPhase(A, open, bus.trace, addrs[i + 1..]);
      Assoc(sensors, gotSensors, rest.out.sensors);
      Assoc(muxes, gotMuxes, rest.out.muxes);
      Assoc(issued, bus.trace[|before|..], rest.ops);
      Assoc(h0, issued, bus.trace[|before|..]);
      sensors := sensors + gotSensors;
      muxes := muxes + gotMuxes;
      issued := issued + bus.trace[|before|..];
      i := i + 1;
    }
    assert sensors + [] == sensors && muxes + [] == muxes && issued + [] == issued;
    found := MuxFound(sensors, muxes);
  }

  /** The direct loop of `_discover_bme280` (no bus traffic). */
  method CollectDirectBmes(addrs: seq<int>, muxes: seq<int>) returns (sensors: seq<Dict>)
    ensures sensors == DirectBmes(addrs, muxes)
  {
    sensors := [];
    var i := 0;
    assert addrs[0..] == addrs;
    while i < |addrs|
      invariant 0 <= i <= |addrs|
      invariant DirectBmes(addrs, muxes) == sensors + DirectBmes(addrs[i..], muxes)
    {
      assert addrs[i..][1..] == addrs[i + 1..];
      var here: seq<Dict> := [];
      if IsBme280Address(addrs[i]) && addrs[i] !in muxes {
        here := [DirectBme280(addrs[i] as nat)];
      }
      Assoc(sensors, here, DirectBmes(addrs[i + 1..], muxes));
      sensors := sensors + here;
      i := i + 1;
    }
    assert sensors + [] == sensors;
  }

  /** `_discover_bme280`: the i2cdetect outcome is an input. */
  method DiscoverBme280(bus: I2cBus, detect: Detect) returns (sensors: seq<Dict>)
    modifies bus
    ensures var r := Bme280Discovery(detect, bus.answer, bus.CanOpen(Int(1)), old(bus.trace));
            sensors == r.out && bus.trace == old(bus.trace) + r.ops
  {
    if detect.Unreachable? || detect.returnCode != 0 {
      return [];
    }
    var parsed := ParseBmeGrid(detect.stdout);
    if parsed.Err? {
      return [];
    }
    var addrs := parsed.value;
    DisableAllMultiplexers(bus, addrs);
    ghost var afterDisable := bus.trace;
    var found := ScanVerifiedMuxes(bus, addrs);
    var direct := CollectDirectBmes(addrs, found.muxes);
    sensors := found.sensors + direct;
    Assoc(old(bus.trace), DisableOps(bus.CanOpen(Int(1)), addrs), bus.trace[|afterDisable|..]);
  }

  method ProbeLtrDirect(bus: I2cBus, addrs: seq<int>) returns (sensors: seq<Dict>)
    modifies bus
    ensures var r := LtrDirect(bus.answer, bus.CanOpen(Int(1)), old(bus.trace), addrs);
            sensors == r.out && bus.trace == old(bus.trace) + r.ops
  {
    ghost var h0 := bus.trace;
    ghost var A := bus.answer;
    ghost var open := bus.CanOpen(Int(1));
    sensors := [];
    ghost var issued: seq<Op> := [];
    var i := 0;
    assert addrs[0..] == addrs;
    while i < |addrs|
      invariant 0 <= i <= |addrs|
      invariant bus.trace == h0 + issued && bus.answer == A && bus.CanOpen(Int(1)) == open
      invariant LtrDirect(A, open, h0, addrs).out == sensors + LtrDirect(A, open, bus.trace, addrs[i..]).out
      invariant LtrDirect(A, open, h0, addrs).ops == issued + LtrDirect(A, open, bus.trace, addrs[i..]).ops
    {
      assert addrs[i..][1..] == addrs[i + 1..];
      if addrs[i] == Ltr329Address && bus.CanOpen(Int(1)) {
        ghost var before := bus.trace;
        var partId := bus.Transact(ReadByteData(Ltr329Address, PartIdRegister));
        var here: seq<Dict> := [];
        if partId == Done(Ltr329PartId) {
          here := [DirectLtr329(Ltr329Address)];
        }
        ghost var rest := LtrDirect(A, open, bus.trace, addrs[i + 1..]);
        Assoc(sensors, here, rest.out);
        Assoc(issued, [ReadByteData(Ltr329Address, PartIdRegister)], rest.ops);
        Assoc(h0, issued, [ReadByteData(Ltr329Address, PartIdRegister)]);
        sensors := sensors + here;
        issued := issued + [ReadByteData(Ltr329Address, PartIdRegister)];
      }
      i := i + 1;
    }
    assert sensors + [] == sensors && issued + [] == issued;
  }

  method ScanLtrChannel(bus: I2cBus, mux: nat, ch: nat) returns (found: seq<Dict>)
    modifies bus
    ensures var s := LtrChannel(bus.answer, old(bus.trace), mux, ch);
            found == s.out && bus.trace == old(bus.trace) + s.ops
  {
    var sel := bus.Transact(WriteByte(mux, Mask(ch)));
    if sel.Fail? {
      return [];
    }
    var partId := bus.Transact(ReadByteData(Ltr329Address, PartIdRegister));
    found := if partId == Done(Ltr329PartId) then [MuxLtr329(mux, ch, Ltr329Address)] else [];
  }

  /** The channel loop and reset write for one multiplexer in `_discover_ltr329`. */
  method ScanLtrMux(bus: I2cBus, mux: nat) returns (sensors: seq<Dict>)
    modifies bus
    ensures var s := LtrChannels(bus.answer, old(bus.trace), mux, 0);
            sensors == s.out && bus.trace == old(bus.trace) + s.ops + [WriteByte(mux, 0)]
  {
    ghost var h0 := bus.trace;
    ghost var A := bus.answer;
    sensors := [];
    ghost var issued: seq<Op> := [];
    var ch := 0;
    while ch < 8
      invariant 0 <= ch <= 8
      invariant bus.trace == h0 + issued && bus.answer == A
      invariant LtrChannels(A, h0, mux, 0).out == sensors + LtrChannels(A, bus.trace, mux, ch).out
      invariant LtrChannels(A, h0, mux, 0).ops == issued + LtrChannels(A, bus.trace, mux, ch).ops
    {
      ghost var before := bus.trace;
      var found := ScanLtrChannel(bus, mux, ch);
      ghost var rest := LtrChannels(A, bus.trace, mux, ch + 1);
      Assoc(sensors, found, rest.out);
      Assoc(issued, bus.trace[|before|..], rest.ops);
      Assoc(h0, issued, bus.trace[|before|..]);
      sensors := sensors + found;
      issued := issued + bus.trace[|before|..];
      ch := ch + 1;
    }
    assert sensors + [] == sensors;
    assert issued + [] == issued;
    var _ := bus.Transact(WriteByte(mux, 0));
  }

  method ScanLtrCandidate(bus: I2cBus, a: int) returns (sensors: seq<Dict>)
    modifies bus
    ensures var c := LtrCandidate(bus.answer, bus.CanOpen(Int(1)), old(bus.trace), a);
            sensors == c.out && bus.trace == old(bus.trace) + c.ops
  {
    if IsMuxAddress(a) && bus.CanOpen(Int(1)) {
      sensors := ScanLtrMux(bus, a as nat);
    } else {
      sensors := [];
    }
  }

  method ScanAllMuxesForLtr(bus: I2cBus, addrs: seq<int>) returns (sensors: seq<Dict>)
    modifies bus
    ensures var r := LtrMuxes(bus.answer, bus.CanOpen(Int(1)), old(bus.trace), addrs);
            sensors == r.out && bus.trace == old(bus.trace) + r.ops
  {
    ghost var h0 := bus.trace;
    ghost var A := bus.answer;
    ghost var open := bus.CanOpen(Int(1));
    ghost var all := LtrMuxes(A, open, h0, addrs);
    sensors := [];
    var i := 0;
    assert addrs[0..] == addrs;
    while i < |addrs|
      invariant 0 <= i <= |addrs|
      invariant bus.answer == A && bus.CanOpen(Int(1)) == open
      invariant all.out == sensors + LtrMuxes(A, open, bus.trace, addrs[i..]).out
      invariant h0 + all.ops == bus.trace + LtrMuxes(A, open, bus.trace, addrs[i..]).ops
    {
      sensors := ScanNextLtrMux(bus, addrs, i, sensors);
      i := i + 1;
    }
    assert addrs[i..] == [];
    assert sensors + [] == sensors && bus.trace + [] == bus.trace;
  }

  /**
   * One turn of the multiplexer loop: the address at position `i` scanned if
   * it is a candidate. What is found joins `sensors`, and what is issued
   * moves from the loop's remaining traffic to the bus history.
   */
  method ScanNextLtrMux(bus: I2cBus, addrs: seq<int>, i: nat, sensors: seq<Dict>) returns (sensors': seq<Dict>)
    requires i < |addrs|
    modifies bus
    ensures var here := LtrMuxes(bus.answer, bus.CanOpen(Int(1)), old(bus.trace), addrs[i..]);
            var rest := LtrMuxes(bus.answer, bus.CanOpen(Int(1)), bus.trace, addrs[i + 1..]);
            sensors + here.out == sensors' + rest.out && old(bus.trace) + here.ops == bus.trace + rest.ops
  {
    ghost var before := bus.trace;
    var found := ScanLtrCandidate(bus, addrs[i]);
    LtrMuxesStep(bus.answer, bus.CanOpen(Int(1)), before, addrs, i);
    ghost var step := LtrCandidate(bus.answer, bus.CanOpen(Int(1)), before, addrs[i]).ops;
    ghost var rest := LtrMuxes(bus.answer, bus.CanOpen(Int(1)), bus.trace, addrs[i + 1..]);
    Assoc(sensors, found, rest.out);
    Assoc(before, step, rest.ops);
    sensors' := sensors + found;
  }

  /** `_discover_ltr329`: the i2cdetect outcome is an input. */
  method DiscoverLtr329(bus: I2cBus, detect: Detect) returns (sensors: seq<Dict>)
    modifies bus
    ensures var r := Ltr329Discovery(bus.libs.smbus2, detect, bus.answer, bus.CanOpen(Int(1)), old(bus.trace));
            sensors == r.out && bus.trace == old(bus.trace) + r.ops
  {
    if !bus.libs.smbus2 || detect.Unreachable? || detect.returnCode != 0 {
      return [];
    }
    var addrs := ParseLtrGrid(detect.stdout);
    var direct := ProbeLtrDirect(bus, addrs);
    ghost var afterDirect := bus.trace;
    var viaMux := ScanAllMuxesForLtr(bus, addrs);
    sensors := direct + viaMux;
    Assoc(old(bus.trace), afterDirect[|old(bus.trace)|..], bus.trace[|afterDirect|..]);
  }

  // ---------------------------------------------------------------------------
  // Properties of the bus traffic

  /** The values of the `write_byte` transactions addressed to `a`, in order. */
  function WritesTo(ops: seq<Op>, a: int): seq<int> {
    if ops == [] then []
    else (if ops[0].WriteByte? && ops[0].addr == a then [ops[0].value] else []) + WritesTo(ops[1..], a)
  }

  lemma {:induction false} WritesToAppend(x: seq<Op>, y: seq<Op>, a: int)
    ensures WritesTo(x + y, a) == WritesTo(x, a) + WritesTo(y, a)
  {
    if x != [] {
      assert (x + y)[1..] == x[1..] + y;
      WritesToAppend(x[1..], y, a);
      Assoc(if x[0].WriteByte? && x[0].addr == a then [x[0].value] else [], WritesTo(x[1..], a), WritesTo(y, a));
    } else {
      assert x + y == y;
    }
  }

  lemma ChannelMasks()
    ensures Masks(0) == [1, 2, 4, 8, 16, 32, 64, 128]
  {
    assert Mask(7) == 128;
  }

  lemma {:induction false} BmeChannelsWrites(A: Answer, h: seq<Op>, mux: nat, ch: nat)
    ensures WritesTo(BmeChannels(A, h, mux, ch).ops, mux) == Masks(ch)
    decreases 8 - ch
  {
    if ch < 8 {
      var s := BmeChannel(A, h, mux, ch);
      var rest := BmeChannels(A, h + s.ops, mux, ch + 1);
      WritesToAppend(s.ops, rest.ops, mux);
      BmeChannelsWrites(A, h + s.ops, mux, ch + 1);
      var sel := WriteByte(mux, Mask(ch));
      var probes := [ReadByte(0x76), ReadByte(0x77)];
      assert probes[1..] == [ReadByte(0x77)] && [ReadByte(0x77)][1..] == [];
      assert WritesTo([ReadByte(0x77)], mux) == [];
      assert WritesTo(probes, mux) == [];
      assert ([sel] + probes)[1..] == probes;
      assert [sel, ReadByte(0x76), ReadByte(0x77)] == [sel] + probes;
      assert WritesTo(s.ops, mux) == [Mask(ch)];
    }
  }

  /**
   * Whatever the devices answer, the BME280 channel scan writes the select
   * bytes `1 << 0` ... `1 << 7` to the multiplexer in order and finishes with
   * the reset byte 0, which is its last transaction.
   */
  lemma ScanMuxWrites(A: Answer, h: seq<Op>, mux: nat)
    ensures WritesTo(ScanMux(A, true, h, mux).ops, mux) == [1, 2, 4, 8, 16, 32, 64, 128, 0]
    ensures var ops := ScanMux(A, true, h, mux).ops; |ops| > 0 && ops[|ops| - 1] == WriteByte(mux, 0)
  {
    var s := BmeChannels(A, h, mux, 0);
    BmeChannelsWrites(A, h, mux, 0);
    WritesToAppend(s.ops, [WriteByte(mux, 0)], mux);
    ChannelMasks();
  }

  lemma {:induction false} LtrChannelsWrites(A: Answer, h: seq<Op>, mux: nat, ch: nat)
    ensures WritesTo(LtrChannels(A, h, mux, ch).ops, mux) == Masks(ch)
    decreases 8 - ch
  {
    if ch < 8 {
      var s := LtrChannel(A, h, mux, ch);
      var rest := LtrChannels(A, h + s.ops, mux, ch + 1);
      WritesToAppend(s.ops, rest.ops, mux);
      LtrChannelsWrites(A, h + s.ops, mux, ch + 1);
      assert WritesTo(s.ops, mux) == [Mask(ch)];
    }
  }

  /**
   * The LTR329 routine scans a detected 0x70-0x77 address without verifying
   * it: all eight select bytes and the reset byte are written even when every
   * write fails.
   */
  lemma LtrScansUnverified(A: Answer, h: seq<Op>, a: int)
    requires IsMuxAddress(a)
    ensures WritesTo(LtrCandidate(A, true, h, a).ops, a) == [1, 2, 4, 8, 16, 32, 64, 128, 0]
  {
    var s := LtrChannels(A, h, a as nat, 0);
    LtrChannelsWrites(A, h, a as nat, 0);
    WritesToAppend(s.ops, [WriteByte(a, 0)], a);
    ChannelMasks();
  }

  /**
   * The BME280 routine, in contrast, stops at the first verification write:
   * when selecting channel 0 fails, the address is neither a multiplexer nor scanned.
   */
  lemma BmeSkipsUnverified(A: Answer, h: seq<Op>, a: int)
    requires IsMuxAddress(a) && A(h, WriteByte(a, 1)).Fail?
    ensures MuxCandidate(A, true, h, a) == Run(MuxFound([], []), [WriteByte(a, 1)])
    ensures WritesTo(MuxCandidate(A, true, h, a).ops, a) == [1]
  {
  }

  lemma {:induction false} MuxResetsMembers(addrs: seq<int>, op: Op)
    ensures op in MuxResets(addrs) <==> exists k :: 0 <= k < |addrs| && IsMuxAddress(addrs[k]) && op == WriteByte(addrs[k], 0)
  {
    if addrs != [] {
      var rest := addrs[1..];
      MuxResetsMembers(rest, op);
      if exists k :: 0 <= k < |addrs| && IsMuxAddress(addrs[k]) && op == WriteByte(addrs[k], 0) {
        var k :| 0 <= k < |addrs| && IsMuxAddress(addrs[k]) && op == WriteByte(addrs[k], 0);
        if k > 0 {
          assert rest[k - 1] == addrs[k];
        }
      }
      if exists k :: 0 <= k < |rest| && IsMuxAddress(rest[k]) && op == WriteByte(rest[k], 0) {
        var k :| 0 <= k < |rest| && IsMuxAddress(rest[k]) && op == WriteByte(rest[k], 0);
        assert addrs[k + 1] == rest[k];
      }
    }
  }

  /**
   * Before any verification, the BME280 routine writes 0x00 to exactly the
   * detected addresses in 0x70-0x77 (when the bus opens); these writes come
   * first in its trace and their answers are ignored.
   */
  lemma DisableComesFirst(stdout: string, A: Answer, h: seq<Op>, addrs: seq<int>, op: Op)
    requires BmeAddresses(stdout) == Ok(addrs)
    ensures var d := DisableOps(true, addrs);
            var r := Bme280Discovery(Ran(0, stdout), A, true, h);
            |d| <= |r.ops| && r.ops[..|d|] == d
    ensures op in DisableOps(true, addrs) <==>
            exists k :: 0 <= k < |addrs| && IsMuxAddress(addrs[k]) && op == WriteByte(addrs[k], 0)
  {
    MuxResetsMembers(addrs, op);
    var d := DisableOps(true, addrs);
    var m := MuxPhase(A, true, h + d, addrs);
    assert (d + m.ops)[..|d|] == d;
  }

  // ---------------------------------------------------------------------------
  // Properties of what is found

  /** An oracle whose writes to any address succeed or fail by address and value alone. */
  ghost predicate StableWrites(A: Answer, ok: (int, int) -> bool) {
    forall h, a, v :: A(h, WriteByte(a, v)).Done? == ok(a, v)
  }

  /**
   * With such an oracle, an address is a verified multiplexer iff it is
   * detected, lies in 0x70-0x77, the bus opens, and both the 0x01 and the 0x00
   * write succeed.
   */
  lemma {:induction false} VerifiedMuxIff(A: Answer, ok: (int, int) -> bool, open: bool, h: seq<Op>, addrs: seq<int>, a: int)
    requires StableWrites(A, ok)
    ensures a in MuxPhase(A, open, h, addrs).out.muxes <==>
            a in addrs && IsMuxAddress(a) && open && ok(a, 1) && ok(a, 0)
    decreases |addrs|
  {
    if addrs != [] {
      var c := MuxCandidate(A, open, h, addrs[0]);
      VerifiedMuxIff(A, ok, open, h + c.ops, addrs[1..], a);
      assert addrs == [addrs[0]] + addrs[1..];
      if IsMuxAddress(addrs[0]) && open {
        assert A(h, WriteByte(addrs[0], 1)).Done? == ok(addrs[0], 1);
        assert A(h + [WriteByte(addrs[0], 1)], WriteByte(addrs[0], 0)).Done? == ok(addrs[0], 0);
      }
    }
  }

  /** Every verified multiplexer is a detected address in 0x70-0x77, whatever the oracle. */
  lemma {:induction false} VerifiedMuxesDetected(A: Answer, open: bool, h: seq<Op>, addrs: seq<int>, a: int)
    requires a in MuxPhase(A, open, h, addrs).out.muxes
    ensures a in addrs && IsMuxAddress(a) && open
    decreases |addrs|
  {
    var c := MuxCandidate(A, open, h, addrs[0]);
    if a !in c.out.muxes {
      VerifiedMuxesDetected(A, open, h + c.ops, addrs[1..], a);
    }
  }

  /** Distinct addresses get distinct direct BME280 descriptors. */
  lemma DirectBme280Injective(x: nat, y: nat)
    requires DirectBme280(x) == DirectBme280(y)
    ensures x == y
  {
    assert DirectBme280(x)["sensor_id"] == DirectBme280(y)["sensor_id"];
    assert ("bme280_" + Hex2(x))[7..] == Hex2(x);
    assert ("bme280_" + Hex2(y))[7..] == Hex2(y);
    Hex2Injective(x, y);
  }

  /** The direct BME280 candidates are exactly the detected 0x76/0x77 addresses that are not verified muxes. */
  lemma {:induction false} DirectBmesMembers(addrs: seq<int>, muxes: seq<int>, x: nat)
    ensures DirectBme280(x) in DirectBmes(addrs, muxes) <==>
            x in addrs && IsBme280Address(x) && x !in muxes
  {
    if addrs != [] {
      var rest := addrs[1..];
      DirectBmesMembers(rest, muxes, x);
      assert addrs == [addrs[0]] + rest;
      if IsBme280Address(addrs[0]) && addrs[0] !in muxes && DirectBme280(x) == DirectBme280(addrs[0] as nat) {
        DirectBme280Injective(x, addrs[0] as nat);
      }
    }
  }

  /** The value of the last `write_byte` to `mux` in `h`: the channel mask it has selected (0 initially). */
  function Selected(h: seq<Op>, mux: int): int {
    if h == [] then 0
    else if h[|h| - 1].WriteByte? && h[|h| - 1].addr == mux then h[|h| - 1].value
    else Selected(h[..|h| - 1], mux)
  }

  /**
   * An oracle for one multiplexer at `mux`: a select write succeeds by its
   * byte alone, and whether a device answers `read_byte` depends only on the
   * mask currently selected.
   */
  ghost predicate MuxAware(A: Answer, mux: int, writeOk: int -> bool, present: (int, int) -> bool) {
    && (forall h, v :: A(h, WriteByte(mux, v)).Done? == writeOk(v))
    && (forall h, a :: A(h, ReadByte(a)).Done? == present(Selected(h, mux), a))
  }

  /** What a scan of channels `ch`..7 finds behind such a multiplexer, independent of history. */
  ghost function Expected(mux: nat, ch: nat, writeOk: int -> bool, present: (int, int) -> bool): seq<Dict>
    decreases 8 - ch
  {
    if ch >= 8 then []
    else
      (if writeOk(Mask(ch)) then
         (if present(Mask(ch), 0x76) then [MuxBme280(mux, ch, 0x76)] else []) +
         (if present(Mask(ch), 0x77) then [MuxBme280(mux, ch, 0x77)] else [])
       else []) +
      Expected(mux, ch + 1, writeOk, present)
  }

  lemma {:induction false} BmeChannelsFind(A: Answer, h: seq<Op>, mux: nat, ch: nat,
                                           writeOk: int -> bool, present: (int, int) -> bool)
    requires MuxAware(A, mux, writeOk, present)
    ensures BmeChannels(A, h, mux, ch).out == Expected(mux, ch, writeOk, present)
    decreases 8 - ch
  {
    if ch < 8 {
      BmeChannelFinds(A, h, mux, ch, writeOk, present);
      var s := BmeChannel(A, h, mux, ch);
      BmeChannelsFind(A, h + s.ops, mux, ch + 1, writeOk, present);
    }
  }

  /** One channel of such a scan: its descriptors, whatever came before. */
  lemma BmeChannelFinds(A: Answer, h: seq<Op>, mux: nat, ch: nat, writeOk: int -> bool, present: (int, int) -> bool)
    requires MuxAware(A, mux, writeOk, present)
    ensures BmeChannel(A, h, mux, ch).out ==
            (if writeOk(Mask(ch)) then
               (if present(Mask(ch), 0x76) then [MuxBme280(mux, ch, 0x76)] else []) +
               (if present(Mask(ch), 0x77) then [MuxBme280(mux, ch, 0x77)] else [])
             else [])
  {
    var sel := WriteByte(mux, Mask(ch));
    var h1 := h + [sel];
    var h2 := h1 + [ReadByte(0x76)];
    SelectedAfter(h, sel, mux);
    SelectedAfter(h1, ReadByte(0x76), mux);
    assert A(h, sel).Done? == writeOk(Mask(ch));
    assert A(h1, ReadByte(0x76)).Done? == present(Mask(ch), 0x76);
    assert A(h2, ReadByte(0x77)).Done? == present(Mask(ch), 0x77);
  }

  /** A write to the multiplexer selects its byte; any other operation leaves the selection alone. */
  lemma SelectedAfter(h: seq<Op>, op: Op, mux: int)
    ensures Selected(h + [op], mux) == if op.WriteByte? && op.addr == mux then op.value else Selected(h, mux)
  {
    assert (h + [op])[..|h|] == h;
  }

  /**
   * Behind a multiplexer whose selected channel decides which devices answer,
   * the scan reports, in channel order, one descriptor per BME280 address
   * present on each channel whose select write succeeded; a failing channel
   * does not stop the later ones.
   */
  lemma ScanMuxFinds(A: Answer, h: seq<Op>, mux: nat, writeOk: int -> bool, present: (int, int) -> bool)
    requires MuxAware(A, mux, writeOk, present)
    ensures ScanMux(A, true, h, mux).out == Expected(mux, 0, writeOk, present)
  {
    BmeChannelsFind(A, h, mux, 0, writeOk, present);
  }

  /** A multiplexer at 0x70 with a BME280 at 0x76 behind channel 3 yields exactly that one descriptor. */
  lemma ChannelThreeScenario(A: Answer, h: seq<Op>)
    requires MuxAware(A, 0x70, v => true, (v, a) => v == 8 && a == 0x76)
    ensures ScanMux(A, true, h, 0x70).out == [MuxBme280(0x70, 3, 0x76)]
  {
    var w: int -> bool := v => true;
    var p: (int, int) -> bool := (v, a) => v == 8 && a == 0x76;
    ScanMuxFinds(A, h, 0x70, w, p);
    assert Expected(0x70, 8, w, p) == [];
    assert Mask(7) == 128;
    assert Expected(0x70, 7, w, p) == [];
    assert Mask(6) == 64;
    assert Expected(0x70, 6, w, p) == [];
    assert Mask(5) == 32;
    assert Expected(0x70, 5, w, p) == [];
    assert Mask(4) == 16;
    assert Expected(0x70, 4, w, p) == [];
    assert Mask(3) == 8;
    assert Expected(0x70, 3, w, p) == [MuxBme280(0x70, 3, 0x76)];
    assert Mask(2) == 4;
    assert Expected(0x70, 2, w, p) == Expected(0x70, 3, w, p);
    assert Mask(1) == 2;
    assert Expected(0x70, 1, w, p) == Expected(0x70, 3, w, p);
    assert Mask(0) == 1;
  }

  // ---------------------------------------------------------------------------
  // Identifiers and descriptor shapes

  lemma DecimalDigitInjective(c1: nat, c2: nat)
    requires c1 < 10 && c2 < 10 && DecimalDigit(c1) == DecimalDigit(c2)
    ensures c1 == c2
  {
    assert DecimalDigit(c1) as int == '0' as int + c1;
    assert DecimalDigit(c2) as int == '0' as int + c2;
  }

  /** Where the three fields sit in a multiplexed id `<type>_<mux>_<channel>_<addr>`. */
  lemma MuxIdFields(prefix: string, m: nat, c: nat, a: nat)
    requires |prefix| == 7 && m < 256 && c < 10 && a < 256
    ensures var s := prefix + Hex2(m) + "_" + Decimal(c) + "_" + Hex2(a);
            |s| == 14 && s[7..9] == Hex2(m) && s[10] == DecimalDigit(c) && s[12..] == Hex2(a)
  {
    var hm, dc, ha := Hex2(m), Decimal(c), Hex2(a);
    assert dc == [DecimalDigit(c)];
    var s := prefix + hm + "_" + dc + "_" + ha;
    assert s == prefix + (hm + ("_" + (dc + ("_" + ha))));
  }

  /** The multiplexed BME280 id determines multiplexer, channel and address. */
  lemma BmeMuxIdInjective(m1: nat, c1: nat, a1: nat, m2: nat, c2: nat, a2: nat)
    requires m1 < 256 && a1 < 256 && c1 < 10 && m2 < 256 && a2 < 256 && c2 < 10
    requires BmeMuxId(m1, c1, a1) == BmeMuxId(m2, c2, a2)
    ensures m1 == m2 && c1 == c2 && a1 == a2
  {
    MuxIdFields("bme280_", m1, c1, a1);
    MuxIdFields("bme280_", m2, c2, a2);
    Hex2Injective(m1, m2);
    Hex2Injective(a1, a2);
    DecimalDigitInjective(c1, c2);
  }

  /** The multiplexed LTR329 id determines multiplexer, channel and address. */
  lemma LtrMuxIdInjective(m1: nat, c1: nat, a1: nat, m2: nat, c2: nat, a2: nat)
    requires m1 < 256 && a1 < 256 && c1 < 10 && m2 < 256 && a2 < 256 && c2 < 10
    requires LtrMuxId(m1, c1, a1) == LtrMuxId(m2, c2, a2)
    ensures m1 == m2 && c1 == c2 && a1 == a2
  {
    MuxIdFields("ltr329_", m1, c1, a1);
    MuxIdFields("ltr329_", m2, c2, a2);
    Hex2Injective(m1, m2);
    Hex2Injective(a1, a2);
    DecimalDigitInjective(c1, c2);
  }

  /**
   * Ids of different kinds never collide: a direct id never equals a
   * multiplexed one, whatever the two sensor types, and a BME280 id never
   * equals an LTR329 id.
   */
  lemma IdsDisjoint(x: nat, y: nat, m1: nat, c1: nat, a1: nat, m2: nat, c2: nat, a2: nat)
    requires x < 256 && y < 256 && m1 < 256 && a1 < 256 && c1 < 10 && m2 < 256 && a2 < 256 && c2 < 10
    ensures BmeDirectId(x) != BmeMuxId(m1, c1, a1) && LtrDirectId(x) != LtrMuxId(m1, c1, a1)
    ensures BmeDirectId(x) != LtrMuxId(m1, c1, a1) && LtrDirectId(x) != BmeMuxId(m1, c1, a1)
    ensures BmeDirectId(x) != LtrDirectId(y) && BmeMuxId(m1, c1, a1) != LtrMuxId(m2, c2, a2)
  {
    assert |BmeDirectId(x)| == 9 && |LtrDirectId(x)| == 9;
    MuxIdFields("bme280_", m1, c1, a1);
    MuxIdFields("ltr329_", m1, c1, a1);
    assert BmeDirectId(x)[0] == 'b' && LtrDirectId(y)[0] == 'l';
    assert BmeMuxId(m1, c1, a1)[0] == 'b' && LtrMuxId(m2, c2, a2)[0] == 'l';
  }

  /** A BME280 descriptor carries a nested `config` with a BME280 address and bus 1. */
  predicate BmeShaped(d: Dict) {
    && "config" in d && d["config"].Mapping?
    && "i2c_address" in d["config"].entries
    && d["config"].entries["i2c_address"].Int?
    && IsBme280Address(d["config"].entries["i2c_address"].i)
    && "bus_number" in d["config"].entries && d["config"].entries["bus_number"] == Int(1)
  }

  /** An LTR329 descriptor has no `config`: address 0x29 and bus 1 are top-level keys. */
  predicate LtrShaped(d: Dict) {
    && "config" !in d
    && "i2c_address" in d && d["i2c_address"] == Int(Ltr329Address)
    && "bus_number" in d && d["bus_number"] == Int(1)
  }

  lemma {:induction false} BmeChannelsShaped(A: Answer, h: seq<Op>, mux: nat, ch: nat)
    ensures forall d :: d in BmeChannels(A, h, mux, ch).out ==> BmeShaped(d)
    decreases 8 - ch
  {
    if ch < 8 {
      var s := BmeChannel(A, h, mux, ch);
      BmeChannelsShaped(A, h + s.ops, mux, ch + 1);
      assert BmeShaped(MuxBme280(mux, ch, 0x76)) && BmeShaped(MuxBme280(mux, ch, 0x77));
    }
  }

  lemma {:induction false} MuxPhaseShaped(A: Answer, open: bool, h: seq<Op>, addrs: seq<int>)
    ensures forall d :: d in MuxPhase(A, open, h, addrs).out.sensors ==> BmeShaped(d)
    decreases |addrs|
  {
    if addrs != [] {
      var c := MuxCandidate(A, open, h, addrs[0]);
      MuxPhaseShaped(A, open, h + c.ops, addrs[1..]);
      if IsMuxAddress(addrs[0]) && open {
        var v := VerifyMux(A, open, h, addrs[0]);
        BmeChannelsShaped(A, h + v.ops, addrs[0] as nat, 0);
      }
    }
  }

  lemma {:induction false} DirectBmesShaped(addrs: seq<int>, muxes: seq<int>)
    ensures forall d :: d in DirectBmes(addrs, muxes) ==> BmeShaped(d)
  {
    if addrs != [] {
      DirectBmesShaped(addrs[1..], muxes);
      if IsBme280Address(addrs[0]) {
        assert BmeShaped(DirectBme280(addrs[0] as nat));
      }
    }
  }

  /** Every BME280 descriptor holds its address under `config`, with bus number 1. */
  lemma Bme280DescriptorsShaped(detect: Detect, A: Answer, open: bool, h: seq<Op>)
    ensures forall d :: d in Bme280Discovery(detect, A, open, h).out ==> BmeShaped(d)
  {
    if detect.Ran? && detect.returnCode == 0 && BmeAddresses(detect.stdout).Ok? {
      var addrs := BmeAddresses(detect.stdout).value;
      var d := DisableOps(open, addrs);
      MuxPhaseShaped(A, open, h + d, addrs);
      DirectBmesShaped(addrs, MuxPhase(A, open, h + d, addrs).out.muxes);
    }
  }

  lemma {:induction false} LtrDirectShaped(A: Answer, open: bool, h: seq<Op>, addrs: seq<int>)
    ensures forall d :: d in LtrDirect(A, open, h, addrs).out ==> d == DirectLtr329(Ltr329Address)
    decreases |addrs|
  {
    if addrs != [] {
      if addrs[0] == Ltr329Address && open {
        LtrDirectShaped(A, open, h + [ReadByteData(Ltr329Address, PartIdRegister)], addrs[1..]);
      } else {
        LtrDirectShaped(A, open, h, addrs[1..]);
      }
    }
  }

  lemma {:induction false} LtrChannelsShaped(A: Answer, h: seq<Op>, mux: nat, ch: nat)
    ensures forall d :: d in LtrChannels(A, h, mux, ch).out ==> LtrShaped(d)
    decreases 8 - ch
  {
    if ch < 8 {
      var s := LtrChannel(A, h, mux, ch);
      LtrChannelsShaped(A, h + s.ops, mux, ch + 1);
      assert LtrShaped(MuxLtr329(mux, ch, Ltr329Address));
    }
  }

  lemma {:induction false} LtrMuxesShaped(A: Answer, open: bool, h: seq<Op>, addrs: seq<int>)
    ensures forall d :: d in LtrMuxes(A, open, h, addrs).out ==> LtrShaped(d)
    decreases |addrs|
  {
    if addrs != [] {
      var c := LtrCandidate(A, open, h, addrs[0]);
      LtrMuxesShaped(A, open, h + c.ops, addrs[1..]);
      if IsMuxAddress(addrs[0]) && open {
        LtrChannelsShaped(A, h, addrs[0] as nat, 0);
      }
    }
  }

  /** Every LTR329 descriptor lacks `config` and names address 0x29 and bus 1 at top level. */
  lemma Ltr329DescriptorsShaped(smbus2: bool, detect: Detect, A: Answer, open: bool, h: seq<Op>)
    ensures forall d :: d in Ltr329Discovery(smbus2, detect, A, open, h).out ==> LtrShaped(d)
  {
    if smbus2 && detect.Ran? && detect.returnCode == 0 {
      LtrScanShaped(A, open, h, LtrAddresses(detect.stdout));
    }
  }

  /** The direct probe and the multiplexer scan over any address list give LTR329-shaped descriptors. */
  lemma LtrScanShaped(A: Answer, open: bool, h: seq<Op>, addrs: seq<int>)
    ensures var dr := LtrDirect(A, open, h, addrs);
            forall d :: d in dr.out + LtrMuxes(A, open, h + dr.ops, addrs).out ==> LtrShaped(d)
  {
    var dr := LtrDirect(A, open, h, addrs);
    LtrDirectShaped(A, open, h, addrs);
    assert LtrShaped(DirectLtr329(Ltr329Address));
    LtrMuxesShaped(A, open, h + dr.ops, addrs);
  }

  /**
   * With a part-ID register that always reads `part`, a direct LTR329 is
   * reported iff 0x29 was detected, the bus opens and the part ID is 0xA0.
   */
  lemma {:induction false} LtrDirectFinds(A: Answer, part: Reply, open: bool, h: seq<Op>, addrs: seq<int>)
    requires forall h' :: A(h', ReadByteData(Ltr329Address, PartIdRegister)) == part
    ensures DirectLtr329(Ltr329Address) in LtrDirect(A, open, h, addrs).out <==>
            Ltr329Address in addrs && open && part == Done(Ltr329PartId)
    ensures forall d :: d in LtrDirect(A, open, h, addrs).out ==> d == DirectLtr329(Ltr329Address)
    decreases |addrs|
  {
    if addrs != [] {
      assert addrs == [addrs[0]] + addrs[1..];
      if addrs[0] == Ltr329Address && open {
        LtrDirectFinds(A, part, open, h + [ReadByteData(Ltr329Address, PartIdRegister)], addrs[1..]);
      } else {
        LtrDirectFinds(A, part, open, h, addrs[1..]);
      }
    }
  }

  /**
   * An oracle for one multiplexer at `mux` as the LTR329 scan sees it: a
   * select write succeeds by its byte alone, and the part-ID register read
   * at 0x29 answers according to the mask currently selected.
   */
  ghost predicate LtrMuxAware(A: Answer, mux: int, writeOk: int -> bool, part: int -> Reply) {
    && (forall h, v :: A(h, WriteByte(mux, v)).Done? == writeOk(v))
    && (forall h :: A(h, ReadByteData(Ltr329Address, PartIdRegister)) == part(Selected(h, mux)))
  }

  /** What an LTR329 scan of channels `ch`..7 finds behind such a multiplexer. */
  ghost function LtrExpected(mux: nat, ch: nat, writeOk: int -> bool, part: int -> Reply): seq<Dict>
    decreases 8 - ch
  {
    if ch >= 8 then []
    else
      (if writeOk(Mask(ch)) && part(Mask(ch)) == Done(Ltr329PartId) then [MuxLtr329(mux, ch, Ltr329Address)] else []) +
      LtrExpected(mux, ch + 1, writeOk, part)
  }

  /** One channel of the LTR329 scan: a descriptor exactly when the select succeeds and the part ID matches. */
  lemma LtrChannelFinds(A: Answer, h: seq<Op>, mux: nat, ch: nat, writeOk: int -> bool, part: int -> Reply)
    requires LtrMuxAware(A, mux, writeOk, part)
    ensures LtrChannel(A, h, mux, ch).out ==
            if writeOk(Mask(ch)) && part(Mask(ch)) == Done(Ltr329PartId) then [MuxLtr329(mux, ch, Ltr329Address)] else []
  {
    var sel := WriteByte(mux, Mask(ch));
    SelectedAfter(h, sel, mux);
    assert A(h, sel).Done? == writeOk(Mask(ch));
    assert A(h + [sel], ReadByteData(Ltr329Address, PartIdRegister)) == part(Mask(ch));
  }

  lemma {:induction false} LtrChannelsFind(A: Answer, h: seq<Op>, mux: nat, ch: nat, writeOk: int -> bool, part: int -> Reply)
    requires LtrMuxAware(A, mux, writeOk, part)
    ensures LtrChannels(A, h, mux, ch).out == LtrExpected(mux, ch, writeOk, part)
    decreases 8 - ch
  {
    if ch < 8 {
      LtrChannelFinds(A, h, mux, ch, writeOk, part);
      LtrChannelsFind(A, h + LtrChannel(A, h, mux, ch).ops, mux, ch + 1, writeOk, part);
    }
  }

  /**
   * Behind a detected multiplexer address whose selected channel decides the
   * part ID, the LTR329 scan reports, in channel order, one descriptor per
   * channel whose select succeeded and whose part ID matched, without first
   * verifying the multiplexer.
   */
  lemma LtrMuxFinds(A: Answer, h: seq<Op>, mux: nat, writeOk: int -> bool, part: int -> Reply)
    requires IsMuxAddress(mux) && LtrMuxAware(A, mux, writeOk, part)
    ensures LtrCandidate(A, true, h, mux).out == LtrExpected(mux, 0, writeOk, part)
  {
    LtrChannelsFind(A, h, mux, 0, writeOk, part);
  }

  /**
   * When i2cdetect cannot be run or exits non-zero, both routines report
   * nothing and issue no bus transaction.
   */
  lemma FailedScanFindsNothing(detect: Detect, smbus2: bool, A: Answer, open: bool, h: seq<Op>)
    requires detect.Unreachable? || detect.returnCode != 0
    ensures Bme280Discovery(detect, A, open, h) == Run([], [])
    ensures Ltr329Discovery(smbus2, detect, A, open, h) == Run([], [])
  {
  }
}
