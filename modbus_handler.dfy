/**
 * The PZEM-004T register decoder, the MODBUS RTU checksum and the energy-reset
 * frame of `sensor-node/modbus_handler.py`.
 *
 * Quantities are kept in the meter's native fixed-point units (0.1 V, 0.001 A,
 * 0.1 W, 1 Wh, 0.1 Hz, 0.01), in which the Python float arithmetic followed by
 * `round` is exact.
 */
module ModbusHandler {
  import opened Optional

  /** A 16-bit MODBUS register. */
  type Word = x: int | 0 <= x < 0x1_0000

  /** One meter's reading, in native units. */
  datatype Reading = Reading(
    deciVolts: int,   // voltage, 0.1 V
    milliAmps: int,   // current, 0.001 A
    deciWatts: int,   // active power, 0.1 W
    wattHours: int,   // energy counter, 1 Wh
    deciHertz: int,   // frequency, 0.1 Hz
    centiPf: int)     // power factor, 0.01

  // ---------------------------------------------------------------------------
  // Python integer bit operations used by the decoder
  // ---------------------------------------------------------------------------

  function Pow2(n: nat): (r: nat)
    ensures r >= 1
  {
    if n == 0 then 1 else 2 * Pow2(n - 1)
  }

  /** Python's `x << n` on a non-negative int. */
  function ShiftLeft(x: nat, n: nat): nat {
    x * Pow2(n)
  }

  /** Python's `a | b` on non-negative ints, one bit at a time from the lowest. */
  function BitOr(a: nat, b: nat): nat
    decreases a + b
  {
    if a == 0 then b
    else if b == 0 then a
    else 2 * BitOr(a / 2, b / 2) + (if a % 2 == 1 || b % 2 == 1 then 1 else 0)
  }

  /** OR-ing a value below 2^n into a value shifted left by n is addition. */
  lemma {:induction false} OrOfDisjointBits(x: nat, y: nat, n: nat)
    requires y < Pow2(n)
    ensures BitOr(ShiftLeft(x, n), y) == ShiftLeft(x, n) + y
  {
    var a := ShiftLeft(x, n);
    if n == 0 || a == 0 || y == 0 {
    } else {
      var p := Pow2(n - 1);
      assert a == 2 * (x * p);
      assert a / 2 == ShiftLeft(x, n - 1) && a % 2 == 0;
      OrOfDisjointBits(x, y / 2, n - 1);
    }
  }

  lemma Pow2Of16()
    ensures Pow2(16) == 0x1_0000
  {
    assert Pow2(4) == 16;
    assert Pow2(8) == 2 * Pow2(7) == 4 * Pow2(6) == 8 * Pow2(5) == 16 * Pow2(4);
    assert Pow2(12) == 2 * Pow2(11) == 4 * Pow2(10) == 8 * Pow2(9) == 16 * Pow2(8);
    assert Pow2(16) == 2 * Pow2(15) == 4 * Pow2(14) == 8 * Pow2(13) == 16 * Pow2(12);
  }

  /** A 32-bit field sent low word first, `(high << 16) | low`. */
  function Combine(low: Word, high: Word): (r: nat)
    ensures r == high * 0x1_0000 + low
    ensures r < 0x1_0000_0000
  {
    Pow2Of16();
    OrOfDisjointBits(high, low, 16);
    BitOr(ShiftLeft(high, 16), low)
  }

  // ---------------------------------------------------------------------------
  // Register decoding
  // ---------------------------------------------------------------------------

  /**
   * The parsing in `read_all` of the registers returned by one bulk read.
   * Python indexes registers 0 to 8, so a shorter list raises, and the
   * reading is then recorded as `None`; register 9 (alarm) is never used.
   */
  function Decode(values: seq<Word>): (r: Option<Reading>)
    ensures r.Some? <==> |values| >= 9
    ensures r.Some? ==> r.value == Reading(
      values[0],
      values[1] as int + 0x1_0000 * values[2] as int,
      values[3] as int + 0x1_0000 * values[4] as int,
      values[5] as int + 0x1_0000 * values[6] as int,
      values[7],
      values[8])
    ensures r.Some? ==>
      && 0 <= r.value.milliAmps < 0x1_0000_0000
      && 0 <= r.value.deciWatts < 0x1_0000_0000
      && 0 <= r.value.wattHours < 0x1_0000_0000
  {
    if |values| < 9 then None
    else
      Some(Reading(
        deciVolts := values[0],
        milliAmps := Combine(values[1], values[2]),
        deciWatts := Combine(values[3], values[4]),
        wattHours := Combine(values[5], values[6]),
        deciHertz := values[7],
        centiPf := values[8]))
  }

  /** The worked example: 230.0 V, 0.500 A, 1150.0 W, 1200 Wh, 50.0 Hz, PF 0.95. */
  lemma DecodeExample()
    ensures Decode([2300, 500, 0, 11500, 0, 1200, 0, 500, 95, 0])
         == Some(Reading(2300, 500, 11500, 1200, 500, 95))
  {
  }

  /** The alarm register and anything after it never influence the reading. */
  lemma DecodeIgnoresAlarm(values: seq<Word>, alarm: Word)
    requires |values| == 10
    ensures Decode(values[9 := alarm]) == Decode(values)
    ensures Decode(values) == Decode(values[..9])
  {
  }

  // ---------------------------------------------------------------------------
  // Simulation data
  // ---------------------------------------------------------------------------

  /**
   * `_simulate_data` without its random jitter: 230 V, 2 A per unit of
   * address, 230 V times that current, 50 Hz, PF 0.95, and the minutes
   * elapsed on the clock as the energy counter.
   */
  function Simulate(address: int, clock: real): Reading {
    Reading(
      deciVolts := 2300,
      milliAmps := 2000 * address,
      deciWatts := 10 * 230 * 2 * address,
      wattHours := (clock / 60.0).Floor,
      deciHertz := 500,
      centiPf := 95)
  }

  // ---------------------------------------------------------------------------
  // Reading all configured meters
  // ---------------------------------------------------------------------------

  /**
   * The bus: what `read_registers(0x0000, 10, functioncode=4)` yields at an
   * address, or `None` when the transaction raises (timeout, I/O error,
   * checksum mismatch).
   */
  type Bus = int -> Option<seq<Word>>

  /** The entry `read_all` records for one address. */
  function ReadAddress(simulationMode: bool, bus: Bus, clock: real, address: int): Option<Reading> {
    if simulationMode then Some(Simulate(address, clock))
    else
      match bus(address)
      case None => None
      case Some(values) => Decode(values)
  }

  /** The dictionary `read_all` returns: one entry per configured address. */
  function ReadAllSpec(addresses: seq<int>, simulationMode: bool, bus: Bus, clock: real): map<int, Option<Reading>> {
    map a | a in addresses :: ReadAddress(simulationMode, bus, clock, a)
  }

  /** The keys are exactly the configured addresses, each with its own bus outcome. */
  lemma ReadAllEntries(addresses: seq<int>, simulationMode: bool, bus: Bus, clock: real, a: int)
    ensures var data := ReadAllSpec(addresses, simulationMode, bus, clock);
      && (a in data <==> a in addresses)
      && (a in data && !simulationMode ==>
            data[a] == (if bus(a).Some? then Decode(bus(a).value) else None))
  {
  }

  /**
   * A failure at one address leaves every other address's entry as it was:
   * changing what the bus does at `b` changes at most the entry of `b`, and a
   * failure there records `None`.
   */
  lemma FailureIsolated(addresses: seq<int>, bus: Bus, bus': Bus, clock: real, b: int)
    requires forall a :: a != b ==> bus(a) == bus'(a)
    requires bus'(b).None?
    ensures var data, data' := ReadAllSpec(addresses, false, bus, clock), ReadAllSpec(addresses, false, bus', clock);
      && data'.Keys == data.Keys
      && (forall a :: a in data && a != b ==> data'[a] == data[a])
      && (b in addresses ==> data'[b] == None)
  {
  }

  /** In simulation mode every configured address gets a reading. */
  lemma SimulationNeverFails(addresses: seq<int>, bus: Bus, clock: real)
    ensures var data := ReadAllSpec(addresses, true, bus, clock);
      forall a :: a in addresses ==> a in data && data[a].Some?
  {
  }

  // ---------------------------------------------------------------------------
  // MODBUS RTU CRC-16 (MODBUS over Serial Line V1.02, section 6.2.2)
  // ---------------------------------------------------------------------------

  const CrcInit: bv16 := 0xFFFF
  const CrcPoly: bv16 := 0xA001

  /** One of the eight rounds per byte: shift right, XOR the reflected polynomial if the old LSB was 1. */
  function CrcRound(crc: bv16): bv16 {
    if crc & 1 != 0 then (crc >> 1) ^ CrcPoly else crc >> 1
  }

  function CrcRounds(crc: bv16, n: nat): bv16 {
    if n == 0 then crc else CrcRound(CrcRounds(crc, n - 1))
  }

  /** The per-byte step: XOR the byte into the low half, then eight rounds. */
  function CrcByte(crc: bv16, b: bv8): bv16 {
    CrcRounds(crc ^ (b as bv16), 8)
  }

  /** The left fold of the per-byte step over `data`. */
  function CrcFold(crc: bv16, data: seq<bv8>): bv16 {
    if data == [] then crc else CrcByte(CrcFold(crc, data[..|data| - 1]), data[|data| - 1])
  }

  function Crc(data: seq<bv8>): bv16 {
    CrcFold(CrcInit, data)
  }

  /** The CRC as transmitted: low byte first, then high byte. */
  function CrcBytes(crc: bv16): (r: seq<bv8>)
    ensures |r| == 2
    ensures (r[0] as bv16) | ((r[1] as bv16) << 8) == crc
  {
    [(crc & 0xFF) as bv8, ((crc >> 8) & 0xFF) as bv8]
  }

  /** `_calculate_crc`: the outer loop folds the per-byte step over the data, output low byte first. */
  method CalculateCrc(data: seq<bv8>) returns (out: seq<bv8>)
    ensures out == CrcBytes(Crc(data))
  {
    var crc: bv16 := 0xFFFF;
    for j := 0 to |data|
      invariant crc == CrcFold(CrcInit, data[..j])
    {
      CrcFoldSnoc(data, j);
      crc := UpdateCrc(crc, data[j]);
    }
    assert data[..|data|] == data;
    assert crc == Crc(data);
    out := [(crc & 0xFF) as bv8, ((crc >> 8) & 0xFF) as bv8];
  }

  /** The fold over one more byte is the per-byte step on the fold so far. */
  lemma CrcFoldSnoc(data: seq<bv8>, j: int)
    requires 0 <= j < |data|
    ensures CrcFold(CrcInit, data[..j + 1]) == CrcByte(CrcFold(CrcInit, data[..j]), data[j])
  {
    assert data[..j + 1][..j] == data[..j];
  }

  /** The body of the outer loop of `_calculate_crc`: XOR the byte in, then the eight rounds of the inner loop. */
  method UpdateCrc(before: bv16, b: bv8) returns (crc: bv16)
    ensures crc == CrcByte(before, b)
  {
    crc := before ^ (b as bv16);
    ghost var start := crc;
    for i := 0 to 8
      invariant crc == CrcRounds(start, i)
    {
      if crc & 1 != 0 {
        crc := crc >> 1;
        crc := crc ^ 0xA001;
      } else {
        crc := crc >> 1;
      }
    }
  }

  /** The empty message leaves the initial value, sent as `FF FF`. */
  lemma CrcOfEmpty()
    ensures Crc([]) == 0xFFFF && CrcBytes(Crc([])) == [0xFF, 0xFF]
  {
  }

  /** Folding over a concatenation folds over the first part, then the second. */
  lemma {:induction false} CrcFoldAppend(crc: bv16, m: seq<bv8>, t: seq<bv8>)
    ensures CrcFold(crc, m + t) == CrcFold(CrcFold(crc, m), t)
  {
    if t == [] {
      assert m + t == m;
    } else {
      assert (m + t)[..|m + t| - 1] == m + t[..|t| - 1];
      CrcFoldAppend(crc, m, t[..|t| - 1]);
    }
  }

  lemma EightRounds(c: bv16)
    ensures CrcRounds(c, 8)
         == CrcRound(CrcRound(CrcRound(CrcRound(CrcRound(CrcRound(CrcRound(CrcRound(c))))))))
  {
    assert CrcRounds(c, 1) == CrcRound(c);
    assert CrcRounds(c, 2) == CrcRound(CrcRounds(c, 1));
    assert CrcRounds(c, 3) == CrcRound(CrcRounds(c, 2));
    assert CrcRounds(c, 4) == CrcRound(CrcRounds(c, 3));
    assert CrcRounds(c, 5) == CrcRound(CrcRounds(c, 4));
    assert CrcRounds(c, 6) == CrcRound(CrcRounds(c, 5));
    assert CrcRounds(c, 7) == CrcRound(CrcRounds(c, 6));
  }

  /** Feeding a checksum's two bytes back into the state that produced it yields zero. */
  lemma CrcOfOwnBytes(s: bv16)
    ensures CrcFold(s, CrcBytes(s)) == 0
  {
    var b := CrcBytes(s);
    FoldTwo(s, b);
    LowByteStep(s);
    HighByteStep(s);
  }

  /** Folding over two bytes is two per-byte steps. */
  lemma FoldTwo(s: bv16, b: seq<bv8>)
    requires |b| == 2
    ensures CrcFold(s, b) == CrcByte(CrcByte(s, b[0]), b[1])
  {
    assert b[..1][..0] == [] && b[..1][0] == b[0];
    assert CrcFold(s, b[..1]) == CrcByte(s, b[0]);
  }

  /** The low byte clears the low half of the state, which the rounds then shift out. */
  lemma LowByteStep(s: bv16)
    ensures CrcByte(s, CrcBytes(s)[0]) == s >> 8
  {
    assert s ^ (CrcBytes(s)[0] as bv16) == s & 0xFF00;
    ShiftOutZeros(s);
  }

  /** The high byte then clears the whole state, and eight rounds keep it zero. */
  lemma HighByteStep(s: bv16)
    ensures CrcByte(s >> 8, CrcBytes(s)[1]) == 0
  {
    assert (s >> 8) ^ (CrcBytes(s)[1] as bv16) == 0;
    assert CrcRounds(0, 8) == 0;
  }

  /** A state whose low byte is zero shifts out eight zero bits: no XOR happens. */
  lemma ShiftOutZeros(s: bv16)
    ensures CrcRounds(s & 0xFF00, 8) == s >> 8
  {
    var x := s & 0xFF00;
    EightRounds(x);
    EvenRound(x);
    EvenRound(x >> 1);
    EvenRound(x >> 2);
    EvenRound(x >> 3);
    EvenRound(x >> 4);
    EvenRound(x >> 5);
    EvenRound(x >> 6);
    EvenRound(x >> 7);
  }

  /** A round on a state with its lowest bit clear is a plain shift. */
  lemma EvenRound(x: bv16)
    requires x & 1 == 0
    ensures CrcRound(x) == x >> 1
  {
  }

  /**
   * The receiver-side RTU check: a message followed by its own CRC, low byte
   * first, has CRC zero.
   */
  lemma RtuCheck(data: seq<bv8>)
    ensures Crc(data + CrcBytes(Crc(data))) == 0
  {
    CrcFoldAppend(CrcInit, data, CrcBytes(Crc(data)));
    CrcOfOwnBytes(Crc(data));
  }

  /** The read request `01 04 00 00 00 0A` carries the well-known trailer `70 0D`. */
  lemma ReadRequestVector()
    ensures CrcBytes(Crc([0x01, 0x04, 0x00, 0x00, 0x00, 0x0A])) == [0x70, 0x0D]
  {
    var m: seq<bv8> := [0x01, 0x04, 0x00, 0x00, 0x00, 0x0A];
    EightRounds(0xFFFF ^ 0x01);
    EightRounds(0x807E ^ 0x04);
    EightRounds(0xE301 ^ 0x00);
    EightRounds(0xC022 ^ 0x00);
    EightRounds(0x1940 ^ 0x00);
    EightRounds(0xF018 ^ 0x0A);
    assert m[..1][..0] == [] && m[..2][..1] == m[..1] && m[..3][..2] == m[..2];
    assert m[..4][..3] == m[..3] && m[..5][..4] == m[..4] && m[..6][..5] == m[..5] && m[..6] == m;
    assert CrcFold(CrcInit, m[..1]) == 0x807E;
    assert CrcFold(CrcInit, m[..2]) == 0xE301;
    assert CrcFold(CrcInit, m[..3]) == 0xC022;
    assert CrcFold(CrcInit, m[..4]) == 0x1940;
    assert CrcFold(CrcInit, m[..5]) == 0xF018;
    assert Crc(m) == 0x0D70;
  }

  // ---------------------------------------------------------------------------
  // The energy-reset frame
  // ---------------------------------------------------------------------------

  /** The vendor reset frame: address, `0x42`, then the CRC of those two bytes. */
  function ResetFrame(address: bv8): (frame: seq<bv8>)
    ensures |frame| == 4 && frame[0] == address && frame[1] == 0x42
    ensures frame[2..] == CrcBytes(Crc(frame[..2]))
    ensures Crc(frame) == 0
  {
    var payload := [address, 0x42];
    RtuCheck(payload);
    assert (payload + CrcBytes(Crc(payload)))[..2] == payload;
    payload + CrcBytes(Crc(payload))
  }

  /** The reset frame for address 1 is `01 42 80 11`. */
  lemma ResetFrameExample()
    ensures ResetFrame(0x01) == [0x01, 0x42, 0x80, 0x11]
  {
    var m: seq<bv8> := [0x01, 0x42];
    EightRounds(0xFFFF ^ 0x01);
    EightRounds(0x807E ^ 0x42);
    assert m[..1][..0] == [];
    assert CrcFold(CrcInit, m[..1]) == 0x807E;
    assert Crc(m) == 0x1180;
  }

  // ---------------------------------------------------------------------------
  // The handler object
  // ---------------------------------------------------------------------------

  class PzemHandler {
    const addresses: seq<int>
    /** Set once, at construction, when the serial port cannot be opened. */
    const simulationMode: bool

    constructor (addresses: seq<int>, portOpens: bool)
      ensures this.addresses == addresses
      ensures simulationMode == !portOpens
    {
      this.addresses := addresses;
      simulationMode := !portOpens;
    }

    /**
     * `read_all`: one entry per configured address, in order; a failing
     * address is recorded as `None` and the loop goes on.
     */
    method ReadAll(bus: Bus, clock: real) returns (data: map<int, Option<Reading>>)
      ensures data == ReadAllSpec(addresses, simulationMode, bus, clock)
    {
      data := map[];
      var k := 0;
      while k < |addresses|
        invariant 0 <= k <= |addresses|
        invariant data == ReadAllSpec(addresses[..k], simulationMode, bus, clock)
      {
        var address := addresses[k];
        if simulationMode {
          data := data[address := Some(Simulate(address, clock))];
        } else {
          match bus(address)
          case None =>
            data := data[address := None];
          case Some(values) =>
            data := data[address := Decode(values)];
        }
        assert addresses[..k + 1] == addresses[..k] + [address];
        k := k + 1;
      }
      assert addresses[..k] == addresses;
    }

    /**
     * `reset_energy`: returns true at once in simulation mode; otherwise
     * builds the frame (Python's `bytearray` raises for an address outside
     * 0..255), hands it to the port and returns whether the port calls
     * succeeded. `sent` is the frame handed to `serial.write`.
     */
    method ResetEnergy(address: int, transportOk: bool) returns (success: bool, sent: seq<bv8>)
      ensures success == (simulationMode || (0 <= address < 256 && transportOk))
      ensures sent == (if !simulationMode && 0 <= address < 256 then ResetFrame(address as bv8) else [])
    {
      if simulationMode {
        return true, [];
      }
      if !(0 <= address < 256) {
        return false, [];
      }
      var payload: seq<bv8> := [address as bv8, 0x42];
      var crc := CalculateCrc(payload);
      payload := payload + crc;
      assert payload == ResetFrame(address as bv8);
      sent := payload;
      success := transportOk;
    }
  }
}
