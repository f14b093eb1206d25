/**
 * The settings file of the motor controller ("settings.dat"): a flat record
 * of 34 eight-byte slots. Integer slots hold `int.to_bytes(8, 'big')`, three
 * slots hold a native 8-byte float whose bytes this model treats as opaque
 * (the packing and unpacking functions are parameters).
 */
module SettingsCodec {
  import opened Wrappers

  /** A byte of the file. */
  type Byte = x: int | 0 <= x < 256

  /** An 8-byte slot of the record. */
  type Block8 = b: seq<Byte> | |b| == 8 witness [0, 0, 0, 0, 0, 0, 0, 0]

  const FieldCount: nat := 34
  const RecordBytes: nat := 8 * FieldCount

  function Pow256(n: nat): (r: nat)
    ensures r > 0
  {
    if n == 0 then 1 else 256 * Pow256(n - 1)
  }

  /** Largest integer plus one that `to_bytes(8, ...)` accepts. */
  const U64Bound: nat := Pow256(8)

  lemma U64BoundIsTwoTo64()
    ensures U64Bound == 0x1_0000_0000_0000_0000
  {
    assert Pow256(2) == 0x1_0000;
    assert Pow256(4) == 0x1_0000_0000 by { assert Pow256(4) == 256 * (256 * Pow256(2)); }
    assert Pow256(8) == 0x1_0000_0000_0000_0000 by {
      assert Pow256(6) == 256 * (256 * Pow256(4));
      assert Pow256(8) == 256 * (256 * Pow256(6));
    }
  }

  predicate FitsU64(v: int) {
    0 <= v < U64Bound
  }

  /** `v.to_bytes(n, byteorder='big')` for a value that fits in n bytes. */
  function BigEndian(v: nat, n: nat): (r: seq<Byte>)
    requires v < Pow256(n)
    ensures |r| == n
  {
    if n == 0 then []
    else BigEndian(v / 256, n - 1) + [v % 256]
  }

  /** `int.from_bytes(b, byteorder='big')`, for a chunk of any length (an empty read gives 0). */
  function FromBigEndian(b: seq<Byte>): (r: nat)
    ensures r < Pow256(|b|)
  {
    if b == [] then 0
    else
      var hi := FromBigEndian(b[..|b| - 1]);
      assert hi * 256 + 255 < Pow256(|b|) by {
        assert hi + 1 <= Pow256(|b| - 1);
        assert (hi + 1) * 256 <= Pow256(|b| - 1) * 256;
      }
      hi * 256 + b[|b| - 1]
  }

  lemma {:induction false} FromBigEndianOfBigEndian(v: nat, n: nat)
    requires v < Pow256(n)
    ensures FromBigEndian(BigEndian(v, n)) == v
  {
    if n > 0 {
      var hi, lo := v / 256, v % 256;
      var b := BigEndian(v, n);
      assert b[..n - 1] == BigEndian(hi, n - 1);
      assert b[n - 1] == lo;
      FromBigEndianOfBigEndian(hi, n - 1);
      assert FromBigEndian(b) == hi * 256 + lo;
    }
  }

  lemma {:induction false} BigEndianOfFromBigEndian(b: seq<Byte>)
    ensures BigEndian(FromBigEndian(b), |b|) == b
  {
    if b != [] {
      var init := b[..|b| - 1];
      var v := FromBigEndian(b);
      assert v / 256 == FromBigEndian(init);
      assert v % 256 == b[|b| - 1];
      BigEndianOfFromBigEndian(init);
      assert b == init + [b[|b| - 1]];
    }
  }

  /** `v.to_bytes(8, byteorder='big')`: None stands for the OverflowError raised for a negative or too large value. */
  function ToBytes8(v: int): (r: Option<Block8>)
    ensures r.Some? <==> FitsU64(v)
    ensures r.Some? ==> FromBigEndian(r.value) == v
  {
    if FitsU64(v) then
      FromBigEndianOfBigEndian(v, 8);
      Some(BigEndian(v, 8))
    else None
  }

  /**
   * The persisted fields of the controller. `retrachChn` is the attribute that
   * loading creates from the second copy of the retract channel (None until a
   * load reaches that slot); nothing reads it.
   */
  datatype Settings = Settings(
    adUpdateTimeMs: int, graphUpdateTimeMs: int, currGraphCount: int,
    fastMoveFreq: int, slowMoveFreq: int, autoApproachFreq: int,
    acceleration: int, dSpeed: int, powerCycle: int, accelFreq: int,
    approachChn: int, retractChn: int, sumChn: int, defChn: int, ampChn: int, zpiChn: int,
    defLimit: real, zpiLimit: real, ampRatio: real,
    motorUpdateTimeMs: int, outputMode: int,
    maxTravelFast: int, maxTravelSlow: int, directionChn: int,
    fastLimitState: int, slowLimitState: int,
    retrachChn: Option<int>)

  /** One slot of the record as it is written. */
  datatype Value = IntValue(n: int) | FloatValue(x: real)

  /** Slot i of the record, in the order SaveSettings writes the fields. */
  function SlotValue(s: Settings, i: nat): Value
    requires i < FieldCount
  {
    if i < 10 then FirstSlots(s, i)
    else if i < 20 then MiddleSlots(s, i - 10)
    else LastSlots(s, i - 20)
  }

  /** Slots 0-9: timing, speed profile, duty cycle and ramp frequency. */
  function FirstSlots(s: Settings, k: nat): Value
    requires k < 10
  {
    match k
    case 0 => IntValue(s.adUpdateTimeMs)  // slot 0
    case 1 => IntValue(s.graphUpdateTimeMs)  // slot 1
    case 2 => IntValue(s.currGraphCount)  // slot 2
    case 3 => IntValue(s.fastMoveFreq)  // slot 3
    case 4 => IntValue(s.slowMoveFreq)  // slot 4
    case 5 => IntValue(s.autoApproachFreq)  // slot 5
    case 6 => IntValue(s.acceleration)  // slot 6
    case 7 => IntValue(s.dSpeed)  // slot 7
    case 8 => IntValue(s.powerCycle)  // slot 8
    case _ => IntValue(s.accelFreq)  // slot 9
  }

  /** Slots 10-19: the first copy of the channel map, the three float thresholds, and motorUpdateTimeMS. */
  function MiddleSlots(s: Settings, k: nat): Value
    requires k < 10
  {
    match k
    case 0 => IntValue(s.approachChn)  // slot 10
    case 1 => IntValue(s.retractChn)  // slot 11
    case 2 => IntValue(s.sumChn)  // slot 12
    case 3 => IntValue(s.defChn)  // slot 13
    case 4 => IntValue(s.ampChn)  // slot 14
    case 5 => IntValue(s.zpiChn)  // slot 15
    case 6 => FloatValue(s.defLimit)  // slot 16
    case 7 => FloatValue(s.zpiLimit)  // slot 17
    case 8 => FloatValue(s.ampRatio)  // slot 18
    case _ => IntValue(s.motorUpdateTimeMs)  // slot 19
  }

  /** Slots 20-33: output mode, second copies of timing and channels, travel limits, limit switches. */
  function LastSlots(s: Settings, k: nat): Value
    requires k < 14
  {
    match k
    case 0 => IntValue(s.outputMode)  // slot 20
    case 1 => IntValue(s.adUpdateTimeMs)  // slot 21
    case 2 => IntValue(s.graphUpdateTimeMs)  // slot 22
    case 3 => IntValue(s.maxTravelFast)  // slot 23
    case 4 => IntValue(s.maxTravelSlow)  // slot 24
    case 5 => IntValue(s.directionChn)  // slot 25
    case 6 => IntValue(s.approachChn)  // slot 26
    case 7 => IntValue(s.retractChn)  // slot 27
    case 8 => IntValue(s.sumChn)  // slot 28
    case 9 => IntValue(s.defChn)  // slot 29
    case 10 => IntValue(s.ampChn)  // slot 30
    case 11 => IntValue(s.zpiChn)  // slot 31
    case 12 => IntValue(s.fastLimitState)  // slot 32
    case _ => IntValue(s.slowLimitState)  // slot 33
  }

  /** The 34 values SaveSettings writes, in order. */
  function Record(s: Settings): (r: seq<Value>)
    ensures |r| == FieldCount
    ensures forall i :: 0 <= i < FieldCount ==> r[i] == SlotValue(s, i)
  {
    seq(FieldCount, i requires 0 <= i < FieldCount => SlotValue(s, i))
  }

  predicate Fits(v: Value) {
    v.IntValue? ==> FitsU64(v.n)
  }

  predicate AllFit(vals: seq<Value>) {
    forall i :: 0 <= i < |vals| ==> Fits(vals[i])
  }

  /** Every integer of the record is writable. */
  predicate SettingsFit(s: Settings) {
    AllFit(Record(s))
  }

  /** The bytes of one slot; defined only for a slot that can be written. */
  function Slot(v: Value, pack: real -> Block8): (b: Block8)
    requires Fits(v)
    ensures v.IntValue? ==> FromBigEndian(b) == v.n
  {
    match v
    case IntValue(n) => ToBytes8(n).value
    case FloatValue(x) => pack(x)
  }

  /** What the file holds after writing some values, and whether every write succeeded. */
  datatype Written = Written(bytes: seq<Byte>, ok: bool)

  /**
   * Writing values one after another into a freshly truncated file: the
   * first integer that does not fit raises, so the file keeps what was
   * written before it and nothing after.
   */
  function Encode(vals: seq<Value>, pack: real -> Block8): (w: Written)
    ensures |w.bytes| <= 8 * |vals|
    ensures w.ok ==> |w.bytes| == 8 * |vals|
  {
    if vals == [] then Written([], true)
    else
      var w := Encode(vals[..|vals| - 1], pack);
      var v := vals[|vals| - 1];
      if !w.ok then w
      else if !Fits(v) then Written(w.bytes, false)
      else Written(w.bytes + Slot(v, pack), true)
  }

  lemma {:induction false} EncodeOkIffAllFit(vals: seq<Value>, pack: real -> Block8)
    ensures Encode(vals, pack).ok <==> AllFit(vals)
  {
    if vals != [] {
      var init := vals[..|vals| - 1];
      EncodeOkIffAllFit(init, pack);
      assert AllFit(vals) <==> AllFit(init) && Fits(vals[|vals| - 1]) by {
        if AllFit(init) && Fits(vals[|vals| - 1]) {
          forall i | 0 <= i < |vals| ensures Fits(vals[i]) {
            if i < |vals| - 1 { assert vals[i] == init[i]; }
          }
        }
        if AllFit(vals) {
          forall i | 0 <= i < |init| ensures Fits(init[i]) { assert init[i] == vals[i]; }
        }
      }
    }
  }

  /** Bytes [8*i, 8*i+8) of a successful write are slot i. */
  lemma {:induction false} EncodeLayout(vals: seq<Value>, pack: real -> Block8, i: nat)
    requires Encode(vals, pack).ok
    requires i < |vals|
    ensures AllFit(vals)
    ensures Encode(vals, pack).bytes[8 * i .. 8 * i + 8] == Slot(vals[i], pack)
  {
    EncodeOkIffAllFit(vals, pack);
    var init := vals[..|vals| - 1];
    var w := Encode(init, pack);
    assert w.ok;
    var bytes := Encode(vals, pack).bytes;
    assert bytes == w.bytes + Slot(vals[|vals| - 1], pack);
    if i < |init| {
      EncodeLayout(init, pack, i);
      assert init[i] == vals[i];
      assert bytes[8 * i .. 8 * i + 8] == w.bytes[8 * i .. 8 * i + 8];
    } else {
      assert bytes[8 * i .. 8 * i + 8] == bytes[|w.bytes| ..];
    }
  }

  /**
   * A failed write leaves exactly the slots before the first integer that
   * does not fit.
   */
  lemma {:induction false} EncodeStopsAtFirstOverflow(vals: seq<Value>, pack: real -> Block8)
    requires !Encode(vals, pack).ok
    ensures exists k :: 0 <= k < |vals| && !Fits(vals[k]) && AllFit(vals[..k])
                        && Encode(vals, pack).bytes == Encode(vals[..k], pack).bytes
                        && |Encode(vals, pack).bytes| == 8 * k
  {
    var init := vals[..|vals| - 1];
    var k := |vals| - 1;
    if Encode(init, pack).ok {
      EncodeOkIffAllFit(init, pack);
      assert vals[..k] == init;
    } else {
      EncodeStopsAtFirstOverflow(init, pack);
      var j :| 0 <= j < |init| && !Fits(init[j]) && AllFit(init[..j])
               && Encode(init, pack).bytes == Encode(init[..j], pack).bytes
               && |Encode(init, pack).bytes| == 8 * j;
      assert init[..j] == vals[..j];
      assert init[j] == vals[j];
    }
  }

  /** Once a write has failed, later values leave the file as it was. */
  lemma {:induction false} EncodeFailureIsFinal(vals: seq<Value>, pack: real -> Block8, j: nat)
    requires j <= |vals| && !Encode(vals[..j], pack).ok
    ensures Encode(vals, pack) == Encode(vals[..j], pack)
    decreases |vals|
  {
    if j < |vals| {
      var init := vals[..|vals| - 1];
      assert init[..j] == vals[..j];
      EncodeFailureIsFinal(init, pack, j);
    } else {
      assert vals[..j] == vals;
    }
  }

  // ----- reading the file back -----

  /** `read(8)` of slot i: up to 8 bytes, fewer (or none) past the end of the file. */
  function Chunk(f: seq<Byte>, i: nat): (c: seq<Byte>)
    ensures |c| <= 8
    ensures 8 * i + 8 <= |f| ==> c == f[8 * i .. 8 * i + 8]
  {
    var lo := if 8 * i <= |f| then 8 * i else |f|;
    var hi := if 8 * i + 8 <= |f| then 8 * i + 8 else |f|;
    f[lo..hi]
  }

  /** `int.from_bytes(read(8), byteorder='big')` for slot i. */
  function IntAt(f: seq<Byte>, i: nat): (v: nat)
    ensures v < U64Bound
  {
    var c := Chunk(f, i);
    assert Pow256(|c|) <= U64Bound by { Pow256Monotone(|c|, 8); }
    FromBigEndian(c)
  }

  lemma {:induction false} Pow256Monotone(a: nat, b: nat)
    requires a <= b
    ensures Pow256(a) <= Pow256(b)
  {
    if a < b { Pow256Monotone(a, b - 1); }
  }

  /** `struct.unpack('d', read(8))` succeeds only on a full 8-byte chunk. */
  predicate HasBlock(f: seq<Byte>, i: nat) {
    8 * i + 8 <= |f|
  }

  function BlockAt(f: seq<Byte>, i: nat): Block8
    requires HasBlock(f, i)
  {
    f[8 * i .. 8 * i + 8]
  }

  /** The fields after a load attempt, and whether it ran to the end without raising. */
  datatype Loaded = Loaded(cfg: Settings, ok: bool)

  /**
   * LoadSettings before its except-clause: a missing file raises at once;
   * otherwise the slots are read in order, each assignment taking effect as
   * it happens, and a float slot with fewer than 8 bytes left raises. Slot 19
   * goes to a local (`dummy`) and slot 27 to `retrachChn`.
   */
  function LoadFrom(file: Option<seq<Byte>>, s: Settings, unpack: Block8 -> real): (r: Loaded)
    ensures file.None? ==> r == Loaded(s, false)
    ensures r.ok <==> file.Some? && |file.value| >= 8 * 19
    ensures r.cfg.motorUpdateTimeMs == s.motorUpdateTimeMs
    ensures file.Some? ==> r.cfg.fastMoveFreq == IntAt(file.value, 3) && r.cfg.accelFreq == IntAt(file.value, 9)
    ensures r.ok ==> r.cfg.retractChn == IntAt(file.value, 11) && r.cfg.retrachChn == Some(IntAt(file.value, 27))
    ensures !r.ok ==> r.cfg.maxTravelFast == s.maxTravelFast && r.cfg.slowLimitState == s.slowLimitState
                      && r.cfg.retrachChn == s.retrachChn
  {
    match file
    case None => Loaded(s, false)
    case Some(f) =>
      var a := s.(adUpdateTimeMs := IntAt(f, 0), graphUpdateTimeMs := IntAt(f, 1),
                  currGraphCount := IntAt(f, 2), fastMoveFreq := IntAt(f, 3),
                  slowMoveFreq := IntAt(f, 4), autoApproachFreq := IntAt(f, 5),
                  acceleration := IntAt(f, 6), dSpeed := IntAt(f, 7), powerCycle := IntAt(f, 8),
                  accelFreq := IntAt(f, 9), approachChn := IntAt(f, 10), retractChn := IntAt(f, 11),
                  sumChn := IntAt(f, 12), defChn := IntAt(f, 13), ampChn := IntAt(f, 14),
                  zpiChn := IntAt(f, 15));
      if !HasBlock(f, 16) then Loaded(a, false)
      else
        var b := a.(defLimit := unpack(BlockAt(f, 16)));
        if !HasBlock(f, 17) then Loaded(b, false)
        else
          var c := b.(zpiLimit := unpack(BlockAt(f, 17)));
          if !HasBlock(f, 18) then Loaded(c, false)
          else
            Loaded(c.(ampRatio := unpack(BlockAt(f, 18)),
                      outputMode := IntAt(f, 20),
                      adUpdateTimeMs := IntAt(f, 21), graphUpdateTimeMs := IntAt(f, 22),
                      maxTravelFast := IntAt(f, 23), maxTravelSlow := IntAt(f, 24),
                      directionChn := IntAt(f, 25), approachChn := IntAt(f, 26),
                      retrachChn := Some(IntAt(f, 27)),
                      sumChn := IntAt(f, 28), defChn := IntAt(f, 29), ampChn := IntAt(f, 30),
                      zpiChn := IntAt(f, 31),
                      fastLimitState := IntAt(f, 32), slowLimitState := IntAt(f, 33)), true)
  }

  /** A slot the file does not reach reads as 0: `int.from_bytes(b'')` is 0. */
  lemma ReadPastEndIsZero(f: seq<Byte>, i: nat)
    requires |f| <= 8 * i
    ensures IntAt(f, i) == 0
  {
  }

  /**
   * A record cut anywhere in slot 19 (152 to 160 bytes) still loads without
   * error: every later integer slot reads as 0, so the output mode becomes 0
   * and both travel limits are switched off.
   */
  lemma TruncatedRecordLoads(f: seq<Byte>, s: Settings, unpack: Block8 -> real)
    requires 8 * 19 <= |f| <= 8 * 20
    ensures var r := LoadFrom(Some(f), s, unpack);
            && r.ok && r.cfg.outputMode == 0 && r.cfg.retrachChn == Some(0)
            && r.cfg.maxTravelFast == 0 && r.cfg.maxTravelSlow == 0
            && r.cfg.fastLimitState == 0 && r.cfg.slowLimitState == 0
  {
    ReadPastEndIsZero(f, 20);
    ReadPastEndIsZero(f, 23);
    ReadPastEndIsZero(f, 24);
    ReadPastEndIsZero(f, 27);
    ReadPastEndIsZero(f, 32);
    ReadPastEndIsZero(f, 33);
  }

  /** The file a save produces. */
  function SaveBytes(s: Settings, pack: real -> Block8): (b: seq<Byte>)
    ensures SettingsFit(s) ==> |b| == RecordBytes
  {
    EncodeOkIffAllFit(Record(s), pack);
    Encode(Record(s), pack).bytes
  }

  lemma IntSlot(s: Settings, pack: real -> Block8, i: nat)
    requires SettingsFit(s)
    requires i < FieldCount && Record(s)[i].IntValue?
    ensures IntAt(SaveBytes(s, pack), i) == Record(s)[i].n
  {
    EncodeOkIffAllFit(Record(s), pack);
    EncodeLayout(Record(s), pack, i);
  }

  lemma FloatSlot(s: Settings, pack: real -> Block8, i: nat)
    requires SettingsFit(s)
    requires i < FieldCount && Record(s)[i].FloatValue?
    ensures HasBlock(SaveBytes(s, pack), i)
    ensures BlockAt(SaveBytes(s, pack), i) == pack(Record(s)[i].x)
  {
    EncodeOkIffAllFit(Record(s), pack);
    EncodeLayout(Record(s), pack, i);
  }

  /** Slots 0-7 of a saved record decode to the fields written there. */
  lemma SavedInts0To7(s: Settings, pack: real -> Block8)
    requires SettingsFit(s)
    ensures IntAt(SaveBytes(s, pack), 0) == s.adUpdateTimeMs
    ensures IntAt(SaveBytes(s, pack), 1) == s.graphUpdateTimeMs
    ensures IntAt(SaveBytes(s, pack), 2) == s.currGraphCount
    ensures IntAt(SaveBytes(s, pack), 3) == s.fastMoveFreq
    ensures IntAt(SaveBytes(s, pack), 4) == s.slowMoveFreq
    ensures IntAt(SaveBytes(s, pack), 5) == s.autoApproachFreq
    ensures IntAt(SaveBytes(s, pack), 6) == s.acceleration
    ensures IntAt(SaveBytes(s, pack), 7) == s.dSpeed
  {
    IntSlot(s, pack, 0);
    IntSlot(s, pack, 1);
    IntSlot(s, pack, 2);
    IntSlot(s, pack, 3);
    IntSlot(s, pack, 4);
    IntSlot(s, pack, 5);
    IntSlot(s, pack, 6);
    IntSlot(s, pack, 7);
  }

  /** Slots 8-15 of a saved record decode to the fields written there. */
  lemma SavedInts8To15(s: Settings, pack: real -> Block8)
    requires SettingsFit(s)
    ensures IntAt(SaveBytes(s, pack), 8) == s.powerCycle
    ensures IntAt(SaveBytes(s, pack), 9) == s.accelFreq
    ensures IntAt(SaveBytes(s, pack), 10) == s.approachChn
    ensures IntAt(SaveBytes(s, pack), 11) == s.retractChn
    ensures IntAt(SaveBytes(s, pack), 12) == s.sumChn
    ensures IntAt(SaveBytes(s, pack), 13) == s.defChn
    ensures IntAt(SaveBytes(s, pack), 14) == s.ampChn
    ensures IntAt(SaveBytes(s, pack), 15) == s.zpiChn
  {
    IntSlot(s, pack, 8);
    IntSlot(s, pack, 9);
    IntSlot(s, pack, 10);
    IntSlot(s, pack, 11);
    IntSlot(s, pack, 12);
    IntSlot(s, pack, 13);
    IntSlot(s, pack, 14);
    IntSlot(s, pack, 15);
  }

  /** Slots 20-26 of a saved record decode to the fields written there. */
  lemma SavedInts20To26(s: Settings, pack: real -> Block8)
    requires SettingsFit(s)
    ensures IntAt(SaveBytes(s, pack), 20) == s.outputMode
    ensures IntAt(SaveBytes(s, pack), 21) == s.adUpdateTimeMs
    ensures IntAt(SaveBytes(s, pack), 22) == s.graphUpdateTimeMs
    ensures IntAt(SaveBytes(s, pack), 23) == s.maxTravelFast
    ensures IntAt(SaveBytes(s, pack), 24) == s.maxTravelSlow
    ensures IntAt(SaveBytes(s, pack), 25) == s.directionChn
    ensures IntAt(SaveBytes(s, pack), 26) == s.approachChn
  {
    IntSlot(s, pack, 20);
    IntSlot(s, pack, 21);
    IntSlot(s, pack, 22);
    IntSlot(s, pack, 23);
    IntSlot(s, pack, 24);
    IntSlot(s, pack, 25);
    IntSlot(s, pack, 26);
  }

  /** Slots 27-33 of a saved record decode to the fields written there. */
  lemma SavedInts27To33(s: Settings, pack: real -> Block8)
    requires SettingsFit(s)
    ensures IntAt(SaveBytes(s, pack), 27) == s.retractChn
    ensures IntAt(SaveBytes(s, pack), 28) == s.sumChn
    ensures IntAt(SaveBytes(s, pack), 29) == s.defChn
    ensures IntAt(SaveBytes(s, pack), 30) == s.ampChn
    ensures IntAt(SaveBytes(s, pack), 31) == s.zpiChn
    ensures IntAt(SaveBytes(s, pack), 32) == s.fastLimitState
    ensures IntAt(SaveBytes(s, pack), 33) == s.slowLimitState
  {
    IntSlot(s, pack, 27);
    IntSlot(s, pack, 28);
    IntSlot(s, pack, 29);
    IntSlot(s, pack, 30);
    IntSlot(s, pack, 31);
    IntSlot(s, pack, 32);
    IntSlot(s, pack, 33);
  }

  /** The three float slots of a saved record are complete blocks holding the packed floats. */
  lemma SavedFloats(s: Settings, pack: real -> Block8)
    requires SettingsFit(s)
    ensures HasBlock(SaveBytes(s, pack), 18)
    ensures BlockAt(SaveBytes(s, pack), 16) == pack(s.defLimit)
    ensures BlockAt(SaveBytes(s, pack), 17) == pack(s.zpiLimit)
    ensures BlockAt(SaveBytes(s, pack), 18) == pack(s.ampRatio)
  {
    FloatSlot(s, pack, 16);
    FloatSlot(s, pack, 17);
    FloatSlot(s, pack, 18);
  }

  /**
   * Loading a record that was saved from `s` restores every saved field,
   * except motorUpdateTimeMs (read into a local) and the float fields, which
   * come back as unpack(pack(x)); the second retract-channel copy lands in
   * retrachChn.
   */
  lemma LoadAfterSave(s: Settings, prev: Settings, pack: real -> Block8, unpack: Block8 -> real)
    requires SettingsFit(s)
    ensures LoadFrom(Some(SaveBytes(s, pack)), prev, unpack)
            == Loaded(s.(motorUpdateTimeMs := prev.motorUpdateTimeMs,
                         defLimit := unpack(pack(s.defLimit)),
                         zpiLimit := unpack(pack(s.zpiLimit)),
                         ampRatio := unpack(pack(s.ampRatio)),
                         retrachChn := Some(s.retractChn)), true)
  {
    SavedFloats(s, pack);
    SavedInts0To7(s, pack);
    SavedInts8To15(s, pack);
    SavedInts20To26(s, pack);
    SavedInts27To33(s, pack);
  }

  /**
   * When the three stored floats unpack back to themselves, a save followed by
   * a load is the identity (but for the two quirks).
   */
  lemma LoadAfterSaveExact(s: Settings, prev: Settings, pack: real -> Block8, unpack: Block8 -> real)
    requires SettingsFit(s)
    requires unpack(pack(s.defLimit)) == s.defLimit && unpack(pack(s.zpiLimit)) == s.zpiLimit
    requires unpack(pack(s.ampRatio)) == s.ampRatio
    ensures LoadFrom(Some(SaveBytes(s, pack)), prev, unpack)
            == Loaded(s.(motorUpdateTimeMs := prev.motorUpdateTimeMs, retrachChn := Some(s.retractChn)), true)
  {
    LoadAfterSave(s, prev, pack, unpack);
  }
}
