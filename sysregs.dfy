/** The sixteen special registers as values: what reading and writing them
    does, what the two timers do to them on every clock, and the transmit
    buffer the serial registers SR5 and SR6 fill.

    SR0 is the event summary: bit 0 for the timer flags of SR12, bit 1 for the
    stopwatch flags of SR9, bit 2 for a key press (SR7), bit 3 for the serial
    port (SR1). Acknowledging the event register clears its summary bit. */
module SysRegs {
  import opened Bits

  const SR_COUNT := 16

  /** The stopwatch's state machine (`SM_DISABLE` .. `SM_RUN`). */
  datatype Stopwatch = Disabled | Enabled | Stopped | Running

  /** The calls the core makes on the beeper. */
  datatype BeeperCommand = Beep | StartTremolo | StopTremolo

  /** The beeper calls a write of `value` to SR15 makes, in the order made:
      bit 0 beeps, bit 2 starts the tremolo, bit 1 stops it. */
  function BeeperCommands(value: Nibble): (r: seq<BeeperCommand>)
    ensures Beep in r <==> BitOf(value, 0) == 1
    ensures StartTremolo in r <==> BitOf(value, 2) == 1
    ensures StopTremolo in r <==> BitOf(value, 1) == 1
    ensures StopTremolo in r ==> r[|r| - 1] == StopTremolo
    ensures Beep in r ==> r[0] == Beep
  {
    Mark(BitOf(value, 0) == 1, Beep) + Mark(BitOf(value, 2) == 1, StartTremolo) + Mark(BitOf(value, 1) == 1, StopTremolo)
  }

  /** `[c]` when `on`, nothing otherwise. */
  function Mark(on: bool, c: BeeperCommand): (r: seq<BeeperCommand>)
    ensures forall x :: x in r <==> on && x == c
    ensures |r| <= 1 && (on ==> r == [c])
  {
    if on then [c] else []
  }

  /** A mask applied to SR0 can only clear its bits. */
  function Mask0(s0: Nibble, keep: Nibble): (r: Nibble)
    ensures forall j :: 0 <= j < 4 ==> (BitOf(r, j) == 1 <==> BitOf(s0, j) == 1 && BitOf(keep, j) == 1)
  {
    And4(s0, keep)
  }

  /** SR0 masked with `keep` when the event register `index` has no flag left. */
  function Summarize(sr: seq<Nibble>, index: nat, keep: Nibble): (r: seq<Nibble>)
    requires |sr| == SR_COUNT && 0 < index < SR_COUNT
    ensures |r| == SR_COUNT && r[1..] == sr[1..]
    ensures r[0] == if sr[index] == 0 then Mask0(sr[0], keep) else sr[0]
  {
    if sr[index] == 0 then sr[0 := Mask0(sr[0], keep)] else sr
  }

  /** The acknowledge registers SR1 and SR7: the event register is cleared
      and SR0 is masked with `keep`. */
  function Acknowledge(sr: seq<Nibble>, index: nat, keep: Nibble): (r: seq<Nibble>)
    requires |sr| == SR_COUNT && 0 < index < SR_COUNT
    ensures |r| == SR_COUNT && r[index] == 0 && r[0] == Mask0(sr[0], keep)
    ensures forall i :: 0 < i < SR_COUNT && i != index ==> r[i] == sr[i]
  {
    var t := sr[index := 0];
    assert t[1..][index - 1] == t[index];
    Summarize(t, index, keep)
  }

  /** The write-to-clear registers SR9 and SR12: the bits written are cleared,
      and SR0 is masked with `keep` once none is left. */
  function ClearFlags(sr: seq<Nibble>, index: nat, bits: Nibble, keep: Nibble): (r: seq<Nibble>)
    requires |sr| == SR_COUNT && 0 < index < SR_COUNT
    ensures |r| == SR_COUNT
    ensures forall i :: 0 < i < SR_COUNT && i != index ==> r[i] == sr[i]
    ensures forall j :: 0 <= j < 4 ==> (BitOf(r[index], j) == 1 <==> BitOf(sr[index], j) == 1 && BitOf(bits, j) == 0)
    ensures r[0] == if r[index] == 0 then Mask0(sr[0], keep) else sr[0]
  {
    var t := sr[index := Clear4(sr[index], bits)];
    assert t[1..][index - 1] == t[index];
    Summarize(t, index, keep)
  }

  /** Writing back every flag read from a write-to-clear register clears it,
      and with it its summary bit in SR0. */
  lemma ClearFlagsAll(sr: seq<Nibble>, index: nat, keep: Nibble)
    requires |sr| == SR_COUNT && 0 < index < SR_COUNT
    ensures ClearFlags(sr, index, sr[index], keep)[index] == 0
    ensures ClearFlags(sr, index, sr[index], keep)[0] == Mask0(sr[0], keep)
  {
    ClearAll(sr[index]);
  }

  /** The side effect of reading a special register: SR3 and SR4 (the
      stopwatch and timer overflow counters) read as clear-on-read, and a
      read of SR15 clears its bit 0. */
  function AfterRead(sr: seq<Nibble>, index: nat): (r: seq<Nibble>)
    requires |sr| == SR_COUNT && index < SR_COUNT
    ensures |r| == SR_COUNT
    ensures index == 3 || index == 4 ==> r[index] == 0
    ensures index == 15 ==> BitOf(r[15], 0) == 0 && forall j :: 1 <= j < 4 ==> BitOf(r[15], j) == BitOf(sr[15], j)
    ensures forall i :: 0 <= i < SR_COUNT && i != index ==> r[i] == sr[i]
    ensures index != 3 && index != 4 && index != 15 ==> r == sr
  {
    if index == 3 || index == 4 then sr[index := 0]
    else if index == 15 then sr[15 := Clear4(sr[15], 1)]
    else sr
  }

  /** Reading a clear-on-read register twice: the second read sees 0. */
  lemma ReadTwice(sr: seq<Nibble>, index: nat)
    requires |sr| == SR_COUNT && (index == 3 || index == 4)
    ensures AfterRead(sr, index)[index] == 0 && AfterRead(AfterRead(sr, index), index) == AfterRead(sr, index)
  {
  }

  /** `x | bit` when `on`. */
  function Raise(x: Nibble, on: bool, bit: nat): (r: Nibble)
    requires bit < 4
    ensures BitOf(r, bit) == 1 <==> BitOf(x, bit) == 1 || on
    ensures forall j :: 0 <= j < 4 && j != bit ==> BitOf(r, j) == BitOf(x, j)
  {
    if on then Or4(x, Mask(bit)) else x
  }

  /** The effect on the special registers of one tick of the prescaler, once
      its count has reached `n`. It touches only SR0, SR4, SR12 and SR14;
      `Timer0Raises`, `Timer0Counts` and `Timer0Summary` say how. */
  function Timer0(n: nat, sr: seq<Nibble>): (r: seq<Nibble>)
    requires |sr| == SR_COUNT
    ensures |r| == SR_COUNT
    ensures forall i :: 0 < i < SR_COUNT && i != 4 && i != 12 && i != 14 ==> r[i] == sr[i]
  {
    var tick := n % 256 == 0;
    var wrap := tick && sr[14] == 15;
    var d := Timer0Flags(n, sr[12], sr[13], sr[14]);
    var s4 := if wrap && BitOf(sr[13], 0) == 0 then (sr[4] as int + 1) % 4 else sr[4];
    var s14 := if wrap then 0 else if tick then sr[14] + 1 else sr[14];
    sr[0 := Raise(sr[0], d != 0, 0)][4 := s4][12 := d][14 := s14]
  }

  /** The timer flags: every 128 ticks SR12 bit 3, every 256 bit 2, every 1024
      bit 1, and bit 0 when SR14 wraps; each unless SR13 masks it. No flag is
      ever cleared by a tick. */
  lemma Timer0Raises(n: nat, sr: seq<Nibble>)
    requires |sr| == SR_COUNT
    ensures var r := Timer0(n, sr);
      (BitOf(r[12], 3) == 1 <==> BitOf(sr[12], 3) == 1 || (n % 128 == 0 && BitOf(sr[13], 3) == 0)) &&
      (BitOf(r[12], 2) == 1 <==> BitOf(sr[12], 2) == 1 || (n % 256 == 0 && BitOf(sr[13], 2) == 0)) &&
      (BitOf(r[12], 1) == 1 <==> BitOf(sr[12], 1) == 1 || (n % 1024 == 0 && BitOf(sr[13], 1) == 0)) &&
      (BitOf(r[12], 0) == 1 <==> BitOf(sr[12], 0) == 1 || (n % 256 == 0 && sr[14] == 15 && BitOf(sr[13], 0) == 0))
  {
    assert Timer0(n, sr)[12] == Timer0Flags(n, sr[12], sr[13], sr[14]);
  }

  /** The counters: every 256 ticks SR14 counts on modulo 16, and when it wraps
      SR4 counts on modulo 4 unless SR13 bit 0 masks it. */
  lemma Timer0Counts(n: nat, sr: seq<Nibble>)
    requires |sr| == SR_COUNT
    ensures Timer0(n, sr)[14] == if n % 256 == 0 then (sr[14] as int + 1) % 16 else sr[14]
    ensures Timer0(n, sr)[4] == if n % 256 == 0 && sr[14] == 15 && BitOf(sr[13], 0) == 0 then (sr[4] as int + 1) % 4 else sr[4]
  {
    var r := Timer0(n, sr);
    if n % 256 == 0 {
      if sr[14] == 15 {
        assert r[14] == 0;
      } else {
        assert r[14] == sr[14] + 1;
      }
    } else {
      assert r[14] == sr[14];
    }
  }

  /** Any flag standing in SR12 after the tick raises SR0 bit 0; the other
      summary bits are left alone. */
  lemma Timer0Summary(n: nat, sr: seq<Nibble>)
    requires |sr| == SR_COUNT
    ensures BitOf(Timer0(n, sr)[0], 0) == 1 <==> BitOf(sr[0], 0) == 1 || Timer0(n, sr)[12] != 0
    ensures forall j :: 1 <= j < 4 ==> BitOf(Timer0(n, sr)[0], j) == BitOf(sr[0], j)
  {
    assert Timer0(n, sr)[12] == Timer0Flags(n, sr[12], sr[13], sr[14]);
  }

  /** SR12 after one prescaler tick: the flags falling due at count `n` and
      not masked in SR13 are raised, in the order the prescaler checks them. */
  function Timer0Flags(n: nat, s12: Nibble, s13: Nibble, s14: Nibble): (r: Nibble)
    ensures BitOf(r, 3) == 1 <==> BitOf(s12, 3) == 1 || (n % 128 == 0 && BitOf(s13, 3) == 0)
    ensures BitOf(r, 2) == 1 <==> BitOf(s12, 2) == 1 || (n % 256 == 0 && BitOf(s13, 2) == 0)
    ensures BitOf(r, 1) == 1 <==> BitOf(s12, 1) == 1 || (n % 1024 == 0 && BitOf(s13, 1) == 0)
    ensures BitOf(r, 0) == 1 <==> BitOf(s12, 0) == 1 || (n % 256 == 0 && s14 == 15 && BitOf(s13, 0) == 0)
  {
    var a := Raise(s12, n % 128 == 0 && BitOf(s13, 3) == 0, 3);
    var b := Raise(a, n % 256 == 0 && BitOf(s13, 2) == 0, 2);
    var c := Raise(b, n % 256 == 0 && s14 == 15 && BitOf(s13, 0) == 0, 0);
    Raise(c, n % 1024 == 0 && BitOf(s13, 1) == 0, 1)
  }

  /** Every 1024 ticks all three periodic flags fall due together. */
  lemma Timer0Nested(n: nat, sr: seq<Nibble>)
    requires |sr| == SR_COUNT && n % 1024 == 0 && sr[13] == 0
    ensures BitOf(Timer0(n, sr)[12], 3) == 1 && BitOf(Timer0(n, sr)[12], 2) == 1 && BitOf(Timer0(n, sr)[12], 1) == 1
    ensures BitOf(Timer0(n, sr)[0], 0) == 1
  {
    DividesMultiple(n);
    Timer0Raises(n, sr);
    Timer0Summary(n, sr);
    assert BitOf(Timer0(n, sr)[12], 3) == 1;
  }

  lemma DividesMultiple(n: nat)
    requires n % 1024 == 0
    ensures n % 128 == 0 && n % 256 == 0
  {
    var q := n / 1024;
    assert n == 128 * (8 * q);
    assert n == 256 * (4 * q);
  }

  /** With every flag masked in SR13, the prescaler raises nothing. */
  lemma Timer0Masked(n: nat, sr: seq<Nibble>)
    requires |sr| == SR_COUNT && sr[13] == 15 && sr[12] == 0
    ensures Timer0(n, sr)[12] == 0 && Timer0(n, sr)[4] == sr[4]
  {
    var r := Timer0(n, sr);
    Timer0Raises(n, sr);
    Timer0Counts(n, sr);
    forall j | 0 <= j < 4 ensures BitOf(r[12], j) == BitOf(0, j) {
    }
    BitsDetermine(r[12], 0);
  }

  /** One hundredth of the running stopwatch: SR10 counts on, and when it
      passes 9 it restarts at 0, raises SR9 bit 2 and SR3 counts on modulo 4. */
  function StopwatchTick(sr: seq<Nibble>): (r: seq<Nibble>)
    requires |sr| == SR_COUNT
    ensures |r| == SR_COUNT
    ensures r[10] == if sr[10] >= 9 then 0 else sr[10] + 1
    ensures sr[10] >= 9 ==> r[3] == (sr[3] as int + 1) % 4 && BitOf(r[9], 2) == 1
    ensures sr[10] >= 9 ==> forall j :: 0 <= j < 4 && j != 2 ==> BitOf(r[9], j) == BitOf(sr[9], j)
    ensures sr[10] < 9 ==> r[3] == sr[3] && r[9] == sr[9]
    ensures forall i :: 0 <= i < SR_COUNT && i != 3 && i != 9 && i != 10 ==> r[i] == sr[i]
  {
    var s10: int := sr[10] as int + 1;
    if s10 > 9 then sr[10 := 0][9 := Raise(sr[9], true, 2)][3 := (sr[3] as int + 1) % 4]
    else sr[10 := s10]
  }

  /** From a cleared counter, ten hundredths bring SR10 back to 0 and report
      the carry in SR9 bit 2. */
  lemma {:induction false} StopwatchTenths(sr: seq<Nibble>)
    requires |sr| == SR_COUNT && sr[10] == 0
    ensures StopwatchTicks(sr, 10)[10] == 0
    ensures BitOf(StopwatchTicks(sr, 10)[9], 2) == 1
    ensures forall k :: 1 <= k < 10 ==> StopwatchTicks(sr, k)[10] == k
  {
    StopwatchCounts(sr, 9);
  }

  /** Below the wrap, `k` hundredths from a cleared counter leave `k` in SR10. */
  lemma {:induction false} StopwatchCounts(sr: seq<Nibble>, k: nat)
    requires |sr| == SR_COUNT && sr[10] == 0 && k <= 9
    ensures forall i :: 0 <= i <= k ==> StopwatchTicks(sr, i)[10] == i
  {
    if k > 0 {
      StopwatchCounts(sr, k - 1);
    }
  }

  /** `k` hundredths of the running stopwatch in a row. */
  function StopwatchTicks(sr: seq<Nibble>, k: nat): (r: seq<Nibble>)
    requires |sr| == SR_COUNT
    ensures |r| == SR_COUNT
  {
    if k == 0 then sr else StopwatchTick(StopwatchTicks(sr, k - 1))
  }

  /** A byte on the serial port shows in SR5 (high nibble) and SR6 (low
      nibble). */
  function Echo(sr: seq<Nibble>, b: Byte): (r: seq<Nibble>)
    requires |sr| == SR_COUNT
    ensures |r| == SR_COUNT
  {
    sr[5 := b / 16][6 := b % 16]
  }

  /** Writing the echoed nibbles back to SR5 and SR6 rebuilds the byte, and
      nothing but SR5 and SR6 changes. */
  lemma EchoRebuilds(sr: seq<Nibble>, b: Byte, buf: Byte)
    requires |sr| == SR_COUNT
    ensures WithLow(WithHigh(buf, Echo(sr, b)[5]), Echo(sr, b)[6]) == b
    ensures forall i :: 0 <= i < SR_COUNT && i != 5 && i != 6 ==> Echo(sr, b)[i] == sr[i]
  {
    SplitThenJoin(buf, b);
  }

  /** A serial event: when `on`, SR1 bit `bit` and the serial summary bit 3 of
      SR0 are raised. */
  function Signal(sr: seq<Nibble>, on: bool, bit: nat): (r: seq<Nibble>)
    requires |sr| == SR_COUNT && bit < 4
    ensures |r| == SR_COUNT
  {
    sr[1 := Raise(sr[1], on, bit)][0 := Raise(sr[0], on, 3)]
  }

  lemma SignalRaises(sr: seq<Nibble>, on: bool, bit: nat)
    requires |sr| == SR_COUNT && bit < 4
    ensures BitOf(Signal(sr, on, bit)[1], bit) == 1 <==> BitOf(sr[1], bit) == 1 || on
    ensures BitOf(Signal(sr, on, bit)[0], 3) == 1 <==> BitOf(sr[0], 3) == 1 || on
    ensures !on ==> Signal(sr, on, bit) == sr
    ensures forall i :: 2 <= i < SR_COUNT ==> Signal(sr, on, bit)[i] == sr[i]
  {
  }

  /** The special registers after one byte has gone out on the serial port:
      when the transmission is `done`, SR1 bit 3 (DMA mode) or bit 2 (register
      mode) and SR0 bit 3 are raised; with receive enabled (`echo`) the byte
      also shows in SR5 and SR6. */
  function Sent(sr: seq<Nibble>, done: bool, dma: bool, echo: bool, b: Byte): (r: seq<Nibble>)
    requires |sr| == SR_COUNT
    ensures |r| == SR_COUNT
  {
    Signal(sr, done, if dma then 3 else 2)[5 := if echo then b / 16 else sr[5]][6 := if echo then b % 16 else sr[6]]
  }

  lemma SentFlags(sr: seq<Nibble>, done: bool, dma: bool, echo: bool, b: Byte)
    requires |sr| == SR_COUNT
    ensures var r := Sent(sr, done, dma, echo, b);
      (BitOf(r[1], if dma then 3 else 2) == 1 <==> BitOf(sr[1], if dma then 3 else 2) == 1 || done) &&
      (BitOf(r[0], 3) == 1 <==> BitOf(sr[0], 3) == 1 || done) &&
      (echo ==> r[5] == b / 16 && r[6] == b % 16) &&
      (!echo && !done ==> r == sr)
  {
    SignalRaises(sr, done, if dma then 3 else 2);
  }

  /** SR5's write: `(buf & 0x0F) | (v << 4)`, the high nibble of the transmit buffer. */
  function WithHigh(buf: Byte, v: Nibble): (r: Byte)
    ensures r / 16 == v && r % 16 == buf % 16
  {
    v * 16 + buf % 16
  }

  /** SR6's write: `(buf & 0xF0) | v`, the low nibble of the transmit buffer. */
  function WithLow(buf: Byte, v: Nibble): (r: Byte)
    ensures r / 16 == buf / 16 && r % 16 == v
  {
    (buf / 16) * 16 + v
  }

  /** Writing back the two nibbles a received byte was split into (SR5 the
      high, SR6 the low) rebuilds that byte, whatever the buffer held. */
  lemma SplitThenJoin(buf: Byte, data: Byte)
    ensures WithLow(WithHigh(buf, data / 16), data % 16) == data
    ensures WithHigh(WithLow(buf, data % 16), data / 16) == data
  {
  }

  /** The stopwatch mode after key `key` while the stopwatch is enabled: key 1
      starts a stopwatch that is not running and stops a running one; the
      other keys leave the mode alone. */
  function StopwatchNext(mode: Stopwatch, key: nat): (r: Stopwatch)
    ensures key != 1 ==> r == mode
    ensures key == 1 ==> (r == Running <==> mode != Running) && (r == Stopped <==> mode == Running)
  {
    if key == 1 then (if mode == Running then Stopped else Running) else mode
  }

  /** The special registers after key `key` goes down: SR7 (pressed since
      acknowledged) and SR8 (held now) set bit `key`, and SR0 raises the key
      summary bit 2; nothing else changes. */
  function Pressed(sr: seq<Nibble>, key: nat): (r: seq<Nibble>)
    requires |sr| == SR_COUNT && key < 4
    ensures |r| == SR_COUNT
    ensures BitOf(r[7], key) == 1 && BitOf(r[8], key) == 1 && BitOf(r[0], 2) == 1
    ensures forall j :: 0 <= j < 4 && j != key ==> BitOf(r[7], j) == BitOf(sr[7], j) && BitOf(r[8], j) == BitOf(sr[8], j)
    ensures forall j :: 0 <= j < 4 && j != 2 ==> BitOf(r[0], j) == BitOf(sr[0], j)
    ensures forall i :: 0 <= i < SR_COUNT && i != 0 && i != 7 && i != 8 ==> r[i] == sr[i]
  {
    SetOneBit(sr[7], key);
    SetOneBit(sr[8], key);
    SetOneBit(sr[0], 2);
    sr[7 := Or4(sr[7], Mask(key))][8 := Or4(sr[8], Mask(key))][0 := Or4(sr[0], Mask(2))]
  }

  /** The special registers after key `key` on an enabled stopwatch in mode
      `mode`: key 0 takes a split while running (SR9 bit 1, SR11 takes SR10) or
      clears a stopped count (SR9 bit 0, SR10 back to 0); key 1 sets the run bit
      (SR9 bit 3) exactly when the stopwatch is running afterwards. Only SR9,
      SR10 and SR11 are touched. */
  function StopwatchKeyed(sr: seq<Nibble>, mode: Stopwatch, key: nat): (r: seq<Nibble>)
    requires |sr| == SR_COUNT
    ensures |r| == SR_COUNT
    ensures forall i :: 0 <= i < SR_COUNT && i != 9 && i != 10 && i != 11 ==> r[i] == sr[i]
    ensures key == 0 && mode == Running ==>
      BitOf(r[9], 1) == 1 && (forall j :: 0 <= j < 4 && j != 1 ==> BitOf(r[9], j) == BitOf(sr[9], j)) &&
      r[10] == sr[10] && r[11] == sr[10]
    ensures key == 0 && mode == Stopped ==>
      BitOf(r[9], 0) == 1 && (forall j :: 1 <= j < 4 ==> BitOf(r[9], j) == BitOf(sr[9], j)) &&
      r[10] == 0 && r[11] == sr[11]
    ensures key == 1 ==>
      (BitOf(r[9], 3) == 1 <==> StopwatchNext(mode, key) == Running) &&
      (forall j :: 0 <= j < 3 ==> BitOf(r[9], j) == BitOf(sr[9], j)) && r[10] == sr[10] && r[11] == sr[11]
    ensures key > 1 || (key == 0 && mode != Running && mode != Stopped) ==> r == sr
  {
    if key == 0 && mode == Running then
      SetOneBit(sr[9], 1);
      sr[9 := Or4(sr[9], Mask(1))][11 := sr[10]]
    else if key == 0 && mode == Stopped then
      SetOneBit(sr[9], 0);
      sr[9 := Or4(sr[9], Mask(0))][10 := 0]
    else if key == 1 && mode == Running then sr[9 := Clear4(sr[9], Mask(3))]
    else if key == 1 then
      SetOneBit(sr[9], 3);
      sr[9 := Or4(sr[9], Mask(3))]
    else sr
  }

  /** Key 1 toggles between running and stopped. */
  lemma StopwatchToggles(mode: Stopwatch)
    requires mode == Running || mode == Stopped
    ensures StopwatchNext(StopwatchNext(mode, 1), 1) == mode
  {
  }

  /** The mode after a write to SR10: bit 0 clear disables the stopwatch; bit 0
      set enables a disabled one and leaves any other mode alone. */
  function StopwatchControl(mode: Stopwatch, value: Nibble): (r: Stopwatch)
    ensures r == Disabled <==> BitOf(value, 0) == 0
    ensures BitOf(value, 0) == 1 && mode != Disabled ==> r == mode
  {
    if BitOf(value, 0) == 1 then (if mode == Disabled then Enabled else mode) else Disabled
  }

  /** SR9 after a write to SR10: bit 3 of the value sets the run bit (SR9 bit 3),
      bit 2 clears it, and clearing wins when both are set. */
  function RunBit(s9: Nibble, value: Nibble): (r: Nibble)
    ensures BitOf(r, 3) == if BitOf(value, 2) == 1 then 0 else if BitOf(value, 3) == 1 then 1 else BitOf(s9, 3)
    ensures forall j :: 0 <= j < 3 ==> BitOf(r, j) == BitOf(s9, j)
  {
    var t := if BitOf(value, 3) == 1 then Or4(s9, Mask(3)) else s9;
    if BitOf(value, 2) == 1 then Clear4(t, Mask(3)) else t
  }
}
