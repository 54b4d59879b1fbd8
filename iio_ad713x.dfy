/**
 * The IIO adapter for the AD713x ADC family: an instance record copied from its init
 * parameters, an IIO device descriptor, the XML description of the device, and the `read_dev`
 * callback, which in this version is a stub that fills the caller's buffer with iteration
 * indices for every selected channel.
 */
module IioAd713x {
  import opened Common

  type U16 = x: int | 0 <= x < 0x1_0000

  /** `struct iio_713x_init_par`. Pointers the adapter only copies are kept as `Ptr`. */
  datatype Iio713xInitPar = Iio713xInitPar(
    numChannels: nat,
    spiEngMsgCmds: Ptr,
    msgCmdLen: nat,
    txBufAddr: nat,
    rxBufAddr: nat,
    dcacheInvalidateRange: Ptr)

  /** `struct iio_713x`: the adapter instance. */
  class Iio713x {
    var numChannels: nat
    var spiEngMsgCmds: Ptr
    var msgCmdLen: nat
    var txBufAddr: nat
    var rxBufAddr: nat
    var dcacheInvalidateRange: Ptr

    /** `calloc`: every field zero. */
    constructor ()
      ensures numChannels == 0 && spiEngMsgCmds == Null && msgCmdLen == 0
      ensures txBufAddr == 0 && rxBufAddr == 0 && dcacheInvalidateRange == Null
    {
      numChannels, spiEngMsgCmds, msgCmdLen := 0, Null, 0;
      txBufAddr, rxBufAddr, dcacheInvalidateRange := 0, 0, Null;
    }

    /** The instance's six fields, as an init-parameter record. */
    function Params(): Iio713xInitPar
      reads this
    {
      Iio713xInitPar(numChannels, spiEngMsgCmds, msgCmdLen, txBufAddr, rxBufAddr, dcacheInvalidateRange)
    }
  }

  /** `struct iio_device`: its name, channel count and (here always null) attribute and channel tables. */
  class IioDevice {
    var name: string
    var numCh: U16
    var attributes: Ptr
    var channels: Ptr

    /** `calloc`: every field zero. */
    constructor ()
      ensures name == [] && numCh == 0 && attributes == Null && channels == Null
    {
      name, numCh, attributes, channels := [], 0, Null, Null;
    }
  }

  /**
   * `iio_ad713x_init`: a fresh instance with the six fields of `init`, or FAILURE and no
   * instance when the allocation (`allocOk`) fails.
   */
  method Init(init: Iio713xInitPar, allocOk: bool) returns (status: int, inst: Iio713x?)
    ensures allocOk ==> status == SUCCESS && inst != null && fresh(inst) && inst.Params() == init
    ensures !allocOk ==> status == FAILURE && inst == null
  {
    if !allocOk {
      return FAILURE, null;
    }
    inst := new Iio713x();
    inst.numChannels := init.numChannels;
    inst.spiEngMsgCmds := init.spiEngMsgCmds;
    inst.msgCmdLen := init.msgCmdLen;
    inst.txBufAddr := init.txBufAddr;
    inst.rxBufAddr := init.rxBufAddr;
    inst.dcacheInvalidateRange := init.dcacheInvalidateRange;
    status := SUCCESS;
  }

  /** `iio_ad713x_remove`: releases the instance and always succeeds. */
  method Remove(inst: Iio713x?) returns (status: int)
    ensures status == SUCCESS
  {
    status := SUCCESS;
  }

  /**
   * `iio_ad713x_create_device`: a fresh descriptor with the given name and channel count and
   * no attribute or channel table, or null when the allocation fails.
   */
  method CreateDevice(deviceName: string, numCh: U16, allocOk: bool) returns (dev: IioDevice?)
    ensures allocOk ==> dev != null && fresh(dev) && dev.name == deviceName && dev.numCh == numCh &&
                        dev.attributes == Null && dev.channels == Null
    ensures !allocOk ==> dev == null
  {
    if !allocOk {
      return null;
    }
    dev := new IioDevice();
    dev.name := deviceName;
    dev.numCh := numCh;
    dev.attributes := Null;
    dev.channels := Null;
  }

  /** `iio_ad713x_delete_device`: releases a descriptor, skipping a null one; always succeeds. */
  method DeleteDevice(dev: IioDevice?) returns (status: int)
    ensures status == SUCCESS
  {
    if dev != null {
      // free(iio_device): the model has no explicit deallocation.
    }
    status := SUCCESS;
  }

  // ---------------------------------------------------------------------------------------------
  // The XML description
  // ---------------------------------------------------------------------------------------------

  function Digit(d: nat): string
    requires d < 10
  {
    ["0123456789"[d]]
  }

  function Attr(name: string, file: string): string
  {
    "<attribute name=\"" + name + "\" filename=\"" + file + "\" />"
  }

  /** Channel `k` of the description; channels 4 to 7 name the attribute files of channels 0 to 3. */
  function ChannelXml(k: nat): string
    requires k < 8
  {
    "<channel id=\"voltage" + Digit(k) + "\" type=\"input\" >"
    + "<scan-element index=\"" + Digit(k) + "\" format=\"le:S12/16&gt;&gt;0\" />"
    + Attr("calibphase", "in_voltage" + Digit(k % 4) + "_calibphase")
    + Attr("calibbias", "in_voltage" + Digit(k % 4) + "_calibbias")
    + Attr("calibscale", "in_voltage" + Digit(k % 4) + "_calibscale")
    + Attr("samples_pps", "in_voltage_samples_pps")
    + Attr("sampling_frequency", "in_voltage_sampling_frequency")
    + "</channel>"
  }

  function ChannelsXml(n: nat): string
    requires n <= 8
  {
    if n == 0 then "" else ChannelsXml(n - 1) + ChannelXml(n - 1)
  }

  /** `ad713x_xml`: the static description of the device. */
  function Ad713xXml(): string
  {
    "<device id=\"generic\" name=\"generic\" >"
    + ChannelsXml(8)
    + "<buffer-attribute name=\"watermark\" />"
    + "<buffer-attribute name=\"data_available\" />"
    + "<debug-attribute name=\"pseudorandom_err_check\" />"
    + "<debug-attribute name=\"direct_reg_access\" />"
    + "</device>"
  }

  /** `calloc(strlen + 1)` followed by `memcpy` of `strlen` characters: `src` and a terminating zero. */
  method CopyZeroTerminated(src: string) returns (dst: array<char>)
    ensures fresh(dst) && dst[..] == src + ['\0']
  {
    dst := new char[|src| + 1](k requires 0 <= k <= |src| => if k < |src| then src[k] else '\0');
    assert dst[..] == src + ['\0'];
  }

  /**
   * `iio_ad713x_get_xml`: a fresh zero-terminated copy of the description, or -ENOMEM and no
   * buffer when the allocation fails. The device argument is not used.
   */
  method GetXml(iioDev: IioDevice?, allocOk: bool) returns (status: int, xml: array?<char>)
    ensures allocOk ==> status == SUCCESS && xml != null && fresh(xml) && xml[..] == Ad713xXml() + ['\0']
    ensures !allocOk ==> status == -ENOMEM && xml == null
  {
    if !allocOk {
      return -ENOMEM, null;
    }
    xml := CopyZeroTerminated(Ad713xXml());
    status := SUCCESS;
  }

  // ---------------------------------------------------------------------------------------------
  // The read_dev stub
  // ---------------------------------------------------------------------------------------------

  /** `uint32_t ch_mask`. */
  type U32 = x: int | 0 <= x < 0x1_0000_0000

  /** `ch_mask & BIT(ch)` is non-zero: bit `ch` of the mask's binary representation is set. */
  predicate Selected(mask: nat, ch: nat)
  {
    if ch == 0 then mask % 2 == 1 else Selected(mask / 2, ch - 1)
  }

  /** The number of channels below `c` that the mask selects. */
  function SelectedChannels(c: nat, mask: nat): (r: nat)
    ensures r <= c
  {
    if c == 0 then 0 else SelectedChannels(c - 1, mask) + (if Selected(mask, c - 1) then 1 else 0)
  }

  /** `hweight8`: the number of set bits among bits 0 to 7, so the number of selected channels below 8. */
  function HWeight8(mask: nat): (r: nat)
    ensures r <= 8
  {
    SelectedChannels(8, mask)
  }

  /**
   * `current_ch` after one iteration: the next channel, wrapping to 0 after the last. (With no
   * channels, `samples` is 0 and the loop does not run.)
   */
  function NextChannel(cur: nat, nc: nat): nat
  {
    if cur < nc - 1 then cur + 1 else 0
  }

  /** The value of `current_ch` at the start of iteration `i`; it stays below the channel count. */
  function ChannelAt(i: nat, nc: nat): (r: nat)
    ensures r == 0 || r < nc
  {
    if i == 0 then 0 else NextChannel(ChannelAt(i - 1, nc), nc)
  }

  lemma MulAtLeast(d: int, n: int)
    requires d >= 1 && n > 0
    ensures d * n >= n
  {
  }

  /** Euclidean division is unique: `q * n + r` with `0 <= r < n` has quotient `q` and remainder `r`. */
  lemma DivModUnique(i: int, n: int, q: int, r: int)
    requires n > 0 && 0 <= r < n && i == q * n + r
    ensures i / n == q && i % n == r
  {
    var q', r' := i / n, i % n;
    assert q' * n + r' == i;
    var d := q' - q;
    assert d * n == q' * n - q * n;
    assert d * n == r - r';
    if d >= 1 {
      MulAtLeast(d, n);
    } else if d <= -1 {
      MulAtLeast(-d, n);
    }
  }

  /** Counting up by one steps the remainder modulo `n` as the channel counter steps. */
  lemma ModStep(i: nat, n: nat)
    requires n > 0 && i > 0
    ensures i % n == NextChannel((i - 1) % n, n)
  {
    var q, r := (i - 1) / n, (i - 1) % n;
    if r < n - 1 {
      DivModUnique(i, n, q, r + 1);
    } else {
      DivModUnique(i, n, q + 1, 0);
    }
  }

  /** The counter visits the channels round-robin: at iteration `i` it is `i % nc`. */
  lemma {:induction false} ChannelAtIsMod(i: nat, nc: nat)
    requires nc > 0
    ensures ChannelAt(i, nc) == i % nc
  {
    if i > 0 {
      ChannelAtIsMod(i - 1, nc);
      ModStep(i, nc);
    }
  }

  /** The `samples` bound: `((bytes_count * num_channels) / hweight8(ch_mask)) / 2`. */
  function Samples(bytesCount: nat, nc: nat, mask: U32): nat
    requires HWeight8(mask) > 0
  {
    ((bytesCount * nc) / HWeight8(mask)) / 2
  }

  /** `pbuf16[j] = i`: the 32-bit iteration index truncated to 16 bits. */
  function Trunc16(i: nat): U16
  {
    i % 0x1_0000
  }

  /** The values written by the first `n` iterations, in the order they are written. */
  function Written(n: nat, nc: nat, mask: U32): seq<U16>
  {
    if n == 0 then []
    else Written(n - 1, nc, mask)
         + (if Selected(mask, ChannelAt(n - 1, nc)) then [Trunc16(n - 1)] else [])
  }

  /** Written grows by at most one value per iteration and never shrinks. */
  lemma {:induction false} WrittenPrefix(m: nat, n: nat, nc: nat, mask: U32)
    requires m <= n
    ensures Written(m, nc, mask) <= Written(n, nc, mask)
    ensures |Written(n, nc, mask)| <= |Written(m, nc, mask)| + (n - m)
  {
    if m < n {
      WrittenPrefix(m, n - 1, nc, mask);
    }
  }

  /** While indices fit in 16 bits, every value written is the index of an earlier iteration. */
  lemma {:induction false} WrittenBelow(n: nat, nc: nat, mask: U32)
    requires n <= 0x1_0000
    ensures forall k :: 0 <= k < |Written(n, nc, mask)| ==> Written(n, nc, mask)[k] < n
  {
    if n > 0 {
      WrittenBelow(n - 1, nc, mask);
    }
  }

  /** While indices fit in 16 bits, the values are strictly increasing. */
  lemma {:induction false} WrittenIncreasing(n: nat, nc: nat, mask: U32)
    requires n <= 0x1_0000
    ensures forall a, b :: 0 <= a < b < |Written(n, nc, mask)| ==>
      Written(n, nc, mask)[a] < Written(n, nc, mask)[b]
  {
    if n > 0 {
      WrittenIncreasing(n - 1, nc, mask);
      WrittenBelow(n - 1, nc, mask);
    }
  }

  /** While indices fit in 16 bits, iteration `i` leaves its index in the buffer exactly when its channel is selected. */
  lemma {:induction false} WrittenExactlySelected(n: nat, nc: nat, mask: U32, i: nat)
    requires i < n <= 0x1_0000
    ensures Trunc16(i) in Written(n, nc, mask) <==> Selected(mask, ChannelAt(i, nc))
  {
    var before := Written(n - 1, nc, mask);
    var step := if Selected(mask, ChannelAt(n - 1, nc)) then [n - 1] else [];
    assert Written(n, nc, mask) == before + step;
    WrittenBelow(n - 1, nc, mask);
    assert n - 1 !in before;
    if i < n - 1 {
      WrittenExactlySelected(n - 1, nc, mask, i);
      assert i !in step;
    }
  }

  /** `c` iterations after the counter is back at channel 0, it is at channel `c`. */
  lemma {:induction false} ChannelAtInScan(base: nat, c: nat, nc: nat)
    requires c < nc && ChannelAt(base, nc) == 0
    ensures ChannelAt(base + c, nc) == c
  {
    if c > 0 {
      ChannelAtInScan(base, c - 1, nc);
    }
  }

  /** `c` iterations from the start of a scan write one value per selected channel among the first `c`. */
  lemma {:induction false} WrittenFromScanStart(base: nat, c: nat, nc: nat, mask: U32)
    requires 0 < nc && c <= nc && ChannelAt(base, nc) == 0
    ensures |Written(base + c, nc, mask)| == |Written(base, nc, mask)| + SelectedChannels(c, mask)
  {
    if c > 0 {
      WrittenFromScanStart(base, c - 1, nc, mask);
      ChannelAtInScan(base, c - 1, nc);
    }
  }

  /** After `t` whole scans the counter is back at channel 0. */
  lemma ScanEndsAtChannelZero(t: nat, nc: nat)
    requires 0 < nc
    ensures ChannelAt(t * nc, nc) == 0
  {
    ChannelAtIsMod(t * nc, nc);
    DivModUnique(t * nc, nc, t, 0);
  }

  /** One more scan after `t - 1` of them ends at iteration `t * nc`. */
  lemma ScanStep(t: nat, nc: nat)
    requires t > 0
    ensures (t - 1) * nc + nc == t * nc
  {
  }

  /** `t` whole scans write `t` times the number of selected channels. */
  lemma {:induction false} WrittenPerScan(t: nat, nc: nat, mask: U32)
    requires 0 < nc
    ensures |Written(t * nc, nc, mask)| == t * SelectedChannels(nc, mask)
  {
    if t > 0 {
      WrittenPerScan(t - 1, nc, mask);
      var base, sel := (t - 1) * nc, SelectedChannels(nc, mask);
      ScanEndsAtChannelZero(t - 1, nc);
      WrittenFromScanStart(base, nc, nc, mask);
      ScanStep(t, nc);
      ScanStep(t, sel);
    }
  }

  /**
   * When the mask selects `hweight8(ch_mask)` of the device's channels and the request is a whole
   * number of scans, `t` scans of `hweight8(ch_mask)` 16-bit values, read_dev writes exactly
   * `bytes_count / 2` values: it fills the buffer and writes no further.
   */
  lemma WholeScansFillBuffer(t: nat, nc: nat, mask: U32)
    requires 0 < nc && HWeight8(mask) > 0 && SelectedChannels(nc, mask) == HWeight8(mask)
    ensures |Written(Samples(2 * t * HWeight8(mask), nc, mask), nc, mask)| == (2 * t * HWeight8(mask)) / 2
  {
    WholeScanArithmetic(t, nc, HWeight8(mask));
    WrittenPerScan(t, nc, mask);
  }

  /** The arithmetic of a whole-scan request: `t * nc` iterations and `t * hw` values. */
  lemma WholeScanArithmetic(t: nat, nc: nat, hw: nat)
    requires hw > 0
    ensures ((2 * t * hw * nc) / hw) / 2 == t * nc
    ensures (2 * t * hw) / 2 == t * hw
  {
    assert 2 * t * hw * nc == (2 * t * nc) * hw;
    DivModUnique(2 * t * hw * nc, hw, 2 * t * nc, 0);
    DivModUnique(2 * t * nc, 2, t * nc, 0);
    DivModUnique(2 * t * hw, 2, t * hw, 0);
  }

  /** On an eight-channel device every mask with a channel selected meets the condition above. */
  lemma EightChannelsWholeScans(t: nat, mask: U32)
    requires HWeight8(mask) > 0
    ensures |Written(Samples(2 * t * HWeight8(mask), 8, mask), 8, mask)| == (2 * t * HWeight8(mask)) / 2
  {
    WholeScansFillBuffer(t, 8, mask);
  }

  /**
   * `iio_ad713x_read_dev` as written. The C divides by `hweight8(ch_mask)`, so the mask must
   * select some channel among its low 8 bits; `BIT(current_ch)` is a shift of an int, so at most
   * 32 channels; and the caller's buffer must have room for every value the loop writes, which,
   * as ReadDevOverruns shows, can be more than `bytes_count / 2`. The offset is scaled and then
   * never used.
   */
  method ReadDev(inst: Iio713x, buf: array<U16>, offset: nat, bytesCount: nat, chMask: U32) returns (r: int)
    requires HWeight8(chMask) > 0 && inst.numChannels <= 32
    requires buf.Length >= |Written(Samples(bytesCount, inst.numChannels, chMask), inst.numChannels, chMask)|
    modifies buf
    ensures r == bytesCount
    ensures var w := Written(Samples(bytesCount, inst.numChannels, chMask), inst.numChannels, chMask);
      buf[..|w|] == w && forall k :: |w| <= k < buf.Length ==> buf[k] == old(buf[k])
  {
    var nc := inst.numChannels;
    var hw := HWeight8(chMask);
    var samples := (bytesCount * nc) / hw;
    samples := samples / 2;
    var scaledOffset := (offset * nc) / hw;
    FillSelected(buf, samples, nc, chMask);
    r := bytesCount;
  }

  /** The `for` loop of read_dev: `samples` iterations, one value for each selected channel. */
  method FillSelected(buf: array<U16>, samples: nat, nc: nat, chMask: U32)
    requires buf.Length >= |Written(samples, nc, chMask)|
    modifies buf
    ensures var w := Written(samples, nc, chMask);
      buf[..|w|] == w && forall k :: |w| <= k < buf.Length ==> buf[k] == old(buf[k])
  {
    ghost var total := Written(samples, nc, chMask);
    var i, j, currentCh := 0, 0, 0;
    while i < samples
      invariant i <= samples
      invariant currentCh == ChannelAt(i, nc)
      invariant j == |Written(i, nc, chMask)| <= |total|
      invariant buf[..j] == Written(i, nc, chMask)
      invariant forall k :: j <= k < buf.Length ==> buf[k] == old(buf[k])
    {
      WrittenPrefix(i + 1, samples, nc, chMask);
      if Selected(chMask, currentCh) {
        buf[j] := Trunc16(i);
        assert buf[..j + 1] == buf[..j] + [Trunc16(i)];
        j := j + 1;
      }
      if currentCh < nc - 1 {
        currentCh := currentCh + 1;
      } else {
        currentCh := 0;
      }
      i := i + 1;
    }
  }

  /**
   * A two-byte request (one 16-bit value) on a five-channel device with channels 0 and 1
   * selected: `samples` is 2 and both iterations select their channel, so read_dev stores two
   * values into a buffer that holds one.
   */
  lemma ReadDevOverruns()
    ensures HWeight8(3) == 2 && Samples(2, 5, 3) == 2
    ensures |Written(Samples(2, 5, 3), 5, 3)| == 2 > 2 / 2
  {
  }

  function Min(a: nat, b: nat): nat
  {
    if a <= b then a else b
  }

  /**
   * read_dev with the loop also stopping once `bytes_count / 2` values are stored: it writes the
   * same values as the code as written, in the same places, but never past the caller's
   * `bytes_count` bytes.
   */
  method ReadDevBounded(inst: Iio713x, buf: array<U16>, offset: nat, bytesCount: nat, chMask: U32) returns (r: int)
    requires HWeight8(chMask) > 0 && inst.numChannels <= 32
    requires buf.Length >= bytesCount / 2
    modifies buf
    ensures r == bytesCount
    ensures var w := Written(Samples(bytesCount, inst.numChannels, chMask), inst.numChannels, chMask);
      var n := Min(|w|, bytesCount / 2);
      buf[..n] == w[..n] && forall k :: n <= k < buf.Length ==> buf[k] == old(buf[k])
  {
    var nc := inst.numChannels;
    var hw := HWeight8(chMask);
    var samples := (bytesCount * nc) / hw;
    samples := samples / 2;
    var scaledOffset := (offset * nc) / hw;
    FillSelectedBounded(buf, samples, nc, chMask, bytesCount / 2);
    r := bytesCount;
  }

  /** The loop of ReadDevBounded: it stops after `samples` iterations or `limit` values. */
  method FillSelectedBounded(buf: array<U16>, samples: nat, nc: nat, chMask: U32, limit: nat)
    requires buf.Length >= limit
    modifies buf
    ensures var w := Written(samples, nc, chMask); var n := Min(|w|, limit);
      buf[..n] == w[..n] && forall k :: n <= k < buf.Length ==> buf[k] == old(buf[k])
  {
    var i, j, currentCh := 0, 0, 0;
    while i < samples && j < limit
      invariant i <= samples && j <= limit
      invariant currentCh == ChannelAt(i, nc)
      invariant j == |Written(i, nc, chMask)|
      invariant buf[..j] == Written(i, nc, chMask)
      invariant forall k :: j <= k < buf.Length ==> buf[k] == old(buf[k])
    {
      WrittenPrefix(i, i + 1, nc, chMask);
      if Selected(chMask, currentCh) {
        buf[j] := Trunc16(i);
        assert buf[..j + 1] == buf[..j] + [Trunc16(i)];
        j := j + 1;
      }
      if currentCh < nc - 1 {
        currentCh := currentCh + 1;
      } else {
        currentCh := 0;
      }
      i := i + 1;
    }
    WrittenPrefix(i, samples, nc, chMask);
  }

  /** Whenever the code as written stays inside the buffer, the bounded loop writes everything it writes. */
  lemma BoundedAgreesWhenInBounds(bytesCount: nat, nc: nat, mask: U32)
    requires HWeight8(mask) > 0
    requires |Written(Samples(bytesCount, nc, mask), nc, mask)| <= bytesCount / 2
    ensures var w := Written(Samples(bytesCount, nc, mask), nc, mask); w[..Min(|w|, bytesCount / 2)] == w
  {
  }
}
