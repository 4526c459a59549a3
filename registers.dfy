/** Register access of the ADS1015: the two-byte big-endian frame of a register
    write, the combination of the two bytes of a register read, the config word
    of a single-ended conversion and the single-ended read itself. Bus traffic
    is modelled as the list of operations the master issues. */
module Registers {
  import opened PhxTypes

  /** A master write of `bytes` to `address`, or a request of `count` bytes from it. */
  datatype BusOp = Transmit(address: bv8, bytes: seq<bv8>) | Request(address: bv8, count: nat)

  /** Result of a single-ended read: the traffic it caused and the returned code. */
  datatype AdcRead = AdcRead(ops: seq<BusOp>, code: int)

  function HighByte(value: bv16): bv8 {
    (value >> 8) as bv8
  }

  function LowByte(value: bv16): bv8 {
    (value & 0xFF) as bv8
  }

  /** The register value rebuilt from the high byte received first and the low byte. */
  function Combine(hi: bv8, lo: bv8): (value: bv16)
    ensures HighByte(value) == hi && LowByte(value) == lo
  {
    ((hi as bv16) << 8) | (lo as bv16)
  }

  /** Splitting a 16-bit value into its two bytes and combining them gives the value back. */
  lemma SplitCombine(value: bv16)
    ensures Combine(HighByte(value), LowByte(value)) == value
  {
  }

  /** The frame of a register write: the pointer byte, then the value high byte first. */
  function WriteRegister(address: bv8, reg: bv8, value: bv16): (op: BusOp)
    ensures op.Transmit? && op.address == address
    ensures |op.bytes| == 3 && op.bytes[0] == reg
    ensures Combine(op.bytes[1], op.bytes[2]) == value
  {
    SplitCombine(value);
    Transmit(address, [reg, HighByte(value), LowByte(value)])
  }

  /** The traffic of a register read: point at the register, then request two bytes. */
  function ReadRegisterOps(address: bv8, reg: bv8): seq<BusOp> {
    [Transmit(address, [reg]), Request(address, 2)]
  }

  /** The mux field selecting single-ended input `channel`. */
  function MuxField(channel: bv8): (mux: bv16)
    requires channel <= 3
    ensures mux == MUX_CODES[channel]
  {
    CONFIG_MUX_SINGLE_0 + (channel as bv16) * 0x1000
  }

  /** The config word written to start a single-ended conversion on `channel`. */
  function ConfigWord(gain: bv16, channel: bv8): (config: bv16)
    requires channel <= 3
    ensures config & CONFIG_OS_SINGLE == CONFIG_OS_SINGLE
    ensures config & CONFIG_DR_1600SPS == CONFIG_DR_1600SPS
    ensures config & gain == gain
    ensures config & MuxField(channel) == MuxField(channel)
  {
    var word := gain | CONFIG_MODE_CONTIN | CONFIG_DR_1600SPS;
    var word' := word | MuxField(channel);
    word' | CONFIG_OS_SINGLE
  }

  /** For any gain, the config word has no bit set outside the gain, the data-rate,
      mux and start bits. */
  lemma ConfigWordOnlyFields(gain: bv16, channel: bv8)
    requires channel <= 3
    ensures ConfigWord(gain, channel) &
      !(gain | CONFIG_MODE_CONTIN | CONFIG_DR_1600SPS | MuxField(channel) | CONFIG_OS_SINGLE) == 0
  {
  }

  /** With one of the six gain codes the fields of the config word decode back to
      the start bit, the channel, the gain, continuous mode and 1600 samples/s. */
  lemma ConfigWordFields(gain: bv16, channel: bv8)
    requires IsGainCode(gain) && channel <= 3
    ensures ConfigWord(gain, channel) >> 15 == 1
    ensures (ConfigWord(gain, channel) >> 12) & 0x7 == 4 + channel as bv16
    ensures ConfigWord(gain, channel) & GAIN_FIELD_MASK == gain
    ensures (ConfigWord(gain, channel) >> 8) & 0x1 == 0
    ensures (ConfigWord(gain, channel) >> 5) & 0x7 == 0x4
    ensures ConfigWord(gain, channel) & 0x1F == 0
  {
  }

  /** One single-ended read (readADC_SingleEnded): a channel above 3 gives 0 and no
      traffic; otherwise the config word is written, the conversion register is
      read back as bytes `hi`, `lo`, and the code is its top twelve bits. */
  function ReadSingleEnded(address: bv8, gain: bv16, channel: bv8, hi: bv8, lo: bv8): (r: AdcRead)
    ensures channel > 3 ==> r.ops == [] && r.code == 0
    ensures channel <= 3 ==>
      |r.ops| == 3 && r.ops[0] == WriteRegister(address, REG_POINTER_CONFIG, ConfigWord(gain, channel)) &&
      r.ops[1..] == ReadRegisterOps(address, REG_POINTER_CONVERT)
    ensures channel <= 3 ==> r.code * 16 <= Combine(hi, lo) as int < r.code * 16 + 16
    ensures 0 <= r.code < 4096
  {
    if channel > 3 then
      AdcRead([], 0)
    else
      var config := ConfigWord(gain, channel);
      var ops := [WriteRegister(address, REG_POINTER_CONFIG, config)] + ReadRegisterOps(address, REG_POINTER_CONVERT);
      AdcRead(ops, (Combine(hi, lo) >> 4) as int)
  }
}
