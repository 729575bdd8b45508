/**
 * The identity of the analog inputs: the `ADC_CHANNEL` enumeration and the
 * table of peripheral channel IDs the DMA scan walks through.
 */
module AdcChannels {
  import opened CInts

  /**
   * The ten inputs in enumeration order: the five pitch inputs
   * (`ADC_CHANNEL_1_1` .. `ADC_CHANNEL_5_1`), then the five velocity inputs
   * (`ADC_CHANNEL_1_2` .. `ADC_CHANNEL_5_2`).
   */
  datatype AdcChannel =
    | Ch1_1 | Ch2_1 | Ch3_1 | Ch4_1 | Ch5_1
    | Ch1_2 | Ch2_2 | Ch3_2 | Ch4_2 | Ch5_2

  /** `ADC_CHANNEL_LAST`: the number of inputs, and the length of every per-channel array. */
  const ChannelLast: nat := 10

  /** `ADC_CHANNEL_NUM`: the enumerator aliased to `ADC_CHANNEL_1_2`, i.e. inputs per group. */
  const ChannelNum: nat := Index(Ch1_2)

  /** `DMA_BUF_SIZE` and `DMA_NUM_CH`: slots of one scan pass. */
  const DmaBufSize: nat := 16
  const DmaNumCh: nat := 16

  /** The value C++ gives each enumerator. */
  function Index(ch: AdcChannel): (i: nat)
    ensures i < ChannelLast
    ensures FromIndex(i) == ch
  {
    match ch
    case Ch1_1 => 0
    case Ch2_1 => 1
    case Ch3_1 => 2
    case Ch4_1 => 3
    case Ch5_1 => 4
    case Ch1_2 => 5
    case Ch2_2 => 6
    case Ch3_2 => 7
    case Ch4_2 => 8
    case Ch5_2 => 9
  }

  /** The enumerator with value `i`. */
  function FromIndex(i: nat): (ch: AdcChannel)
    requires i < ChannelLast
  {
    [Ch1_1, Ch2_1, Ch3_1, Ch4_1, Ch5_1, Ch1_2, Ch2_2, Ch3_2, Ch4_2, Ch5_2][i]
  }

  /** Every value below `ADC_CHANNEL_LAST` names exactly one input. */
  lemma IndexIsBijection()
    ensures forall i :: 0 <= i < ChannelLast ==> Index(FromIndex(i)) == i
    ensures forall a, b :: Index(a) == Index(b) <==> a == b
  {
  }

  /** The first five inputs are the pitch inputs, the last five the velocity inputs. */
  predicate IsPitchInput(ch: AdcChannel)
  {
    Index(ch) < ChannelNum
  }

  /** Input `k` of the velocity group sits `ADC_CHANNEL_NUM` places after input `k` of the pitch group. */
  function VelocityPartner(ch: AdcChannel): (v: AdcChannel)
    requires IsPitchInput(ch)
    ensures !IsPitchInput(v)
    ensures Index(v) == Index(ch) + ChannelNum
  {
    FromIndex(Index(ch) + ChannelNum)
  }

  /** The two groups have the same size and together make up all inputs. */
  lemma GroupSizes()
    ensures ChannelLast == 2 * ChannelNum
    ensures ChannelNum == 5
    ensures forall ch: AdcChannel :: IsPitchInput(ch) || exists p :: IsPitchInput(p) && VelocityPartner(p) == ch
  {
    forall ch: AdcChannel | !IsPitchInput(ch)
      ensures exists p :: IsPitchInput(p) && VelocityPartner(p) == ch
    {
      var p := FromIndex(Index(ch) - ChannelNum);
      assert VelocityPartner(p) == ch;
    }
  }

  /**
   * `SCA_CHANNEL_ID`: the peripheral channel selected in each scan slot. The
   * ten inputs are padded to a power-of-two slot count by repeating the
   * first six IDs.
   */
  const ScaChannelId: seq<uint16> :=
    [0x4C, 0x4D, 0x49, 0x48, 0x45, 0x44, 0x4F, 0x47, 0x46, 0x4E,
     0x4C, 0x4D, 0x49, 0x48, 0x45, 0x44]

  predicate IsPowerOfTwo(n: nat)
    decreases n
  {
    n == 1 || (n >= 2 && n % 2 == 0 && IsPowerOfTwo(n / 2))
  }

  /** The table fills the DMA buffer exactly, and its size is a power of two. */
  lemma ScanTableShape()
    ensures |ScaChannelId| == DmaNumCh == DmaBufSize
    ensures IsPowerOfTwo(|ScaChannelId|)
    ensures ChannelLast <= |ScaChannelId|
  {
  }

  /** The input scanned in slot `slot`: slots past the tenth wrap round to the start. */
  function SlotChannel(slot: nat): (ch: AdcChannel)
    requires slot < DmaNumCh
    ensures Index(ch) == slot % ChannelLast
  {
    FromIndex(slot % ChannelLast)
  }

  /** Each input has its own peripheral ID: the first ten table entries. */
  function ChannelScaId(ch: AdcChannel): uint16
  {
    ScaChannelId[Index(ch)]
  }

  /**
   * Two slots select the same peripheral channel exactly when they scan the
   * same input; in particular the ten inputs have pairwise distinct IDs and
   * the six padding slots repeat slots 0 to 5.
   */
  lemma ScanSlotsShareIdIffSameChannel(i: nat, j: nat)
    requires i < DmaNumCh && j < DmaNumCh
    ensures ScaChannelId[i] == ScaChannelId[j] <==> SlotChannel(i) == SlotChannel(j)
    ensures ScaChannelId[i] == ChannelScaId(SlotChannel(i))
  {
  }

  /** The padding slots repeat the first six slots. */
  lemma ScanTablePadding()
    ensures forall i :: ChannelLast <= i < DmaNumCh ==> ScaChannelId[i] == ScaChannelId[i - ChannelLast]
  {
  }

  /** Distinct inputs are sampled from distinct peripheral channels. */
  lemma ChannelScaIdInjective(a: AdcChannel, b: AdcChannel)
    ensures ChannelScaId(a) == ChannelScaId(b) <==> a == b
  {
  }
}
