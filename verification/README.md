# CV2Midi analog front end and app dispatch, in Dafny

This project models two pieces of the C2M firmware headers:

- **`C2M::ADC`**: the per-input smoothing filter that the DMA scan feeds and the
  accessors that turn filter state plus `CalibrationData` into calibrated,
  raw and pitch-scaled readings. The class keeps its state in static arrays
  (`raw_`, `smoothed_`) plus a pointer to the calibration record. Here that
  state is one immutable `Adc.AdcState` record holding two length-10
  sequences and a `CalibrationData`. The private `update<channel>` becomes a
  function that returns the next state. The `ADC_CHANNEL` enumeration, the
  DMA slot constants and the `SCA_CHANNEL_ID` scan table are in
  `AdcChannels`.
- **`C2M::apps::ISR()`**: the null-guarded dispatch of the per-sample
  interrupt to the current app's optional `isr` callback. `current_app` is an
  `Option<App>`. Every function pointer in the `App` descriptor is an
  `Option<Callback>`, where `Callback` stands for a function's address. The
  dispatch returns the list of callbacks it invoked, together with the state
  it leaves behind.

C++ integer semantics are written out explicitly in `CInts`:

- `uint32_t` arithmetic wraps modulo 2^32.
- A `uint32_t` converted to `int32_t` is reinterpreted as two's complement.
- Shifts by constants become division or multiplication by the matching
  power of two.
- `>>` on an `int32_t` is an arithmetic shift, i.e. floor division. On a
  positive divisor this is what Dafny's `/` does.

The main results:

- In `value`, the `uint16_t - uint32_t` subtraction is done unsigned and the
  result converted to `int32_t`. This always equals the mathematical
  difference, because the subtrahend is a `uint32_t` shifted right by 8.
- Suppose the input is a 16-bit sample and the filter holds 12-bit codes with
  8 fraction bits. Then the `uint32_t` filter arithmetic cannot wrap, and the
  filter stays in that range.
- A filter step never overshoots and leaves the value unchanged when it
  already matches the sample. An update changes only the two slots of its
  own input.
- The pitch accessors compute the floor of `value * scale / 4096` whenever
  the signed product fits. It always fits when the offset is below 2^15.

Files: `wrappers.dfy` (Option), `c_ints.dfy` (machine integers),
`adc_channels.dfy` (channel identity and scan table), `adc.dfy` (filter and
accessors), `apps.dfy` (app descriptor and ISR dispatch).

### Settling of the moving average

The truncating `(smoothed * 3 + value) / 4` reaches a constant input only
from above (`Adc.SettleFromAbove`). From below it stays 1 to 3 fraction
units short (`Adc.SettleFromBelow`, `Adc.SettleWithinThree`), so once a
constant non-zero code has been fed in from the zero state long enough,
`smoothed_raw_value` reads one below `raw_value`
(`Adc.SteadyRisingInputReadsOneLow`). The scan counts in these lemmas are
loose bounds.

## Model

| member | source | states |
|---|---|---|
| CInts.U16MinusU32AsI32 | software/C2M_X/C2M_ADC.h:61-62 | `offset - (x >> 8)` evaluated as unsigned 32-bit, then stored as `int32_t`, equals the mathematical difference whenever the subtrahend fits 24 bits |
| CInts.WrapIntoInt32 | software/C2M_X/C2M_ADC.h:78 | converting to `uint32_t` and then to `int32_t` is the identity on every value in the `int32_t` range |
| CInts.WideSubtrahendWraps | software/C2M_X/C2M_ADC.h:62 | without the 24-bit bound the conversion does not round-trip: 0 - (2^31 + 1) is stored as 2^31 - 1 |
| CInts.MulI32 | software/C2M_X/C2M_ADC.h:74 | the signed 32-bit product equals the mathematical product whenever that product fits in `int32_t` |
| AdcChannels.Index | software/C2M_X/C2M_ADC.h:10-21 | every enumerator's value is below `ADC_CHANNEL_LAST` and maps back to the same enumerator |
| AdcChannels.IndexIsBijection | software/C2M_X/C2M_ADC.h:10-21 | the ten enumerators and the values 0..9 correspond one to one |
| AdcChannels.VelocityPartner | software/C2M_X/C2M_ADC.h:10-22 | velocity input k sits `ADC_CHANNEL_NUM` places after pitch input k and is not a pitch input |
| AdcChannels.GroupSizes | software/C2M_X/C2M_ADC.h:21-22 | `ADC_CHANNEL_LAST == 10 == 2 * ADC_CHANNEL_NUM`; every input is a pitch input or the velocity partner of one |
| AdcChannels.ScanTableShape | software/C2M_X/C2M_ADC.h:25-26 | the scan table has `DMA_NUM_CH == DMA_BUF_SIZE == 16` entries, a power of two that covers all ten inputs |
| AdcChannels.SlotChannel | software/C2M_X/C2M_ADC.h:102-108 | scan slot i samples the input whose value is i mod 10 |
| AdcChannels.ScanSlotsShareIdIffSameChannel | software/C2M_X/C2M_ADC.h:108 | two slots hold the same peripheral ID exactly when they sample the same input, and each slot's ID is its input's ID |
| AdcChannels.ScanTablePadding | software/C2M_X/C2M_ADC.h:108 | entries 10 to 15 repeat entries 0 to 5 |
| AdcChannels.ChannelScaIdInjective | software/C2M_X/C2M_ADC.h:103-108 | distinct inputs have distinct peripheral IDs |
| Adc.ShiftConstants | software/C2M_X/C2M_ADC.h:33-43 | the shift amounts built from the class constants are 4, 8, 8 and 12 bits, the smoothing factor is 2^2, and the 12-bit code tops out at 4095 |
| Adc.SmoothingDivisionIsShift | software/C2M_X/C2M_ADC.h:90-91 | on a 32-bit unsigned value, dividing by `kAdcSmoothing` (4) equals shifting right by 2 |
| Adc.ZeroState | software/C2M_X/C2M_ADC.h:99-100 | with zero-initialised arrays, every raw and smoothed reading is 0 and the filter is in range |
| Adc.ScaledSample | software/C2M_X/C2M_ADC.h:88 | `(v >> 4) << 8` keeps v's 12-bit code with eight zero fraction bits, and for a 16-bit sample stays at most 4095 << 8 |
| Adc.SmoothStep | software/C2M_X/C2M_ADC.h:91 | for in-range operands, `prev*3 + sample` fits in `uint32_t`; the result is the floor of the average, lies between `prev` and the sample, strictly decreases toward a lower sample, stays below a higher one, and is unchanged when they match |
| Adc.Update | software/C2M_X/C2M_ADC.h:87-93 | changes only the input's own raw and smoothed slots and never the calibration; for a 16-bit sample the raw slot holds `(v >> 4) << 8` and `raw_value` is `v >> 4`, at most 4095; with the filter in range nothing wraps, the new smoothed value is the floor of `(3 * old + raw) / 4`, lies between the old value and the stored sample, and the filter stays in range |
| Adc.RawValue | software/C2M_X/C2M_ADC.h:65-67 | the raw slot's integer part: the largest r with r * 256 at most the slot, below 2^24 |
| Adc.SmoothedRawValue | software/C2M_X/C2M_ADC.h:69-71 | the smoothed slot's integer part, below 2^24 |
| Adc.Value | software/C2M_X/C2M_ADC.h:61-63 | equals `offset[ch] - smoothed_raw_value(ch)` as a mathematical integer, within (-2^24, 2^16) |
| Adc.StaticValue | software/C2M_X/C2M_ADC.h:56-59 | the template overload returns the same as the runtime overload |
| Adc.PitchValue | software/C2M_X/C2M_ADC.h:73-75 | when `value * pitch_cv_scale` fits in `int32_t`, the result is its floor division by 4096 |
| Adc.RawPitchValue | software/C2M_X/C2M_ADC.h:77-80 | when `(offset - raw_value) * pitch_cv_scale` fits in `int32_t`, the result is its floor division by 4096 |
| Adc.PitchReadingsAgree | software/C2M_X/C2M_ADC.h:73-80 | when the raw and smoothed codes are equal, the raw and smoothed pitch readings are equal |
| Adc.ZeroStateValue | software/C2M_X/C2M_ADC.h:56-63 | before any scan, both overloads of `value` return the input's offset |
| Adc.PitchProductsFit | software/C2M_X/C2M_ADC.h:74-79 | with the filter in range and an offset below 2^15, neither pitch product overflows, for any scale |
| Adc.PitchProductOverflows | software/C2M_X/C2M_ADC.h:74 | offset 65535, an empty filter and scale 65535 overflow the product, and the wrapped result reads -32 |
| Adc.Settle | software/C2M_X/C2M_ADC.h:87-93 | repeated updates of one input with one sample leave other inputs and the calibration unchanged, keep the filter in range, and leave that sample in the raw slot |
| Adc.SettleFromAbove | software/C2M_X/C2M_ADC.h:91 | from above, the smoothed slot reaches the scaled sample exactly within as many scans as the starting distance, and the smoothed code then equals the sample's code |
| Adc.SettleFromBelow | software/C2M_X/C2M_ADC.h:91 | from below, the smoothed slot stays strictly below the scaled sample for any number of scans, so the smoothed code stays below the sample's code |
| Adc.SettleWithinThree | software/C2M_X/C2M_ADC.h:91 | from below, with enough scans the smoothed slot comes within 3 of the scaled sample and never passes it |
| Adc.SteadyRisingInputReadsOneLow | software/C2M_X/C2M_ADC.h:65-71 | a constant non-zero 16-bit input fed from the zero state leaves `smoothed_raw_value` exactly one below `raw_value` once the scans outnumber the scaled sample |
| Apps.EventCode | software/C2M_X/C2M_apps.h:31-34 | each event's enumerator value is 0 or 1 and maps back to the same event |
| Apps.EventsAreSuspendAndResume | software/C2M_X/C2M_apps.h:31-34 | `SUSPEND` is exactly the event with code 0 and `RESUME` exactly the event with code 1 |
| Apps.Isr | software/C2M_X/C2M_apps.h:66-69 | invokes exactly one callback iff there is a current app that declares an `isr`; any callback it invokes is that app's `isr`; it leaves `current_app` and the descriptors unchanged |
| Apps.IsrWithoutApp | software/C2M_X/C2M_apps.h:67 | with a null `current_app`, no callback is invoked |
| Apps.IsrWithoutHandler | software/C2M_X/C2M_apps.h:67 | with a current app whose `isr` is null, no callback is invoked |
| Apps.IsrCallsCurrentOnly | software/C2M_X/C2M_apps.h:67-68 | with both pointers present, exactly `[current_app->isr]` is invoked, and no other app's different `isr` |
| Apps.IsrTicks | software/C2M_X/C2M_apps.h:61-69 | with no app switch between ticks and the callback's effects left out, repeated `ISR()` calls dispatch to the same `isr` once per call (or to nothing), and `ISR()` itself writes no state |

## Left out

- `ADC::Init`, `Init_DMA`, `DMA_ISR`, `Scan_DMA`, the `::ADC adc_` driver object and the `volatile ready_` flag: they drive the ADC and DMA hardware and only their declarations exist. `Adc.ZeroState` is the state after `Init` has bound the calibration record and before the first scan: the arrays are zero from static initialisation.
- `ADC::CalibratePitch`: only its signature exists, so neither its scale formula nor its error path is modelled.
- `kDefaultPitchCVScale`, `kAdcSamplingSpeed` and `kAdcConversionSpeed`: they come from `SEMITONES` and the `ADC_HIGH_SPEED*` constants, defined in headers that are not part of this model. The scale is any `uint16_t`.
- `apps::Init`, `apps::find` and `apps::index_of`: declared without bodies, so lookup and app switching (`SUSPEND`/`RESUME` delivery) are not modelled.
- App callbacks (`Init`, `storageSize`, `Save`, `Restore`, `HandleAppEvent`, `loop`, `HandleButtonEvent`, `isr`): they are external function pointers, so only their presence and identity are modelled. The persistence buffers are opaque.
- Interrupt-versus-main-loop concurrency (`volatile` access, atomic pointer swap): the model is one sequential state.
- `App::name`: a `const char *` modelled as a Dafny string.
- Adc.PitchValue: signed overflow of `value * pitch_cv_scale` is undefined behaviour in C++. The model takes the ARM target's wrapping multiply, and states the floor-division result only when the product fits.
- Adc.RawPitchValue: the same restriction as `PitchValue`, for the product of the raw difference and the scale.
- The `calibration_data_` pointer: it is null until `Init` binds it, and every accessor dereferences it, so a read before `Init` is undefined behaviour. The model holds the calibration record by value, so such a read cannot be expressed. Writes to the shared record from outside the class, such as `CalibratePitch`, are not modelled either; a new record means a new state.
- `ADC_CHANNEL_LAST` as an accessor or `update` argument: it is a legal `ADC_CHANNEL` value, but it indexes `offset`, `raw_` and `smoothed_` out of bounds. `AdcChannel` has only the ten real inputs, so that undefined case is excluded.
- The `isr` callback is assumed not to write `current_app`, and no app switch happens between ticks. `Apps.IsrTicks` relies on both, because callback bodies and main-loop switching are outside the model.
