# libSMCE board view: pixel codec, existence gating and UART streams

This project models three parts of the libSMCE board emulator as its board-view
tests pin them down:

- the **framebuffer pixel codec** (`smce::convert_rgb444_to_rgb888`,
  `convert_rgb888_to_rgb444`, `convert_rgb888_to_rgb565`,
  `convert_rgb565_to_rgb888`), which converts between direct 24-bit colour and
  the packed 12-bit and 16-bit formats;
- **existence gating** of a `BoardView`: `pins[i].digital()` / `analog()` and
  `uart_channels[i]` with its `rx()` / `tx()` streams exist only for what the
  `BoardConfig` declared, and only while the board runs;
- one **UART stream** (an `rx` or `tx` buffer), a bounded FIFO with `write`,
  `read` and `size`.

The implementation headers (`SMCE/Board.hpp`, `SMCE/BoardView.hpp`,
`SMCE/BoardConf.hpp`) are not part of this model; the behaviour follows the
literal vectors and assertions of `test/BoardView.cpp`; where the test is silent
(analog accessors, the unused nibble of 12-bit pixels) the rule is stated in the
row that uses it.

Files:

- `common.dfy` — `Byte` (`bv8`) and `Option`.
- `pixel_codec.dfy` — module `PixelCodec`: the four conversions, the field
  expansions and their round-trip laws. Bytes are `bv8`, so every shift and mask
  has its exact 8-bit meaning.
- `codec_vectors.dfy` — module `CodecVectors`: every literal vector of the four
  framebuffer tests.
- `board_view.dfy` — module `BoardView`: the configuration record, the view
  (its validity flag plus the configuration) and the `exists()` predicates.
- `uart.dfy` — module `Uart`: the functional `Fifo`, traces of writes and reads,
  the `ByteStream` class whose methods are proved against `Fifo`, and the
  `UartChannel` class that builds a channel's rx and tx streams from its
  configured buffer lengths.

Modelling decisions:

- A digital (analog) accessor exists when the view is valid, the pin is listed in
  `pins`, and the first `gpio_drivers` entry for that pin has a digital (analog)
  driver that is readable or writable. For a well-formed configuration (unique
  pins, unique driver entries, every entry naming a listed pin) this is the
  same as "some entry for the pin has such a driver"
  (`BoardView.DigitalExistsIff`).
- `rx()` and `tx()` of a channel exist exactly when the channel does.
- A stream's bytes are a sequence that `Write` and `Read` replace; `Read` copies
  into the caller's array with a loop, as `read` fills the caller's span.

## Model

| member | source | states |
|---|---|---|
| PixelCodec.Expand4 | test/BoardView.cpp:145-178 | a 4-bit channel v expands to v*17, and its top nibble is v again |
| PixelCodec.Expand5 | test/BoardView.cpp:275-308 | a 5-bit field expands by bit replication: top five bits are the field, low three repeat its top three; 0 maps to 0 and only 31 maps to 255 |
| PixelCodec.Expand6 | test/BoardView.cpp:275-308 | a 6-bit field expands by bit replication: top six bits are the field, low two repeat its top two; 0 maps to 0 and only 63 maps to 255 |
| PixelCodec.Rgb444ToRgb888 | test/BoardView.cpp:145-178 | red is 17 times byte1's low nibble, green 17 times byte0's high nibble, blue 17 times byte0's low nibble |
| PixelCodec.Rgb888ToRgb444 | test/BoardView.cpp:193-219 | byte1 holds red's top nibble with its high nibble zero; byte0 holds green's top nibble high and blue's top nibble low |
| PixelCodec.Rgb888ToRgb565 | test/BoardView.cpp:234-260 | the packed red, green and blue fields are the top 5, 6 and 5 bits of the channels |
| PixelCodec.Rgb565ToRgb888 | test/BoardView.cpp:275-308 | the top 5, 6 and 5 bits of the output channels are the packed red, green and blue fields, and the vacated low bits repeat each field's top bits (bit replication) |
| PixelCodec.Rgb444IgnoresHighNibble | test/BoardView.cpp:137-143 | the high nibble of byte1 does not affect the unpacked colour; the vectors only use a zero high nibble, so this follows the format's rule that the nibble is unused rather than a test assertion |
| PixelCodec.Rgb444RoundTrip | test/BoardView.cpp:143 | unpacking then packing 12-bit data gives the same bytes, with byte1's unused nibble cleared |
| PixelCodec.Rgb444TruncateExpand | test/BoardView.cpp:190-219 | packing then unpacking keeps each channel's top nibble and replaces its low nibble by a copy of the top one |
| PixelCodec.Rgb444ExactIffMultipleOf17 | test/BoardView.cpp:185-203 | a colour survives the 12-bit round trip exactly iff every channel is a multiple of 17 |
| PixelCodec.Rgb444QuantiseIdempotent | test/BoardView.cpp:193-219 | packing a colour that came out of a 12-bit round trip gives the same bytes as packing the original |
| PixelCodec.Rgb565RoundTrip | test/BoardView.cpp:254-273 | every 16-bit pixel survives unpacking then packing unchanged |
| PixelCodec.Rgb565ExpandInjective | test/BoardView.cpp:275-308 | distinct 16-bit pixels unpack to distinct colours |
| PixelCodec.Rgb565TruncateExpand | test/BoardView.cpp:226-260 | packing then unpacking keeps the top 5, 6 and 5 bits of red, green and blue |
| PixelCodec.Rgb565ExactOnRepresentable | test/BoardView.cpp:226-260 | a colour survives the 16-bit round trip exactly iff each channel is the bit-replicated expansion of its own top bits |
| PixelCodec.ExpandMonotone | test/BoardView.cpp:275-308 | 5- and 6-bit expansion is strictly increasing |
| CodecVectors.Rgb444ToRgb888Vectors | test/BoardView.cpp:134-179 | the seven RGB444 to RGB888 vectors (black, white, red, green, blue, brown, purple) |
| CodecVectors.Rgb888ToRgb444Vectors | test/BoardView.cpp:182-220 | the seven RGB888 to RGB444 vectors |
| CodecVectors.Rgb888ToRgb565Vectors | test/BoardView.cpp:223-261 | the seven RGB888 to RGB565 vectors |
| CodecVectors.Rgb565ToRgb888Vectors | test/BoardView.cpp:264-309 | the seven RGB565 to RGB888 vectors, including brown unpacking to (0x94, 0x6d, 0x31) |
| BoardView.FindDriver | test/BoardView.cpp:42-56 | the result indexes the first driver entry for the pin, and none is returned only when no entry names the pin |
| BoardView.DigitalExists | test/BoardView.cpp:63-68 | a digital accessor exists only on a valid view, for a listed pin with an entry whose digital driver is readable or writable |
| BoardView.AnalogExists | test/BoardView.cpp:44-55 | an analog accessor exists only on a valid view, for a listed pin with an entry whose analog driver is readable or writable; the test configures analog drivers but never asserts analog().exists(), so this rule is taken by symmetry with the digital one |
| BoardView.DigitalExistsIff | test/BoardView.cpp:42-68 | for a well-formed configuration, a digital accessor exists iff the view is valid and an entry for the pin has a usable digital driver |
| BoardView.AnalogExistsIff | test/BoardView.cpp:42-56 | the same equivalence for analog accessors, by symmetry with the digital rule; the test does not assert it |
| BoardView.UartExists | test/BoardView.cpp:93-100 | defined as: the view is valid and the index is below the configured channel count; its consequences are proved by UartChannelsAreConfiguredPrefix, UartIndexBeyondCount and UartTestExistence |
| BoardView.UartRxExists | test/BoardView.cpp:95-99 | defined as: the channel exists (rx exists exactly when its channel does) |
| BoardView.UartTxExists | test/BoardView.cpp:96-100 | defined as: the channel exists (tx exists exactly when its channel does) |
| BoardView.UartChannelsAreConfiguredPrefix | test/BoardView.cpp:87-100 | on a running board a channel exists iff its index lies in {0, ..., count-1}, a set of exactly count elements, and existence has no gaps: if channel i exists so does every j <= i; together with UartIndexBeyondCount, no channel past the count exists in any state |
| BoardView.InvalidViewHasNothing | test/BoardView.cpp:61-62 | on a view whose board is not running no pin, accessor, channel or stream exists |
| BoardView.UnconfiguredPinHasNothing | test/BoardView.cpp:65-66 | a pin absent from the configuration has no accessor in any lifecycle state |
| BoardView.UartIndexBeyondCount | test/BoardView.cpp:97-100 | a channel index at or past the configured count does not exist, nor do its rx and tx |
| BoardView.GpioTestExistence | test/BoardView.cpp:42-68 | with pins {0, 2} configured and the board running, pins 0 and 2 have digital accessors and pin 1 does not; the configuration is well-formed |
| BoardView.UartTestExistence | test/BoardView.cpp:87-100 | with one channel configured and the board running, channel 0 and its rx/tx exist and channel 1 and its rx/tx do not |
| Uart.Fifo.Write | test/BoardView.cpp:105 | write appends the longest prefix of the input that fits, accepts everything iff it fits, and stops short only when the stream is full |
| Uart.Fifo.Read | test/BoardView.cpp:112-113 | read returns the oldest bytes, as many as the buffer holds unless the stream runs empty, and what it returns followed by what remains is the old contents |
| Uart.Run | test/BoardView.cpp:103-127 | any sequence of writes and reads keeps the stream within its capacity |
| Uart.RunIsFifo | test/BoardView.cpp:114 | under any interleaving, buffered-before plus all accepted bytes equals all bytes read plus what remains: bytes come out in order, none lost or repeated |
| Uart.WriteThenDrain | test/BoardView.cpp:103-114 | N bytes that fit are all accepted into an empty stream; a read of size() bytes returns them in order and leaves the stream empty |
| Uart.ByteStream.constructor | test/BoardView.cpp:87 | a configured stream starts empty with its capacity |
| Uart.ByteStream.Size | test/BoardView.cpp:111-113 | size() never exceeds the capacity and is 0 exactly when nothing is buffered |
| Uart.ByteStream.Write | test/BoardView.cpp:105 | the new state and the returned count are those of Fifo.Write on the old state |
| Uart.ByteStream.Read | test/BoardView.cpp:112 | the new state and the bytes copied to the front of the buffer are those of Fifo.Read on the old state; the rest of the buffer is untouched |
| Uart.UartChannel.constructor | test/BoardView.cpp:87-96 | a configured channel has two distinct fresh streams, rx and tx, each empty with the capacity its configuration gives |

## Left out

- Toolchain environment check, sketch compilation and build logs: an external compiler process.
- Board lifecycle (`configure`, `attach_sketch`, `start`, `stop`) and configuration validation: only its outcome, the view's validity flag, is modelled; `WellFormed` states the configuration invariants without modelling the check that enforces them.
- Pin values (`write`/`read` of digital and analog accessors) and `test_pin_delayable`: the test observes them only through the sketch running in another thread.
- The sketch side: pin 2 mirroring the inverse of pin 0 and the UART echo from rx to tx; they depend on sketch sources and on scheduling between host and sketch.
- Sleep-and-poll loops and their timeouts: timing-driven host code, not part of the view.
- Field atomicity and torn-read freedom between host and sketch: concurrency properties outside a sequential model.
- `write`/`read` through the handle of a channel that does not exist: the stream model covers an existing channel only.
- Default UART buffer lengths: `UartChannelConfig` carries the rx and tx buffer lengths explicitly, since the defaults live in a header that is not part of this model.
- The `MSVC_DEBUG` conditional around the second UART exchange: a build-configuration detail.
