# MPSSE command streams for an FT232H driving a DAC and three ADCs

Four small C++ programs (`ftdi_readWrite.cpp`, `ftdi_test.cpp`,
`ftdi_testADC.cpp`, `ftdi_testGlobal.cpp`) drive an FT232H in MPSSE mode.
Each one fills a byte buffer with `buf[icmd++] = ...`, a command at a time.
Three of them (`ftdi_readWrite.cpp`, `ftdi_testADC.cpp`,
`ftdi_testGlobal.cpp`) also count the response bytes those commands will
make the chip send back, and decode that response into 12-bit ADC codes.
`ftdi_test.cpp` only writes: its read is commented out
(ftdi_test.cpp:253-255). The opcodes and length fields
follow section 3 of FTDI application note AN_108 ("Command Processor for
MPSSE and MCU Host Bus Emulation Modes"). Lengths go on the wire as
count − 1: `0x0002` means three bytes and a bit length of `0x03` means four
bits.

This project models that core in Dafny, at three levels.

- **Commands** (`mpsse.dfy`). An MPSSE stream is modelled as a list of
  `Command` values. The module has:
  - an encoder;
  - a parser that inverts the encoder, proved in both directions;
  - `ResponseLength`, the response-byte count under the count − 1 rule;
  - `ReadSlots`, a byte-by-byte interpreter that records which pin word was
    on the bus while each response byte was clocked in.
- **Transactions** (`pins.dfy`, `codes.dfy`, `transactions.dfy`). These are
  the pieces the programs repeat:
  - chip-select words;
  - DAC register writes with their payload packing;
  - one ADC conversion: select, one byte written while one is read, then four
    more bits;
  - the clock preamble and the idle trailer.

  The predicate `Shaped` bundles five facts about a list of commands:
  - it encodes;
  - every pin word it sets addresses at most one device;
  - its encoded size;
  - its response layout;
  - the pin word it leaves on the bus.
- **The programs** (`command_buffer.dfy`, `emit.dfy`, `ftdi_*.dfy`).
  - `CommandBuffer` is a class over a fixed `array<bv8>` with the write index
    `icmd` and the read counter `iread`.
  - Each helper of the C++ (`write_DAC80501`, `read_LTC230x_bitwise`, one loop
    iteration, ...) is a method that writes exactly the encoding of its
    transaction at the write index. Each one bumps the read counter by that
    transaction's response count and leaves the rest of the array alone.
  - Each `main` becomes a `Run` method. The `Run` of each of the three
    programs that read takes the received bytes as input and returns:
    - the setup stream and the measurement stream;
    - the expected response count;
    - the decoded codes when the read returned exactly that many bytes.

    `FtdiTest.Run` takes the sine values and returns only the two streams.

The source's decoding `for` loops are the `DecodeResponse` methods of
`ftdi_read_write.dfy`, `ftdi_test_adc.dfy` and `ftdi_test_global.dfy`. Each
is proved against the function `DecodeCodes` or `DecodeSamples` of
`decode.dfy`. These two functions are proved to be left
inverses of the response images, and to read only the bytes the counter
promised. `Statistic` is the integer sum `ftdi_readWrite.cpp` accumulates
over every frame except the first.

Values the C++ holds in `uint8_t` and `uint16_t` are `bv8` and `bv16` here,
so masks and shifts read as in the source. The narrowing casts are written
out (`Low8`).

### Notes on the source

- ftdi_readWrite.cpp:158-210 addresses the four devices back to back, with
  no idle word between them. Each device's select word is followed directly
  by its own transfer, and then by the next device's select word. The 36
  bytes per frame are 4 × 9. Exclusion still holds, because each select word
  addresses exactly one device.
- ftdi_readWrite.cpp:137-145 sends the configuration on its own and then
  clears the buffer. So the measurement stream is `36 * N + 3` bytes.
- `outToVolt` (ftdi_readWrite.cpp:61-62) reads a code as two's complement:
  bit 11 weighs −2048.

## Model

| member | source | states |
|---|---|---|
| Bytes.LengthOf | ftdi_readWrite.cpp:125-127 | the two length bytes of a byte transfer, low byte first, are exactly the low and high byte of the 16-bit length field they form |
| Bytes.LengthFieldRoundTrip | ftdi_readWrite.cpp:126-127 | splitting a length field into its two bytes and joining them again gives the field back |
| Bytes.Count | ftdi_readWrite.cpp:126 | a length field stands for between 1 and 65536 bytes (count − 1 rule) |
| Codes.Low8 | ftdi_readWrite.cpp:166-167 | the `(uint8_t)` cast is C's conversion to an unsigned 8-bit type: the result is the value modulo 256 |
| Codes.DacPayload12 | ftdi_readWrite.cpp:166-168 | the low nibble of the second payload byte is 0; `(hi << 4) \| (lo >> 4)` is the setpoint's low 12 bits; the 16-bit register image is those 12 bits left-justified |
| Codes.DacPayload12Injective | ftdi_readWrite.cpp:166-167 | two setpoints give the same payload exactly when their low 12 bits agree |
| Codes.BigEndian16 | ftdi_test.cpp:49-50 | `(hi << 8) \| lo` gives back the 16-bit value |
| Codes.BigEndian16Value | ftdi_test.cpp:49-50 | `hi * 256 + lo` equals the value as an integer |
| Codes.Dac60501Payload | ftdi_test.cpp:74-75 | as written, the first payload byte is always 0, and the second is 0x10 exactly when bit 3 of the value is set |
| Codes.Dac60501KeepsOnlyBit3 | ftdi_test.cpp:74-75 | as written, the payload depends on bit 3 of the value alone |
| Codes.Dac60501Collision | ftdi_test.cpp:74-75 | setpoints 0x000 and 0xFF7 send the same DAC60501 bytes, though the 12-bit packing tells them apart |
| Codes.Code12 | ftdi_readWrite.cpp:232-234 | a rebuilt code is below 4096; its high eight bits are the full byte, and its low four bits are the low nibble of the second byte |
| Codes.Code12Split | ftdi_readWrite.cpp:232 | every 12-bit code is rebuilt from its own two response bytes |
| Codes.Signed12 | ftdi_readWrite.cpp:61-62 | the integer part of `outToVolt` lies in [−2048, 2047] |
| Codes.Signed12Value | ftdi_readWrite.cpp:61-62 | it is the low 12 bits minus 4096 when bit 11 is set, and the low 12 bits otherwise (two's complement; the high nibble is ignored) |
| Codes.Signed12RoundTrip | ftdi_readWrite.cpp:61-62 | adding 4096 and reducing mod 4096 gives the 12-bit code back |
| Pins.SelectWordSelects | ftdi_testGlobal.cpp:119-159 | a select word clears its own chip-select bit, keeps every other one set, and differs from the idle word in that bit only |
| Pins.SafeWordCases | ftdi_readWrite.cpp:38-39 | a pin word is safe (only chip selects high, at most one low) exactly when it is the idle word or one of the four select words |
| Pins.SafeWordExclusive | ftdi_readWrite.cpp:159-200 | a safe word never pulls two different chip selects low |
| Pins.DirectionKeepsDataIn | ftdi_readWrite.cpp:39 | the direction word leaves DI an input and makes SK, DO and every chip select outputs |
| CommandBuffers.CommandBuffer.constructor | ftdi_readWrite.cpp:70-82 | `calloc`: a zeroed buffer of the given size with both counters at zero |
| CommandBuffers.CommandBuffer.Put | ftdi_readWrite.cpp:111 | `buf[icmd++] = b` appends `b` to the written part and shortens the unwritten part by one |
| CommandBuffers.CommandBuffer.ExpectRead | ftdi_readWrite.cpp:182 | `iread += n` changes the read counter by `n` and the write index not at all |
| CommandBuffers.CommandBuffer.Clear | ftdi_readWrite.cpp:144-145 | `memset` and `iWrite = 0`: every byte zero, nothing written, read counter kept |
| Mpsse.ParseOne | ftdi_readWrite.cpp:158-209 | a parsed command is well-formed, and its encoding is exactly the prefix it consumed |
| Mpsse.ParseShiftBytes | ftdi_readWrite.cpp:175-178 | a byte transfer parses to a well-formed command of length 3 + its payload, whose encoding is that prefix |
| Mpsse.ParseShiftBits | ftdi_readWrite.cpp:180-181 | a bit transfer parses to a well-formed command whose encoding is the prefix it consumed |
| Mpsse.ParseOneEncode | ftdi_readWrite.cpp:158-209 | parsing the encoding of a well-formed command, whatever follows it, gives the command and its encoded length |
| Mpsse.ParseEncodeAll | ftdi_readWrite.cpp:154-217 | a stream of well-formed commands parses back to exactly those commands |
| Mpsse.EncodeAllParse | ftdi_readWrite.cpp:154-217 | a byte stream that parses is exactly the encoding of the well-formed commands it parses to |
| Mpsse.EncodeAllAppend | ftdi_readWrite.cpp:154-217 | the encoding of two command lists one after the other is the two encodings one after the other |
| Mpsse.ResponseLengthAppend | ftdi_readWrite.cpp:182-210 | response counts add up over concatenation, as the `iRead += 2` steps do |
| Mpsse.ReadSlotsLength | ftdi_readWrite.cpp:175-182 | the interpreted response has exactly the number of bytes the count − 1 rule gives |
| Mpsse.ReadSlotsAppend | ftdi_readWrite.cpp:154-217 | the response of two lists is the first's response followed by the second's, run from the pin word the first leaves |
| Transactions.SelectShaped | ftdi_readWrite.cpp:171-173 | a select is 3 bytes, reads nothing, is safe and leaves exactly that device selected |
| Transactions.IdleShaped | ftdi_readWrite.cpp:215-217 | the trailer is the 3 bytes `SET_BITS_LOW`, idle word, direction word; it reads nothing and leaves the bus idle |
| Transactions.AdcConversionSound | ftdi_readWrite.cpp:171-181 | an ADC conversion is made of well-formed commands with safe pin words |
| Transactions.AdcConversionShaped | ftdi_readWrite.cpp:171-182 | an ADC conversion is 9 bytes and answers with two bytes, 8 bits then 4, both under that ADC's select word, which it leaves on the bus |
| Transactions.AdcConversionBytes | ftdi_readWrite.cpp:171-181 | the nine bytes of an ADC conversion, with length fields 0x0000 and 0x03 |
| Transactions.DacTransactionShaped | ftdi_readWrite.cpp:158-167 | a DAC register write is 9 bytes, reads nothing and leaves the DAC selected |
| Transactions.DacTransactionBytes | ftdi_readWrite.cpp:158-167 | the nine bytes of a DAC register write, with length field 0x0002 |
| Transactions.ClockSetupBytes | ftdi_readWrite.cpp:111-119 | the six clock-setup bytes; they are sound, read nothing and leave the pin word as it was |
| Transactions.AfterClockSetup | ftdi_readWrite.cpp:111-134 | putting the clock setup in front of a stream adds 6 bytes and changes nothing else about its shape |
| Transactions.BusSetupBytes | ftdi_test.cpp:126-134 | the nine setup bytes, ending with `SET_BITS_LOW`, idle word, direction word |
| Transactions.BusSetupShaped | ftdi_test.cpp:126-134 | the setup is 9 bytes, reads nothing and ends on the idle word |
| Transactions.ShapedAppend | ftdi_readWrite.cpp:158-210 | two shaped lists in a row add their sizes and concatenate their response layouts |
| Transactions.RepeatShaped | ftdi_readWrite.cpp:154-211 | `N > 0` frames of one shape are `N` times the size, with the layout tiled `N` times |
| Transactions.RepeatThenIdle | ftdi_readWrite.cpp:154-217 | for any `N`, the frames and the trailer are `size * N + 3` bytes with the layout tiled `N` times, ending idle |
| Emitters.PutPins | ftdi_readWrite.cpp:171-173 | appends exactly the three bytes of one `SET_BITS_LOW` |
| Emitters.PutThree | ftdi_readWrite.cpp:175-177 | appends exactly the three given bytes |
| Emitters.PutClockSetup | ftdi_readWrite.cpp:111-119 | appends exactly the clock setup |
| Emitters.PutBusSetup | ftdi_test.cpp:126-134 | appends exactly the nine-byte setup |
| Emitters.PutDacTransaction | ftdi_readWrite.cpp:158-167 | appends exactly one DAC register write; the read counter is unchanged |
| Emitters.PutAdcConversion | ftdi_readWrite.cpp:171-182 | appends exactly one ADC conversion and adds 2 to the read counter |
| Decoding.CodeAt | ftdi_testADC.cpp:225 | a decoded code is below 4096 |
| Decoding.DecodeCodesAt | ftdi_testADC.cpp:224-227 | `n` codes, code `k` built from bytes `2k` and `2k+1` |
| Decoding.DecodeSamplesAt | ftdi_readWrite.cpp:231-234 | `n` frames, ADC `j` of frame `k` built from bytes `6k+2j` and `6k+2j+1` |
| Decoding.DecodeCodesPrefix | ftdi_testADC.cpp:224-227 | the first `n` codes depend only on the first `2n` bytes |
| Decoding.DecodeSamplesPrefix | ftdi_readWrite.cpp:231-234 | the first `n` frames depend only on the first `6n` bytes |
| Decoding.DecodeCodesIgnoresHighNibble | ftdi_testADC.cpp:225 | changing the high nibble of any second byte changes no code |
| Decoding.DecodeSamplesIgnoresHighNibble | ftdi_readWrite.cpp:232-234 | in the three-ADC frames too, changing the high nibble of any second byte changes no frame |
| Decoding.CodeBytes | ftdi_readWrite.cpp:232 | the two response bytes of a code rebuild it |
| Decoding.DecodeCodesImage | ftdi_testADC.cpp:224-227 | decoding the response a list of codes produces gives the list back |
| Decoding.SampleBytes | ftdi_readWrite.cpp:232-234 | a frame's response is six bytes |
| Decoding.SampleBytesDecode | ftdi_readWrite.cpp:232-234 | a frame's six bytes decode, two at a time, to its three codes |
| Decoding.DecodeSamplesImage | ftdi_readWrite.cpp:231-234 | decoding the response a list of frames produces gives the list back |
| Decoding.StatisticRange | ftdi_readWrite.cpp:228-240 | the statistic is 0 for at most one frame, and otherwise between −2048 and 2047 per frame after the first |
| Decoding.StatisticSnoc | ftdi_readWrite.cpp:236-238 | one more frame adds its signed ADC0 value, unless it is the first frame |
| Decoding.StatisticIsSumOfLater | ftdi_readWrite.cpp:236-238 | the statistic is the plain sum of signed ADC0 values over frames 1 to N−1 |
| Decoding.StatisticSkipsFirst | ftdi_readWrite.cpp:236 | the first frame never affects the statistic |
| FtdiReadWrite.AdcSelect | ftdi_readWrite.cpp:172-200 | each ADC's select is a chip select other than the DAC's |
| FtdiReadWrite.ConfigBytes | ftdi_readWrite.cpp:111-134 | the configuration is exactly: the six clock bytes; the DAC select; a write of `CONFIG, 0x01, 0x00`; the idle word |
| FtdiReadWrite.ConfigShaped | ftdi_readWrite.cpp:111-134 | the configuration is 18 bytes, reads nothing, sets only safe pin words and ends idle |
| FtdiReadWrite.FrameBytes | ftdi_readWrite.cpp:158-210 | a frame is the DAC write followed by the three ADC conversions, in ADC order |
| FtdiReadWrite.ConversionsShaped | ftdi_readWrite.cpp:170-210 | the three conversions are 27 bytes and answer with two bytes per ADC, in order |
| FtdiReadWrite.FrameShaped | ftdi_readWrite.cpp:158-210 | a frame is 36 bytes with six response bytes, sets only safe pin words and ends with ADC2 selected |
| FtdiReadWrite.FrameSlotsAt | ftdi_readWrite.cpp:170-210 | frame response bytes `2j` and `2j+1` are ADC `j`'s full byte and its four bits |
| FtdiReadWrite.RunShaped | ftdi_readWrite.cpp:154-217 | the measurement stream for `N` setpoints is `36N + 3` bytes with `6N` response bytes, sets only safe pin words, and ends idle |
| FtdiReadWrite.RunSize | ftdi_readWrite.cpp:154-217 | `iWrite == 36N + 3` and `iRead == 6N` |
| FtdiReadWrite.RunParses | ftdi_readWrite.cpp:154-217 | the measurement stream parses back into its commands |
| FtdiReadWrite.RunLayout | ftdi_readWrite.cpp:154-217 | the response of the whole stream is the frame layout `N` times |
| FtdiReadWrite.RunSlots | ftdi_readWrite.cpp:170-210 | response byte `6k+2j` is clocked in while only ADC `j` is selected, and so is `6k+2j+1`, the four-bit one |
| FtdiReadWrite.WriteConfiguration | ftdi_readWrite.cpp:111-134 | appends exactly the 18 configuration bytes and leaves the rest of the array alone |
| FtdiReadWrite.WriteFrame | ftdi_readWrite.cpp:158-210 | appends exactly one frame (36 bytes) and adds 6 to `iRead` |
| FtdiReadWrite.CompileSetpoints | ftdi_readWrite.cpp:154-217 | appends the frames and the trailer, and adds `6N` to `iRead` |
| FtdiReadWrite.DecodeResponse | ftdi_readWrite.cpp:231-240 | yields `iRead / 6` frames, equal to the decoding of the buffer, and the sum of signed ADC0 values over every frame but the first |
| FtdiReadWrite.BuildStreams | ftdi_readWrite.cpp:111-217 | returns the configuration stream, the measurement stream (`36N + 3` bytes) and `iRead == 6N` |
| FtdiReadWrite.Run | ftdi_readWrite.cpp:229-240 | decodes exactly when the read returned `iRead` bytes; otherwise no frames and a zero statistic |
| FtdiTest.Dac80501Bytes | ftdi_test.cpp:40-55 | `write_DAC80501` is these 12 bytes, and its payload reads back as the value |
| FtdiTest.Dac80501Shaped | ftdi_test.cpp:40-55 | `write_DAC80501` reads nothing, sets only safe pin words and leaves the bus idle |
| FtdiTest.WriteDac80501 | ftdi_test.cpp:40-55 | appends exactly 12 bytes and writes nothing outside them |
| FtdiTest.SineDac | ftdi_test.cpp:62-66 | appends one `write_DAC80501` per value, `12N` bytes in all |
| FtdiTest.SineStreamShaped | ftdi_test.cpp:62-66 | the sine stream is `12N` bytes, reads nothing and ends idle |
| FtdiTest.Dac60501Bytes | ftdi_test.cpp:69-76 | `write_DAC60501` is six bytes; the fifth is 0 and the sixth is 0x10 exactly when bit 3 is set |
| FtdiTest.WriteDac60501 | ftdi_test.cpp:69-76 | appends exactly those six bytes |
| FtdiTest.Ltc230xReadShape | ftdi_test.cpp:78-83 | `read_LTC230x` is `MPSSE_DO_READ, 0x01, 0x00` and asks for two full bytes |
| FtdiTest.ReadLtc230x | ftdi_test.cpp:78-83 | appends those 3 bytes and adds 2 to `iread` |
| FtdiTest.Ltc230xBitwiseBytes | ftdi_test.cpp:85-93 | `read_LTC230x_bitwise` is five bytes, ending in bit length 0x03 |
| FtdiTest.Ltc230xBitwiseShape | ftdi_test.cpp:85-93 | it asks for one full byte and one four-bit byte and leaves the pins as they were |
| FtdiTest.ReadLtc230xBitwise | ftdi_test.cpp:85-93 | appends those 5 bytes and adds 2 to `iread` |
| FtdiTest.Run | ftdi_test.cpp:124-165 | the setup stream is the nine-byte setup; the second stream is the sine stream, `12 * 20000` bytes |
| FtdiTestAdc.BitwiseReadBytes | ftdi_testADC.cpp:86-102 | this file's `read_LTC230x_bitwise` is 11 bytes: select L0, the five read bytes, the idle word |
| FtdiTestAdc.BitwiseReadShaped | ftdi_testADC.cpp:86-102 | both of its response bytes are clocked in while only L0 is low, and it ends idle |
| FtdiTestAdc.ReadLtc230xBitwise | ftdi_testADC.cpp:86-102 | appends those 11 bytes and adds 2 to `iread` |
| FtdiTestAdc.FrameBytes | ftdi_testADC.cpp:171-193 | a loop iteration is these 18 bytes, and its DAC payload reads back as the value |
| FtdiTestAdc.FrameShaped | ftdi_testADC.cpp:171-194 | an iteration is 18 bytes with two response bytes under the ADC's select |
| FtdiTestAdc.RunShaped | ftdi_testADC.cpp:167-199 | `18N + 3` bytes and `2N` response bytes, only safe pin words, ending idle |
| FtdiTestAdc.RunSize | ftdi_testADC.cpp:167-199 | `icmd == 18N + 3` and `iread == 2N` |
| FtdiTestAdc.RunLayout | ftdi_testADC.cpp:167-199 | the response is the conversion layout `N` times |
| FtdiTestAdc.RunSlots | ftdi_testADC.cpp:182-194 | response bytes `2k` and `2k+1` are the full byte and the four bits of conversion `k` |
| FtdiTestAdc.WriteFrame | ftdi_testADC.cpp:171-194 | appends exactly one iteration and adds 2 to `iread` |
| FtdiTestAdc.CompileSamples | ftdi_testADC.cpp:167-199 | appends the iterations and the trailer, and adds `2N` to `iread` |
| FtdiTestAdc.DecodeResponse | ftdi_testADC.cpp:224-228 | yields `iread / 2` codes, in order, equal to the decoding of the buffer |
| FtdiTestAdc.BuildStreams | ftdi_testADC.cpp:141-199 | returns the setup stream, the measurement stream (`18 * 125000 + 3` bytes) and `iread == 2 * 125000` |
| FtdiTestAdc.Run | ftdi_testADC.cpp:222-228 | decodes exactly when the read returned `iread` bytes; otherwise no codes |
| FtdiTestGlobal.AdcSelect | ftdi_testGlobal.cpp:131-159 | each ADC's select is a chip select other than the DAC's CS0 |
| FtdiTestGlobal.DacValuePayload | ftdi_testGlobal.cpp:115-127 | `dacVal = 0` goes out big-endian as the payload bytes `0x00, 0x00` |
| FtdiTestGlobal.FrameBytes | ftdi_testGlobal.cpp:118-169 | an iteration is the DAC write followed by the three unipolar falling-edge conversions |
| FtdiTestGlobal.ConversionsShaped | ftdi_testGlobal.cpp:129-169 | the three conversions are 27 bytes and answer with two bytes per ADC, in order |
| FtdiTestGlobal.FrameShaped | ftdi_testGlobal.cpp:118-169 | an iteration is 36 bytes with six response bytes, sets only safe pin words and ends with ADC2 selected |
| FtdiTestGlobal.FrameSlotsAt | ftdi_testGlobal.cpp:129-169 | iteration response bytes `2j` and `2j+1` belong to ADC `j` |
| FtdiTestGlobal.RunShaped | ftdi_testGlobal.cpp:113-175 | `36N + 3` bytes and `6N` response bytes, only safe pin words, ending idle |
| FtdiTestGlobal.RunSize | ftdi_testGlobal.cpp:113-175 | `iWrite == 36N + 3` and `iRead == 6N` |
| FtdiTestGlobal.RunLayout | ftdi_testGlobal.cpp:113-175 | the response is the iteration layout `N` times |
| FtdiTestGlobal.RunSlots | ftdi_testGlobal.cpp:129-169 | response byte `6k+2j` and `6k+2j+1` are clocked in while only ADC `j` is selected |
| FtdiTestGlobal.WriteFrame | ftdi_testGlobal.cpp:118-169 | appends exactly one iteration (36 bytes) and adds 6 to `iRead` |
| FtdiTestGlobal.CompileFrames | ftdi_testGlobal.cpp:113-175 | appends the iterations and the trailer, and adds `6N` to `iRead` |
| FtdiTestGlobal.DecodeResponse | ftdi_testGlobal.cpp:186-191 | yields `iRead / 6` frames, equal to the decoding of the buffer |
| FtdiTestGlobal.BuildStreams | ftdi_testGlobal.cpp:93-175 | returns the setup stream, the measurement stream (`36 * 600000 + 3` bytes) and `iRead == 6 * 600000` |
| FtdiTestGlobal.Run | ftdi_testGlobal.cpp:185-191 | decodes exactly when the read returned `iRead` bytes; otherwise no frames |

## Left out

- USB and libftdi calls (`ftdi_init`, `ftdi_usb_open`, the bitmode, chunk-size and purge calls, `ftdi_write_data`, `ftdi_read_data`, `ftdi_usb_close`). These are foreign calls. Each `Run` returns the streams that would be written, and takes the bytes the read returned as a parameter.
- File and console I/O: reading `in.csv` with `std::stoi`, the CSV output, and the messages. The setpoints are a `seq<bv16>` parameter, so the `(uint16_t)` cast at ftdi_readWrite.cpp:155 is already applied.
- Floating point. The scaling step of `outToVolt` (ftdi_readWrite.cpp:63) and the average at ftdi_readWrite.cpp:242 are left out. That average divides by zero for a single setpoint. `Statistic` is the sum of the integer parts (line 62) that `res` would accumulate before scaling.
- The `sin`-based values of `sine_dac` (ftdi_test.cpp:63) and of the `ftdi_testADC.cpp` loop (line 168). They are any `bv16` values, passed in with the count the source uses.
- `calloc` failure, `free` and `nanosleep`.
- The write check at ftdi_testADC.cpp:205-210. It compares a constant 0 with `icmd`, so it is reporting, not protocol.
- The commented-out blocks of ftdi_test.cpp (147-163, 168-235).
- `read_LTC230x`, `read_LTC230x_bitwise` and `write_DAC60501` are never called by any `main`. They are modelled as methods on their own.
- TMS commands are not parsed. `ParseOne` returns `None` for TMS commands (bit 0x40 set), for every other opcode with bit 0x80 set except 0x80, 0x86, 0x8A, 0x8D and 0x97, for shifting opcodes with neither 0x10 nor 0x20 set, for bit lengths above 7, and for a command the end of the input cuts short. It parses every other data-shifting opcode, including those the programs never send.
- The source writes with no bounds check. Each method instead requires room in the buffer for what it writes. In ftdi_test.cpp, ftdi_testADC.cpp and ftdi_testGlobal.cpp the frame count is a constant, and the buffer has room for it.
- FtdiReadWrite.BuildStreams and FtdiReadWrite.Run require `36 * N + 3 <= 100000000` (`Osci::bufSize`, ftdi_readWrite.cpp:16), that is, at most 2777777 setpoints. The source does not enforce this limit on its input. `N` is the number of lines of `in.csv` (ftdi_readWrite.cpp:149-156), and a longer file makes the C++ write past the end of `writeBuf`. The model does not describe that overflow.
- FtdiReadWrite.CompileSetpoints, FtdiTest.SineDac, FtdiTestAdc.CompileSamples and FtdiTestGlobal.CompileFrames state the bytes they write and the new read counter. They do not state that the array past the new write index is unchanged, as the single-transaction methods do. Only `buf[..icmd]` is ever sent.
- The source comment at ftdi_test.cpp:91 and ftdi_testADC.cpp:96 reads bit length `0x03` as three bits. Under AN_108 it is four, and the model uses four.
- Integer widths: `iWrite` and `iRead` are `int32_t` and `icmd` is `unsigned int` in the source. They are `nat` here. The counts stay below 2^31, because the buffer is at most `Osci::bufSize` = 100000000 bytes (ftdi_readWrite.cpp:16).

## Findings

| source | as written | input that shows it | evidently intended | confidence | as-written member | corrected member |
|---|---|---|---|---|---|---|
| ftdi_test.cpp:74-75 (copied at ftdi_testADC.cpp:75-76) | `write_DAC60501` masks `((val & 0x0FF0) << 1)` with `0xFF00` and then narrows it to `unsigned char`, so the first payload byte is always 0. It shifts the low nibble by one and masks it with `0x00F0`, so only bit 3 survives, as 0x10. | `val = 0x0000` and `val = 0x0FF7` both send `0x00, 0x00` | The DAC60501's 12 bits left-justified in the register image: `(val & 0x0FF0) >> 4` then `(val & 0x000F) << 4`, as ftdi_readWrite.cpp:166-167 sends for the same DAC family. They are told apart, since two setpoints give the same payload exactly when their 12 bits agree. | not executed | Codes.Dac60501Collision | Codes.DacPayload12Injective |

`FtdiTest.WriteDac60501` keeps the bytes as written, because it models that
function. No stream any `main` builds calls it. The frames of
`ftdi_readWrite.cpp` use that program's own packing, written at
ftdi_readWrite.cpp:166-167. It is `Codes.DacPayload12`, which the
Findings row gives as the fix for `write_DAC60501`.
