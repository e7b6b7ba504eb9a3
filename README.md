# Breath-sensor protocol model

This project is a Dafny model of the sensor side of a breathing-exercise
program. The program talks to a capacitive breath sensor over a serial line.
It sends ASCII commands, each one line ended by CR LF, and reads the device's
answer line. In streaming mode it reads lines of interleaved integer readings
for two channels. The model covers:

- the decoding of a stream line (`Sensor.read_stream`). The line is cleaned
  with the regular expression `[^0-9^ ]`, split into tokens, each token is
  read as an integer and divided by the factor 1000, and the values are
  de-interleaved into channel 1 (even positions) and channel 2 (odd
  positions). Module `Codec`, with decimal digits in `Decimal`.
- the command encoders, `check_battery` to `measure_capacitance`, in module
  `Commands`.
- the `Sensor` object as a class, in module `Device`. The class holds the
  log of commands written and the sequence of lines the device sends, with a
  read cursor. `send_command` is one write followed by one line read.
- `record_stream`, `calibrate` and the producer loop `data_puller`, in module
  `Acquisition`.
- the data queue's eviction-then-put step, in module `Streaming`.

Python exceptions are modelled as `Results.Result` values:
- `InvalidLiteral` is `int()` failing on a token that holds a caret.
- `DivisionByZero` is `//` or `/` by zero.

## Behaviour notes

How the code behaves where a reader might expect otherwise:

- The queue holds up to eleven values after a put. Eviction runs only while
  the queue holds more than ten, so pushing 1..11 into an empty queue keeps
  all eleven, and a twelfth push evicts 1 (`Streaming.PushElevenKeepsAll`).
- An empty line and an odd token count are not rejected. A line with neither
  digits nor carets decodes to two empty channels (`Codec.DecodeNoDigits`).
  Channel 1 takes the extra value of an odd count (`Codec.DecodeOddCount`).
- A caret survives cleaning: in `[^0-9^ ]` the second caret is literal. The
  token holding it fails `int()` and the whole read fails
  (`Codec.DecodeCaretFails`, `Codec.DecodeFailsIffCaret`).
- An exception from `read_stream` ends `data_puller`: the failed line is not
  skipped (`Acquisition.PullRounds`, `Acquisition.DataPuller`).

## Model

| member | source | states |
|---|---|---|
| Decimal.DigitsValue | src/leap.py:81 | the value `int()` gives a run of digits; `NatToDecimalRoundTrip` ties it to `str` |
| Decimal.NatToDecimal | src/leap.py:73 | `str(n)` for a natural number is a non-empty run of digits without a leading zero; `NatToDecimalRoundTrip` fixes its value |
| Decimal.NatToDecimalRoundTrip | src/leap.py:73 | `str(n)` for a natural number reads back as n |
| Decimal.IntToDecimalRoundTrip | src/leap.py:73 | `str(n)` for any integer, sign included, reads back as n |
| Decimal.IntToDecimal | src/leap.py:76 | `str(n)` is non-empty, made of digits, with a leading '-' exactly for negative n |
| Codec.Clean | src/leap.py:82 | the cleaned line is no longer than the input and holds only digits, spaces and carets |
| Codec.CleanCounts | src/leap.py:82 | each kept character occurs as often as in the input; every other character is gone |
| Codec.CleanAppend | src/leap.py:82 | cleaning works character by character: cleaning a concatenation concatenates the cleaned parts |
| Codec.CleanFixedPoints | src/leap.py:82 | a line is left unchanged exactly when it holds only kept characters |
| Codec.CleanIdempotent | src/leap.py:82 | cleaning twice is cleaning once |
| Codec.Word | src/leap.py:82 | a word is a space-free prefix of its input that ends at a space or at the end |
| Codec.Tokens | src/leap.py:82 | `split()` yields non-empty tokens without spaces; `TokensSplitAtSpace`, `TokensOfWord` and `TokensOfSpaces` fix the result on every line |
| Codec.WordOfToken | src/leap.py:82 | a space-free token followed by a space or the end is read back as one word |
| Codec.TokensSkipLeadingSpaces | src/leap.py:82 | leading spaces do not change the tokens |
| Codec.TokensOfWord | src/leap.py:82 | a non-empty run without spaces is one token |
| Codec.TokensSplitAtSpace | src/leap.py:82 | a space separates: the tokens of a + " " + b are those of a then those of b, so splitting drops spaces and keeps every other character in order |
| Codec.TokensOfTwoSpaces | src/leap.py:82 | "12  34" splits into "12" and "34": a run of spaces separates like one space |
| Codec.TokensOfDashedLine | src/leap.py:82 | "12 - 34" cleans to "12  34" and splits into "12" and "34" |
| Codec.TokensJoin | src/leap.py:82 | tokens joined by single spaces, with trailing spaces, split back into the same tokens |
| Codec.WordOnlyKept | src/leap.py:82 | a word of a cleaned line holds only digits and carets |
| Codec.TokensOfCleanLine | src/leap.py:82 | every token of a cleaned line is made of digits and carets only |
| Codec.TokensOfSpaces | src/leap.py:82 | a line of spaces only has no tokens |
| Codec.TabMergesTokens | src/leap.py:82 | a tab is deleted, so "12\t34" gives the single token "1234" |
| Codec.ParseToken | src/leap.py:81 | `int(t)` on a cleaned token succeeds exactly on a non-empty run of digits, otherwise it fails with the literal error |
| Codec.TokenValues | src/leap.py:80-82 | the map over tokens succeeds exactly when every token parses; it keeps one value per token, in order |
| Codec.LineValues | src/leap.py:80-82 | the integers of a raw line before scaling; `DecodeFailsIffCaret` states when they exist and `LineValuesOfFour` gives an instance |
| Codec.Scale | src/leap.py:81 | a scaled value is nonnegative and times 1000 gives back the integer |
| Codec.ScaleAll | src/leap.py:80-81 | scaling keeps the length and scales each value in place |
| Codec.Evens | src/leap.py:83 | `s[0::2]` has ceil(n/2) elements, element i being s[2i] |
| Codec.Odds | src/leap.py:84 | `s[1::2]` has floor(n/2) elements, element i being s[2i+1] |
| Codec.Interleave | src/leap.py:83-84 | alternating two channels gives a sequence of their total length |
| Codec.InterleaveEvensOdds | src/leap.py:83-84 | re-interleaving channel 1 and channel 2 reconstructs the values |
| Codec.EvensOddsInterleave | src/leap.py:83-84 | de-interleaving an interleaving gives back both channels |
| Codec.Decode | src/leap.py:78-85 | on success \|ch1\| is \|ch2\| or \|ch2\|+1 and every value is nonnegative; failure is the literal error |
| Codec.DecodeFailsIffCaret | src/leap.py:79-82 | a read fails exactly when some token of the cleaned line holds a caret |
| Codec.DecodeDeinterleaves | src/leap.py:80-85 | ch1[i] is value 2i scaled and ch2[i] is value 2i+1 scaled, token order kept, and re-interleaving gives all scaled values |
| Codec.DecodeNoDigits | src/leap.py:79-85 | a line with no digits and no caret decodes to two empty channels without error |
| Codec.JoinFourValues | src/leap.py:82 | four tokens joined by spaces give "12 34 56 78" |
| Codec.TokensOfFourValues | src/leap.py:82 | "  12 34 56 78  " splits into the four tokens |
| Codec.LineValuesOfFour | src/leap.py:80-82 | "  12 34 56 78  " reads as the integers 12, 34, 56, 78 |
| Codec.ValuesOfFourTokens | src/leap.py:80-81 | the four tokens parse to 12, 34, 56, 78 |
| Codec.TokensOfThreeValues | src/leap.py:82 | "1 2 3" splits into three tokens |
| Codec.DecodeFourValues | src/leap.py:78-85 | "  12 34 56 78  " decodes to channel 1 [0.012, 0.056] and channel 2 [0.034, 0.078] |
| Codec.DecodeOddCount | src/leap.py:83-84 | an odd count is not rejected: "1 2 3" gives channel 1 two values and channel 2 one |
| Codec.DecodeCaretFails | src/leap.py:81-82 | "7 1^2" keeps its caret, so the read fails |
| Commands.SetStreamMethod | src/leap.py:55-61 | the two stream-method commands; `SetStreamMethodRoundTrip` and `EncodersInjective` state what they carry |
| Commands.SetStream | src/leap.py:63-67 | the two stream on/off commands; `SetStreamRoundTrip` and `EncodersInjective` state what they carry |
| Commands.SetPacketSize | src/leap.py:72-73 | the packet-size command with `str(size)`; `SetPacketSizeRoundTrip` and `EncodersInjective` state what it carries |
| Commands.MeasureCapacitance | src/leap.py:75-76 | the capacitance query with `str(channel)`; `MeasureCapacitanceRoundTrip` and `EncodersInjective` state what it carries |
| Commands.SetStreamMethodRoundTrip | src/leap.py:55-61 | the stream-method command is one CR LF line selecting ASCII exactly when asked |
| Commands.SetStreamRoundTrip | src/leap.py:63-67 | the stream command is one CR LF line carrying 1 when truthy and 0 otherwise |
| Commands.SetPacketSizeRoundTrip | src/leap.py:72-73 | the packet-size command is one CR LF line from which the device reads back the size |
| Commands.MeasureCapacitanceRoundTrip | src/leap.py:75-76 | the capacitance query is one CR LF line from which the device reads back the channel |
| Commands.QueriesFramed | src/leap.py:49-70 | the battery, stream-method and stream queries are single CR LF lines |
| Commands.EncodersInjective | src/leap.py:55-76 | different arguments always give different commands |
| Commands.DefaultCommands | src/leap.py:72-76 | the defaults write "conf:bank1:pack 3\r\n" and "meas:ch1:cap?\r\n"; a negative size keeps its sign |
| Device.Sensor.constructor | src/leap.py:23-38 | a new connection has written nothing and read nothing |
| Device.Sensor.ReadLine | src/leap.py:45 | a readline returns the next device line and consumes it |
| Device.Sensor.SendCommand | src/leap.py:42-47 | one write of the command, then one line read, which is the answer |
| Device.Sensor.CheckBattery | src/leap.py:49-50 | writes the battery query and reads one line |
| Device.Sensor.GetStreamMethod | src/leap.py:52-53 | writes the stream-method query and reads one line |
| Device.Sensor.SetStreamMethod | src/leap.py:55-61 | writes the stream-method command for the flag and reads one line |
| Device.Sensor.SetStream | src/leap.py:63-67 | writes the stream on/off command and reads one line |
| Device.Sensor.GetStream | src/leap.py:69-70 | writes the stream query and reads one line |
| Device.Sensor.SetPacketSize | src/leap.py:72-73 | writes the packet-size command and reads one line |
| Device.Sensor.MeasureCapacitance | src/leap.py:75-76 | writes the capacitance query and reads one line |
| Device.Sensor.ReadStream | src/leap.py:78-85 | consumes one line, writes nothing, and returns its decoding |
| Streaming.DataQueue.constructor | src/main.py:95 | the queue `data_puller` is given starts empty |
| Streaming.Evicted | src/leap.py:129-130 | the queue after the eviction loop; `PushedWindow` states what survives |
| Streaming.Pushed | src/leap.py:129-131 | one eviction-then-put step; `PushedWindow` states it keeps the newest eleven with v last |
| Streaming.PushAll | src/leap.py:126-131 | the steps for a run of values; `PushAllWindow`, `PushAllBound` and `PushAllAppend` state what it keeps |
| Streaming.DataQueue.Push | src/leap.py:129-131 | the eviction loop followed by the put leaves the queue as `Pushed` of the old contents |
| Streaming.PushedWindow | src/leap.py:129-131 | one push keeps the newest eleven values of the queue followed by v, at most eleven, with v last; a queue of ten or fewer loses nothing |
| Streaming.WindowAppend | src/leap.py:129-131 | trimming to eleven before appending makes no difference once the result is trimmed |
| Streaming.PushAllWindow | src/leap.py:126-131 | pushing a run of values leaves the newest eleven of old queue plus run, in order |
| Streaming.PushAllBound | src/leap.py:126-131 | after any put the queue holds at most eleven values; nothing is lost while the total stays within eleven |
| Streaming.PushAllAppend | src/leap.py:124-131 | pushing two runs in turn is pushing their concatenation |
| Streaming.PushElevenKeepsAll | src/leap.py:126-131 | pushing 1..11 into an empty queue keeps [1..11]; a twelfth push gives [2..12] |
| Acquisition.FloorDiv | src/leap.py:93 | Python's `//`; `FloorDivBounds` states it is the floor quotient |
| Acquisition.ReadCount | src/leap.py:93 | the number of iterations of `range(num_samples // num_packets)`; `ReadCountCovers` states how many samples they cover |
| Acquisition.FloorDivBounds | src/leap.py:93 | `a // b` is the floor quotient: q*b <= a < q*b+b for positive b, mirrored for negative b |
| Acquisition.ReadCountCovers | src/leap.py:93 | for positive operands the reads times the packet size are num_samples minus its remainder, and equal num_samples exactly when the packet size divides it |
| Acquisition.Trunc | src/leap.py:97 | `int(x)` rounds toward zero: within one below x for x >= 0, within one above x for x < 0 |
| Acquisition.SumTrunc | src/leap.py:97 | `sum([int(c) for c in data])`; `SumTruncAppend` and `Trunc` state what it adds up |
| Acquisition.SumTruncAppend | src/leap.py:95-97 | the sum of truncations of a concatenation is the sum of the parts' sums, as `data += ch1` accumulates |
| Acquisition.TruncScale | src/leap.py:81 | `int` of a decoded value is its token divided by 1000, rounded down |
| Acquisition.Collect | src/leap.py:93-95 | a run of reads reads at most n lines; all n when no read fails, at least one when one fails |
| Acquisition.CollectKeepsFailure | src/leap.py:93-95 | once a read has failed, nothing after it is read |
| Acquisition.CollectStopsAtFirstFailure | src/leap.py:93-95 | a run fails exactly when one of its lines fails to decode, and then it stops at the first such line with that line's error |
| Acquisition.CollectCounts | src/leap.py:93-95 | n reads of k channel-1 values each gather n*k values without failure |
| Acquisition.ReadPackets | src/leap.py:93-95 | the read loop consumes the lines that `Collect` reads, writes nothing, and returns its data and failure |
| Acquisition.RecordedAverage | src/leap.py:88-98 | the result of `record_stream`; `RecordedScript`, `RecordedFullPackets` and `ShortfallLowersAverage` state its properties |
| Acquisition.RecordedCommands | src/leap.py:90-96 | the commands `record_stream` writes; `RecordedScript` states their order |
| Acquisition.RecordedLines | src/leap.py:90-96 | the lines `record_stream` reads; `RecordedScript` states their number |
| Acquisition.RecordStream | src/leap.py:88-98 | result, commands written and lines read are those of `RecordedAverage`, `RecordedCommands` and `RecordedLines` |
| Acquisition.RecordedScript | src/leap.py:88-98 | commands are packet size, off, on, then off after a complete run; `//` by zero fails after the three set-up commands; a success reads num_samples // num_packets stream lines plus four answers |
| Acquisition.RecordedFullPackets | src/leap.py:93-97 | with full packets the data holds num_samples rounded down to a multiple of num_packets values, all of them exactly when num_packets divides num_samples |
| Acquisition.ShortfallLowersAverage | src/leap.py:93-97 | when fewer values than requested are gathered, the reported average is below their mean |
| Acquisition.Calibrate | src/leap.py:101-118 | two `record_stream(sensor, 100)` runs, inhale then exhale; an exception in the inhale run ends calibration before the exhale run |
| Acquisition.CalibrationScript | src/leap.py:107 | a successful phase sends packet size 5, off, on, off and reads 24 lines |
| Acquisition.PushValues | src/leap.py:126-131 | putting the values one at a time leaves the queue as `PushAll` of them |
| Acquisition.PullFrame | src/leap.py:125-131 | one read; on success its channel-1 values are pushed in order, on failure the queue is unchanged |
| Acquisition.PullRounds | src/leap.py:124-131 | the producer loop reads the lines `Collect` reads and pushes exactly the channel-1 values gathered, in arrival order |
| Acquisition.DataPuller | src/leap.py:121-133 | stream on, the loop, then stream off unless a read failed; the queue ends as `PushAll` of all channel-1 values gathered |

## Left out

- Serial port set-up (src/leap.py:29-38), `loguru` logging and `time.sleep` in `calibrate`: device I/O. The connection is a log of written commands plus a given sequence of incoming lines.
- Device.Sensor.ReadStream: the UTF-8 decoding of the raw bytes (src/leap.py:79) is not modelled; lines are strings, so a decoding failure cannot occur.
- Device.Sensor: the device is taken to answer every read. Timeouts, disconnects and an infinite blocking read are not modelled.
- Codec.Decode and Codec.DecodeFailsIffCaret: the integer-to-float division `int(v) / self.factor` (src/leap.py:81) raises OverflowError when the quotient is beyond the float range, that is for a caret-free token of about 313 digits or more. The model decodes such a line, so the read also fails on such lines, not only on a caret, and its failure is then not the literal error. On interpreters with the default limit on integer string conversion, `int()` and `str()` also raise ValueError past 4300 digits; the model has no such limit, here or in `Commands.SetPacketSize` and `Commands.MeasureCapacitance`.
- Acquisition.RecordedAverage: the final `/ (num_samples)` (src/leap.py:97) raises OverflowError when the sum of the truncated values divided by num_samples is beyond the float range; the model returns the exact quotient.
- Codec.Scale and Acquisition.RecordedAverage: `int(v) / factor` and the final `/ num_samples` are exact `real` divisions, so floating-point rounding is not modelled. `int(c)` is modelled as truncation of the exact value.
- Codec.ParseToken: Python's `int()` also accepts signs, underscores and surrounding whitespace. None of these survives cleaning and splitting, so the model reads only digit runs.
- Acquisition.DataPuller: the `msg_q` stop channel is replaced by `rounds`, the number of checks that find it empty. The final `msg_q.get()` and its log line are left out.
- Acquisition.DataPuller: it takes the sensor as a parameter instead of constructing `Sensor()` itself. It starts from any queue contents and cursor.
- Concurrency: the thread-safe queue, the consumer's concurrent `get` and the threads are left out. The push step is modelled single-threaded.
- Device.Sensor.SetStream and Device.Sensor.SetStreamMethod take a `bool` for Python's truthiness of the argument. `record_stream` passes 0 and 1, which are false and true.
- The unused `BATTERY_MIN`/`BATTERY_MAX` fields (src/leap.py:25-26) have no behaviour.
- The main program's call of `data_puller` with four arguments is not part of this model. Neither is anything else in the rendering and filter code.
