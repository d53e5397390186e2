# evremote2 lircd readers

This project models two remote-control drivers of evremote2. Each turns the
lines that the lircd daemon broadcasts on its socket into internal key codes.

lircd writes one line per decoded button:

    <code, 16 hex digits> <repeat count, at least 2 hex digits> <button name> <remote name>\n

- **LircdName** (`tools/evremote2/LircdName.c`) scans that line with
  `sscanf("%*x %x %29s")`. A name that ends in `&` is the long-push code of a
  key: the `&` is taken off and the repeat count goes up by one. The reader
  then looks the name up in its key table. A fresh press (repeat count 0) is
  debounced against the last accepted press: the same key within 300 ms is
  dropped, and any key within 200 ms is dropped. Each accepted fresh press
  starts a new generation (`nextflag`). The reader returns
  `code + (nextflag << 16)`, `-1` for a dropped or unreadable line, and `0`
  for an unknown name. Its state is the static variables `LastKeyCode`,
  `LastKeyName`, `LastKeyPressedTime` and `nextflag`. The model keeps them in
  the fields of the class `LircdName.Reader`. `Reader.Read` updates those
  fields in place. It is proved against `LircdName.Step`, a function of the
  old state, the bytes received and the time of the read.
- **Spark** (`evremote2/Spark.c`) keeps no state. It picks characters at fixed
  offsets of the line. For a repeat count below 256, offsets 17-18 hold the repeat count; atoi of it must be
  a multiple of 3, otherwise the read yields `-1`. Offsets 14-15 hold the low
  byte of the lircd code; they are looked up as a token in the Edision
  argus-spark table. `Spark.Read` is a function.

Module layout:
- `Buttons`: the key tables and the first-match lookup both readers use.
- `CText`: the C-library text handling involved: C strings, `isspace`,
  `%x`, `%Ns`, `atoi`, and the `%0Nx` formatting lircd uses.
- `LircdLine`: the line lircd prints.
- `LircdName`, `Spark`: the two readers.
- `Keys`: the key-code constants.
- `Wrappers`: `Option`.

## Model

| member | source | states |
|---|---|---|
| LircdName.Reader.Read | tools/evremote2/LircdName.c:274-348 | One read updates the reader's fields and returns exactly what `Step` gives for the old state, the received bytes and the time of the read. |
| LircdName.Reader.constructor | tools/evremote2/LircdName.c:230-314 | The reader starts with `LastKeyCode = -1`, no name and time 0 (lines 230-232), and generation 0 (the `nextflag` initialiser at line 314), over the table `cButtons_LircdName`. |
| LircdName.Step | tools/evremote2/LircdName.c:274-348 | One read as a function of the state, the received bytes and the time: an unparseable line yields -1 and keeps the state, and a parsed frame goes on to `Deliver`. Its contract: a read either keeps the state or records the time of the read, and raises the generation by at most one. |
| LircdName.Deliver | tools/evremote2/LircdName.c:309-345 | The read after the scan: an unknown name yields 0, a fresh press that is `TooSoon` yields -1, and otherwise the press is recorded and the code plus the generation shifted by 16 is returned. Its contract: the state is kept, or it records the time of the read and the name; the generation rises by at most one, and only for a fresh press. |
| LircdName.Parse | tools/evremote2/LircdName.c:288-307 | The frame of a read: the scan of the bytes up to the first NUL, with the long-press adjustment applied; None when sscanf would not assign both fields. A parsed name has at most 29 characters, none of them white space; an empty name only comes from a lone `&` and then counts at least one repeat. |
| LircdName.StripLongPress | tools/evremote2/LircdName.c:301-307 | The name loses its last character exactly when that character is `&`; what remains is a prefix of the name, and the count rises by the number of characters removed. |
| LircdName.TooSoon | tools/evremote2/LircdName.c:318-327 | The debounce test: under 200 ms since the last accepted press always drops, 300 ms or more never drops, and for another key only the 200 ms bound applies. |
| LircdName.KeyCode | tools/evremote2/LircdName.c:309-311 | The code getInternalCodeLircKeyName yields for a name: the code of the first live row with that name, or KEY_NULL (0) when there is none. `KeyCodeRange` states it over the table. |
| Spark.KeyCode | evremote2/Spark.c:156 | The code getInternalCode yields for a token: the code of the first live row with that token, or KEY_NULL (0) when there is none. `Spark.KeyCodeRange` states it over the table. |
| Spark.Field | evremote2/Spark.c:143-153 | The two characters at an offset, as the C string `vData` holds them: empty when the first is NUL, one character when only the second is NUL, otherwise both. |
| Spark.RepeatPasses | evremote2/Spark.c:143-149 | The bounce filter: atoi of the repeat field is a multiple of 3. `RepeatFilterOnDigits` states it on two digits. |
| CText.Atoi | evremote2/Spark.c:148 | atoi: skip white space, take an optional sign, then the decimal digits that follow. The result is negative only after a minus sign, and 0 for a string of white space. |
| LircdName.ParseFrame | tools/evremote2/LircdName.c:293-307 | The scan (the function `ScanLine`) followed by the `&` adjustment, which is written out step by step on a local copy of the name, yields `Parse` of the received bytes. |
| LircdName.Reader.Translate | tools/evremote2/LircdName.c:309-345 | Lookup, debounce and the state update on acceptance leave exactly the state, and return exactly the code, that `Deliver` gives. |
| LircdName.ScanLine | tools/evremote2/LircdName.c:293 | A successful scan yields a name of 1 to 29 characters with no white space and no NUL. |
| LircdName.ScanFormattedLine | tools/evremote2/LircdName.c:293 | The scan reads a broadcast line back: the repeat count lircd printed, and the button name cut to 29 characters. |
| LircdName.ScanLineFields | tools/evremote2/LircdName.c:293 | For any two hexadecimal fields, the scan skips the first, reads the second as the count, and reads the button name. |
| LircdName.NamelessScan | tools/evremote2/LircdName.c:293-297 | A line with two numbers and no name does not assign both fields. |
| LircdName.TableShape | tools/evremote2/LircdName.c:96-224 | The table has 105 rows and ends in its single terminating row. All 104 rows before it carry a code in 1..0xffff. |
| LircdName.TableHeadShape | tools/evremote2/LircdName.c:99-139 | Rows KEY_OK..KEY_0: 35 rows, none terminating, codes in 1..0xffff. |
| LircdName.TableMiddleShape | tools/evremote2/LircdName.c:141-181 | Rows KEY_PVR..KEY_MHP: 35 rows, none terminating, codes in 1..0xffff. |
| LircdName.TableTailShape | tools/evremote2/LircdName.c:182-223 | Rows KEY_LANGUAGE..KEY_BREAK, then the terminating row. |
| LircdName.KeyCodeRange | tools/evremote2/LircdName.c:309-311 | A name yields a code in 0..0xffff. It yields KEY_NULL (0) exactly when no row carries the name. |
| LircdName.PreviousNotEarlier | tools/evremote2/LircdName.c:99-162 | No row before line 163 is named KEY_PREVIOUS. |
| LircdName.PreviousNameYieldsPrevious | tools/evremote2/LircdName.c:163 | The name KEY_PREVIOUS yields KEY_PREVIOUS: its first row wins. |
| LircdName.NextRows | tools/evremote2/LircdName.c:163-164 | The only row with code KEY_NEXT is the one after the first KEY_PREVIOUS row, and it carries the same name. |
| LircdName.NextIsUnreachable | tools/evremote2/LircdName.c:164 | No key name ever yields KEY_NEXT. |
| LircdName.UnparseableIsDropped | tools/evremote2/LircdName.c:293-297 | A line the scan cannot read yields -1 and leaves the state unchanged. |
| LircdName.EmptyReadIsDropped | tools/evremote2/LircdName.c:288-297 | An empty read (a buffer that starts with NUL) yields -1 and leaves the state unchanged. |
| LircdName.NamelessLineIsDropped | tools/evremote2/LircdName.c:293-297 | A broadcast line without a button name yields -1 and leaves the state unchanged. |
| LircdName.LongPressMarkerCounts | tools/evremote2/LircdName.c:301-307 | A name ending in `&` loses exactly that one character and counts one more repeat. `X&&` becomes `X&`. |
| LircdName.UnmarkedNameKept | tools/evremote2/LircdName.c:301-307 | A name not ending in `&` keeps its name and its count. |
| LircdName.ParseFormattedLine | tools/evremote2/LircdName.c:288-307 | A broadcast line parses to its repeat count and its button name (cut to 29 characters), with the `&` adjustment applied. |
| LircdName.ParseShortLine | tools/evremote2/LircdName.c:288-307 | A button name of at most 29 characters is kept whole. |
| LircdName.LongPressParse | tools/evremote2/LircdName.c:299-307 | The line for `name&` with count n parses to the same frame as the line for `name` with count n+1, whatever lircd codes the two lines carry. |
| LircdName.LongPressLineEquivalence | tools/evremote2/LircdName.c:299-307 | A read of the `name&` line and a read of the `name` line with one more repeat give the same result and the same new state. |
| LircdName.UnknownKeyIsIgnored | tools/evremote2/LircdName.c:309-345 | A name no row carries yields 0 and leaves the state unchanged. |
| LircdName.FreshPressDebounce | tools/evremote2/LircdName.c:315-330 | A fresh press of a known key is dropped if and only if it is within 300 ms of a press of the same key or within 200 ms of any press. A dropped press changes nothing. An accepted press records the key, name and time and raises the generation by one. |
| LircdName.RepeatAlwaysAccepted | tools/evremote2/LircdName.c:315-337 | A repeat (count > 0) of a known key is accepted whatever the time since the last press, and stays in the current generation. |
| LircdName.DeliverDecodes | tools/evremote2/LircdName.c:335-340 | A result of -1 or 0 leaves the state unchanged. For a positive result, result mod 0x10000 is the recorded key code and result div 0x10000 is the generation. The time is recorded, and the recorded key code is never KEY_NEXT. |
| LircdName.DeliverSplits | tools/evremote2/LircdName.c:335-340 | The same decoding for any table whose codes stay below 0x10000. |
| LircdName.GenerationSplit | tools/evremote2/LircdName.c:340 | A code below 0x10000 plus a generation shifted left by 16 gives back both parts. |
| LircdName.ResultDecodes | tools/evremote2/LircdName.c:274-348 | DeliverDecodes holds for every read, whether or not the line can be parsed. |
| LircdName.SameKeyTwiceIsDropped | tools/evremote2/LircdName.c:318-322 | After an accepted press, a fresh press of the same key less than 300 ms later is dropped, and the state is kept. |
| LircdName.OtherKeyAfterDelayIsAccepted | tools/evremote2/LircdName.c:323-330 | After an accepted press, a fresh press of another key at least 200 ms later is accepted and opens the next generation. |
| LircdName.FirstPressIsAccepted | tools/evremote2/LircdName.c:314-330 | The first press after start-up, at 200 ms or later, is accepted. Its generation is 1 for a fresh press and 0 for a repeat. |
| LircdName.RunGenerations | tools/evremote2/LircdName.c:314-330 | Over any series of reads the generation never decreases, and it grows by at most one per read. |
| LircdName.RunClockMonotone | tools/evremote2/LircdName.c:336 | With a clock that never goes back, the recorded time of the last press never goes back. |
| Buttons.LiveCount | tools/evremote2/LircdName.c:223 | Counts the rows before the first terminating row: no row before it terminates the table, and the row at the count does. |
| Buttons.Lookup | tools/evremote2/LircdName.c:309 | The lookup answers "not found" if and only if no live row carries the token. Any answer is the code of a live row that carries the token. |
| Buttons.LookupFirstMatch | tools/evremote2/LircdName.c:309 | The lookup answers with the code of the first row carrying the token. |
| Buttons.LookupIsFirstMatch | evremote2/Spark.c:156 | Whatever the lookup answers is the code of the first row that carries the token. |
| Buttons.LookupNeverAnswers | evremote2/Spark.c:156 | A code that is never on the first row carrying its token is never answered. |
| LircdLine.FormatLineHasNoNul | tools/evremote2/LircdName.c:288-293 | A broadcast line holds no NUL, so all of it is the C string the scan reads. |
| LircdLine.FormatLineLayout | evremote2/Spark.c:143-153 | For a repeat count below 256 (so `%02x` prints exactly two digits), in a broadcast line the code is at characters 0-15, the repeat count at 17-18 and the button name from 20 on. |
| CText.CString | tools/evremote2/LircdName.c:288-293 | The C string is the prefix of the buffer before its first NUL, and contains no NUL. |
| CText.CStringWithoutNul | tools/evremote2/LircdName.c:293 | A buffer without a NUL is its own C string. |
| CText.SkipSpaces | tools/evremote2/LircdName.c:293 | The skipped characters are white space, and what remains does not start with white space. |
| CText.Span | tools/evremote2/LircdName.c:293 | The span is the longest prefix whose characters all satisfy the class. |
| CText.ScanHex | tools/evremote2/LircdName.c:293 | `%x` always consumes at least one character. |
| CText.ScanHexField | tools/evremote2/LircdName.c:293 | `%x` reads a run of hex digits after white space, and stops at the first non-digit. |
| CText.ScanString | tools/evremote2/LircdName.c:293 | `%29s` yields 1 to 29 characters, none of them white space. |
| CText.ScanStringField | tools/evremote2/LircdName.c:293 | `%29s` copies a word after white space, at most 29 characters of it. |
| CText.AtoiTwoCharacters | evremote2/Spark.c:143-148 | atoi of two digits is their decimal value. atoi of a digit followed by a non-digit is that digit. |
| CText.ToHexRoundTrip | evremote2/Spark.c:151-156 | A number printed as `%0Nx` is a hex run that reads back as that number. |
| CText.ToHexLength | evremote2/Spark.c:143-153 | `%0Nx` of a number below 16^N prints exactly N characters. |
| CText.ToHexLowByte | evremote2/Spark.c:151-153 | The last two characters of `%016llx` are the low byte of the code, printed as `%02x`. |
| Spark.Read | evremote2/Spark.c:131-158 | A failed read (rc <= 0) yields -1. A repeat field that fails the filter yields -1. |
| Spark.ReadOutcome | evremote2/Spark.c:140-158 | A read yields -1 if and only if rc <= 0 or atoi of bytes 17-18 is not a multiple of 3. Otherwise it yields KEY_NULL if and only if no row carries the token in bytes 14-15. |
| Spark.OnlyFourBytesMatter | evremote2/Spark.c:143-156 | Two buffers that agree at offsets 14, 15, 17 and 18 give the same result. |
| Spark.RepeatFilterOnDigits | evremote2/Spark.c:143-149 | On two digits, the filter passes if and only if their decimal value is a multiple of 3. It passes on "00". |
| Spark.TableShape | evremote2/Spark.c:43-94 | The table has 46 rows and ends in its single terminating row. Each of the 45 rows before it carries a two-digit lower-case hex token and a code in 1..0xffff. |
| Spark.TableHeadShape | evremote2/Spark.c:44-62 | Rows STANDBY..AUDIO: 17 well-formed rows. |
| Spark.TableTailShape | evremote2/Spark.c:64-94 | Rows DOWN/P-..TIMER are well formed, then the terminating row. |
| Spark.KeyCodeRange | evremote2/Spark.c:156 | A token yields a code in 0..0xffff. It yields KEY_NULL exactly when no row carries the token. |
| Spark.SevenToken | evremote2/Spark.c:56-62 | Token "35" yields KEY_7 (7BUTTON comes before AUDIO). |
| Spark.TwoToken | evremote2/Spark.c:51-92 | Token "95" yields KEY_2 (2BUTTON comes before USB). |
| Spark.GuideToken | evremote2/Spark.c:70-90 | Token "8f" yields KEY_EPG, from the GUIDE row. |
| Spark.FirstGuideRow | evremote2/Spark.c:44-70 | No row before GUIDE carries "8f". |
| Spark.ShadowedRows | evremote2/Spark.c:62-92 | The AUDIO and USB rows are the only ones with KEY_AUDIO and KEY_CLOSE. Each carries the token of an earlier row. |
| Spark.AudioAndCloseUnreachable | evremote2/Spark.c:62-92 | No token ever yields KEY_AUDIO or KEY_CLOSE. |
| Spark.FirstRowRoundTrip | evremote2/Spark.c:151-156 | A buffer that passes the filter and holds the token of a row that is the first to carry it yields that row's code. |
| Spark.ReadBroadcastLine | evremote2/Spark.c:139-158 | For a broadcast line with a repeat count below 256, the result is -1 when atoi of the printed repeat count is not a multiple of 3. Otherwise it is the code of the token spelled by the low byte of the lircd code. |
| Spark.BroadcastFields | evremote2/Spark.c:143-153 | In a broadcast line with a repeat count below 256, bytes 14-15 are the low byte of the code in hex and bytes 17-18 are the repeat count in hex. |
| Spark.SmallRepeatFilter | evremote2/Spark.c:147-149 | For repeat counts below 10, the filter keeps exactly the multiples of 3. |
| Spark.HexRepeatReadAsDecimal | evremote2/Spark.c:148 | atoi reads the hex count as decimal: count 10 ("0a") passes the filter, and count 27 ("1b") is dropped. |

## Left out

- Sockets: `pInit`, `pShutdown` and the `read()` call are not modelled (I/O). LircdName takes the bytes received after its `memset`. Spark takes rc and the buffer as they stand after the read.
- Clock: `GetNow` (monotonic clock with a wall-clock fallback) is replaced by the `now` parameter. One value is used per read, although the C calls `GetNow()` again for the check and for the update.
- `pNotification`, the `printf` diagnostics, the driver descriptors and the long-press timing policy (`cLongKeyPressSupport`) are not modelled: they do not affect the returned code.
- Lookup helpers: the bodies of `getInternalCode` and `getInternalCodeLircKeyName` (map.c) are not part of this model. `Buttons.Lookup` is the first-match scan up to the terminating row, with exact string comparison on the key-name column (LircdName) or the token column (Spark). "Not found" is read as KEY_NULL (0).
- Key codes: the KEY_* values come from the Linux input-event codes header, which is not part of this model. `Keys` uses the Linux values.
- `CText.ScanHex`: does not model the optional sign and `0x` prefix that `%x` accepts, nor overflow of the `int` count. lircd prints neither a sign nor a prefix.
- `Spark.Read`: the buffer is assumed to hold the bytes at offsets 14-18. What C does with a buffer shorter than that is whatever stale bytes are there, which the model takes as part of the `buffer` argument.
- `LircdName.Deliver`: does not model 32-bit overflow of `nextflag << 16` after 32768 generations, nor `int` overflow of `count + 1`. The generation is an unbounded `nat`.
- `LircdName.LongPressLineEquivalence`: stated only for names that do not themselves end in `&`. For `X&&` the long-push line parses to `X&`, not `X`.
- `LircdName.RunClockMonotone`: the recorded time never goes back only when the clock never goes back. With the wall-clock fallback the C gives no such guarantee.
- The lircd daemon is not part of this model. `LircdLine.FormatLine` stands for the line it prints, so the readers can be stated end to end.

## Notes on what the code does

- The generation is added (`+=`) to the code (`tools/evremote2/LircdName.c:340`). This equals OR-ing it in, because every table code is below 0x10000 (`DeliverDecodes`).
- An unknown key name yields 0 (KEY_NULL), not -1 (`tools/evremote2/LircdName.c:309-345`).
- The row after KEY_PREVIOUS at `tools/evremote2/LircdName.c:164` maps the name KEY_PREVIOUS to KEY_NEXT, so KEY_NEXT is never produced (`NextIsUnreachable`).
- In Spark, the AUDIO and USB rows repeat the tokens of 7BUTTON and 2BUTTON, so they are never produced (`AudioAndCloseUnreachable`).
- In Spark, the bounce filter applies atoi to a repeat count printed in hexadecimal (`HexRepeatReadAsDecimal`).
