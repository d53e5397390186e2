/**
 * The Spark reader (evremote2/Spark.c) for the Edision argus-spark remote.
 *
 * pRead picks characters at fixed offsets of the line lircd broadcasts: the
 * two characters at offsets 17-18 (the repeat count) pass a bounce filter
 * that keeps only counts atoi reads as a multiple of 3, and the two characters
 * at offsets 14-15 (the low byte of the lircd code, in hexadecimal) are looked
 * up by token in the remote's table.  The reader keeps no state between reads.
 */
module Spark {
  import opened Buttons
  import opened CText
  import opened Keys
  import opened LircdLine

  /** The size of the buffer pRead reads into (cSize). */
  const BufferSize: nat := 128
  /** The repeat field and the key token: the offsets pRead copies into vData. */
  const RepeatAt: nat := 17
  const TokenAt: nat := 14

  /** Rows of cButtonsEdisionSpark from STANDBY to AUDIO; token "35" appears twice here. */
  const TableHead: seq<Button> := [
    Button("STANDBY", "25", KEY_POWER),
    Button("MUTE", "85", KEY_MUTE),
    Button("V.FORMAT", "ad", KEY_V),
    Button("TV/SAT", "c5", KEY_AUX),
    Button("0BUTTON", "57", KEY_0),
    Button("1BUTTON", "b5", KEY_1),
    Button("2BUTTON", "95", KEY_2),
    Button("3BUTTON", "bd", KEY_3),
    Button("4BUTTON", "f5", KEY_4),
    Button("5BUTTON", "d5", KEY_5),
    Button("6BUTTON", "fd", KEY_6),
    Button("7BUTTON", "35", KEY_7),
    Button("8BUTTON", "15", KEY_8),
    Button("9BUTTON", "3d", KEY_9),
    Button("BACK", "7f", KEY_BACK),
    Button("INFO", "a7", KEY_INFO),
    Button("AUDIO", "35", KEY_AUDIO)
  ]

  /** Rows from DOWN/P- to TIMER, then the terminating row. */
  const TableTail: seq<Button> := [
    Button("DOWN/P-", "0f", KEY_DOWN),
    Button("UP/P+", "27", KEY_UP),
    Button("RIGHT/V+", "af", KEY_RIGHT),
    Button("LEFT/V-", "6d", KEY_LEFT),
    Button("OK/LIST", "2f", KEY_OK),
    Button("MENU", "65", KEY_MENU),
    Button("GUIDE", "8f", KEY_EPG),
    Button("EXIT", "4d", KEY_HOME),
    Button("FAV", "87", KEY_FAVORITES),
    Button("RED", "7d", KEY_RED),
    Button("GREEN", "ff", KEY_GREEN),
    Button("YELLOW", "3f", KEY_YELLOW),
    Button("BLUE", "bf", KEY_BLUE),
    Button("REWIND", "1f", KEY_REWIND),
    Button("PAUSE", "37", KEY_PAUSE),
    Button("PLAY", "b7", KEY_PLAY),
    Button("FASTFORWARD", "97", KEY_FASTFORWARD),
    Button("RECORD", "45", KEY_RECORD),
    Button("STOP", "f7", KEY_STOP),
    Button("SLOWMOTION", "5d", KEY_SLOW),
    Button("ARCHIVE", "75", KEY_ARCHIVE),
    Button("SAT", "1d", KEY_SAT),
    Button("STEPBACK", "55", KEY_PREVIOUS),
    Button("STEPFORWARD", "d7", KEY_NEXT),
    Button("MARK", "8f", KEY_EPG),
    Button("TV/RADIO", "77", KEY_TV2),
    Button("USB", "95", KEY_CLOSE),
    Button("TIMER", "8d", KEY_TIME),
    Button("", "", KEY_NULL)
  ]

  /** cButtonsEdisionSpark: the key is recognised by its token (the second column). */
  const Table: seq<Button> := TableHead + TableTail

  /** getInternalCode on the table, with "not found" read as KEY_NULL. */
  function KeyCode(token: string): int {
    CodeOrNull(Lookup(Table, ByWord, token))
  }

  /** The two characters at offset i, as the C string vData holds them. */
  function Field(buffer: seq<char>, i: nat): (r: string)
    requires i + 2 <= |buffer|
    ensures buffer[i] == '\0' ==> r == []
    ensures buffer[i] != '\0' && buffer[i + 1] == '\0' ==> r == [buffer[i]]
    ensures buffer[i] != '\0' && buffer[i + 1] != '\0' ==> r == buffer[i..i + 2]
  {
    CString(buffer[i..i + 2])
  }

  /** The bounce filter: atoi of the repeat field must be a multiple of 3. */
  predicate RepeatPasses(buffer: seq<char>)
    requires |buffer| == BufferSize
  {
    Atoi(Field(buffer, RepeatAt)) % 3 == 0
  }

  /**
   * pRead, given what read() returned (rc) and the buffer after the read: its
   * first rc bytes are those received, the rest whatever the buffer held.
   */
  function Read(rc: int, buffer: seq<char>): (key: int)
    requires |buffer| == BufferSize
    ensures rc <= 0 ==> key == NoEvent
    ensures rc > 0 && !RepeatPasses(buffer) ==> key == NoEvent
  {
    if rc <= 0 then NoEvent
    else if !RepeatPasses(buffer) then NoEvent
    else KeyCode(Field(buffer, TokenAt))
  }

  /** A token as the table lists it: two lower-case hexadecimal digits. */
  predicate IsToken(t: string) {
    |t| == 2 && forall k :: 0 <= k < 2 ==> IsDigit(t[k]) || 'a' <= t[k] <= 'f'
  }

  /** Rows whose tokens are well formed and whose codes lie in 1 .. 0xffff. */
  predicate WellFormedRows(rows: seq<Button>) {
    forall i :: 0 <= i < |rows| ==> IsToken(rows[i].keyWord) && 0 < rows[i].keyCode < 0x1_0000
  }

  lemma TableHeadShape()
    ensures |TableHead| == 17 && WellFormedRows(TableHead)
  {
  }

  lemma TableTailShape()
    ensures |TableTail| == 29 && IsSentinel(TableTail[28], ByWord)
    ensures forall i :: 0 <= i < 28 ==> IsToken(TableTail[i].keyWord) && 0 < TableTail[i].keyCode < 0x1_0000
  {
  }

  /**
   * The table ends with its terminating row; each of the 45 rows before it
   * has a two-digit token and a code in 1 .. 0xffff.
   */
  lemma TableShape()
    ensures |Table| == 46 && Terminated(Table, ByWord) && LiveCount(Table, ByWord) == 45
    ensures WellFormedRows(Table[..45])
  {
    TableHeadShape();
    TableTailShape();
    forall i | 0 <= i < 45 ensures IsToken(Table[i].keyWord) && 0 < Table[i].keyCode < 0x1_0000 {
      if i < 17 {
        assert Table[i] == TableHead[i];
      } else {
        assert Table[i] == TableTail[i - 17];
      }
    }
    assert Table[45] == TableTail[28];
    assert NoSentinel(Table[..45], ByWord) by {
      forall i | 0 <= i < 45 ensures !IsSentinel(Table[..45][i], ByWord) {
        assert Table[..45][i] == Table[i];
      }
    }
    TerminatedLiveCount(Table, ByWord);
  }

  /** A token resolves to KEY_NULL exactly when no row carries it, and otherwise to a positive code. */
  lemma KeyCodeRange(token: string)
    ensures 0 <= KeyCode(token) < 0x1_0000
    ensures KeyCode(token) == KEY_NULL <==> forall i :: 0 <= i < 45 ==> Table[i].keyWord != token
  {
    TableShape();
    var r := Lookup(Table, ByWord, token);
    if r.Some? {
      var i :| 0 <= i < LiveCount(Table, ByWord) && Token(Table[i], ByWord) == token && Table[i].keyCode == r.value;
      assert Table[..45][i] == Table[i];
    }
  }

  /**
   * Every read: no event (-1) exactly when nothing was read or the repeat
   * field fails the filter; otherwise the code of the token, which is KEY_NULL
   * exactly when no row carries it.
   */
  lemma ReadOutcome(rc: int, buffer: seq<char>)
    requires |buffer| == BufferSize
    ensures Read(rc, buffer) == NoEvent <==> rc <= 0 || !RepeatPasses(buffer)
    ensures rc > 0 && RepeatPasses(buffer) ==>
      (Read(rc, buffer) == KEY_NULL <==> forall i :: 0 <= i < 45 ==> Table[i].keyWord != Field(buffer, TokenAt))
  {
    KeyCodeRange(Field(buffer, TokenAt));
  }

  /** Only the bytes at offsets 14, 15, 17 and 18 decide what a read returns. */
  lemma OnlyFourBytesMatter(rc: int, a: seq<char>, b: seq<char>)
    requires |a| == BufferSize && |b| == BufferSize
    requires a[14] == b[14] && a[15] == b[15] && a[17] == b[17] && a[18] == b[18]
    ensures Read(rc, a) == Read(rc, b)
  {
    assert a[14..16] == b[14..16];
    assert a[17..19] == b[17..19];
  }

  /** On two decimal digits the filter keeps exactly the counts that are multiples of 3; "00" passes. */
  lemma RepeatFilterOnDigits(a: char, b: char)
    requires IsDigit(a) && IsDigit(b)
    ensures Atoi(CString([a, b])) % 3 == 0 <==> (10 * DigitValue(a) + DigitValue(b)) % 3 == 0
    ensures Atoi(CString(['0', '0'])) % 3 == 0
  {
    CStringWithoutNul([a, b]);
    CStringWithoutNul(['0', '0']);
    AtoiTwoCharacters(a, b);
    AtoiTwoCharacters('0', '0');
  }

  /** "35" is listed for 7BUTTON and AUDIO: it yields KEY_7, the first. */
  lemma SevenToken()
    ensures KeyCode("35") == KEY_7
  {
    TableShape();
    assert Table[11] == TableHead[11];
    assert forall j :: 0 <= j < 11 ==> Table[j].keyWord != "35";
    LookupFirstMatch(Table, ByWord, "35", 11);
  }

  /** "95" is listed for 2BUTTON and USB: it yields KEY_2, the first. */
  lemma TwoToken()
    ensures KeyCode("95") == KEY_2
  {
    TableShape();
    assert Table[6] == TableHead[6];
    assert forall j :: 0 <= j < 6 ==> Table[j].keyWord != "95";
    LookupFirstMatch(Table, ByWord, "95", 6);
  }

  /** "8f" is listed for GUIDE and MARK, both KEY_EPG. */
  lemma GuideToken()
    ensures KeyCode("8f") == KEY_EPG
  {
    TableShape();
    assert Table[23] == TableTail[6];
    FirstGuideRow();
    LookupFirstMatch(Table, ByWord, "8f", 23);
  }

  lemma FirstGuideRow()
    ensures forall j :: 0 <= j < 23 ==> Table[j].keyWord != "8f"
  {
    assert forall j :: 0 <= j < 17 ==> TableHead[j].keyWord != "8f";
    assert forall j :: 0 <= j < 6 ==> TableTail[j].keyWord != "8f";
    forall j | 0 <= j < 23 ensures Table[j].keyWord != "8f" {
      if j < 17 {
        assert Table[j] == TableHead[j];
      } else {
        assert Table[j] == TableTail[j - 17];
      }
    }
  }

  /** The rows of AUDIO and USB, each behind an earlier row with the same token. */
  lemma ShadowedRows()
    ensures forall i :: 0 <= i < 45 && i != 16 ==> Table[i].keyCode != KEY_AUDIO
    ensures forall i :: 0 <= i < 45 && i != 43 ==> Table[i].keyCode != KEY_CLOSE
    ensures Table[16].keyWord == Table[11].keyWord && Table[43].keyWord == Table[6].keyWord
  {
    assert forall i :: 0 <= i < 17 ==> (i != 16 ==> TableHead[i].keyCode != KEY_AUDIO) && TableHead[i].keyCode != KEY_CLOSE;
    assert forall i :: 0 <= i < 28 ==> TableTail[i].keyCode != KEY_AUDIO && (i != 26 ==> TableTail[i].keyCode != KEY_CLOSE);
    forall i | 0 <= i < 45 ensures (i != 16 ==> Table[i].keyCode != KEY_AUDIO) && (i != 43 ==> Table[i].keyCode != KEY_CLOSE) {
      if i < 17 {
        assert Table[i] == TableHead[i];
      } else {
        assert Table[i] == TableTail[i - 17];
      }
    }
    assert Table[16] == TableHead[16] && Table[11] == TableHead[11];
    assert Table[43] == TableTail[26] && Table[6] == TableHead[6];
  }

  /** No token yields KEY_AUDIO or KEY_CLOSE: their tokens belong to 7BUTTON and 2BUTTON first. */
  lemma AudioAndCloseUnreachable(token: string)
    ensures KeyCode(token) != KEY_AUDIO && KeyCode(token) != KEY_CLOSE
  {
    TableShape();
    ShadowedRows();
    LookupNeverAnswers(Table, ByWord, token, KEY_AUDIO);
    LookupNeverAnswers(Table, ByWord, token, KEY_CLOSE);
  }

  /**
   * A buffer carrying the token of row i, where that row is the first with
   * its token, reads back as the row's code once the repeat field passes.
   */
  lemma FirstRowRoundTrip(rc: int, buffer: seq<char>, i: int)
    requires |buffer| == BufferSize && rc > 0 && RepeatPasses(buffer)
    requires 0 <= i < |Table| && IsFirstMatch(Table, ByWord, Table[i].keyWord, i)
    requires buffer[TokenAt..TokenAt + 2] == Table[i].keyWord
    ensures Read(rc, buffer) == Table[i].keyCode
  {
    TableShape();
    assert Table[..45][i] == Table[i];
    CStringWithoutNul(Table[i].keyWord);
    LookupFirstMatch(Table, ByWord, Table[i].keyWord, i);
  }

  /**
   * A read of a line lircd broadcast: the token is the low byte of the lircd
   * code in hexadecimal, and the filter applies atoi to the repeat count as
   * printed in hexadecimal.
   */
  lemma ReadBroadcastLine(rc: int, buffer: seq<char>, code: nat, repeat: nat, button: string, remote: string)
    requires IsName(button) && IsName(remote) && code < Pow16(16) && repeat < 256
    requires |buffer| == BufferSize && rc > 0
    requires |FormatLine(code, repeat, button, remote)| <= BufferSize
    requires buffer[..|FormatLine(code, repeat, button, remote)|] == FormatLine(code, repeat, button, remote)
    ensures Read(rc, buffer) ==
      if Atoi(ToHex(repeat, 2)) % 3 != 0 then NoEvent else KeyCode(ToHex(code % 256, 2))
  {
    BroadcastFields(buffer, code, repeat, button, remote);
    ToHexRoundTrip(code % 256, 2);
    ToHexRoundTrip(repeat, 2);
    CStringWithoutNul(ToHex(code % 256, 2));
    CStringWithoutNul(ToHex(repeat, 2));
    assert Field(buffer, TokenAt) == ToHex(code % 256, 2);
    assert Field(buffer, RepeatAt) == ToHex(repeat, 2);
  }

  /** Where the token and the repeat field of a broadcast line sit in the buffer. */
  lemma BroadcastFields(buffer: seq<char>, code: nat, repeat: nat, button: string, remote: string)
    requires code < Pow16(16) && repeat < 256 && |buffer| == BufferSize
    requires |FormatLine(code, repeat, button, remote)| <= BufferSize
    requires buffer[..|FormatLine(code, repeat, button, remote)|] == FormatLine(code, repeat, button, remote)
    ensures buffer[TokenAt..TokenAt + 2] == ToHex(code % 256, 2)
    ensures buffer[RepeatAt..RepeatAt + 2] == ToHex(repeat, 2)
  {
    var line := FormatLine(code, repeat, button, remote);
    FormatLineLayout(code, repeat, button, remote);
    ToHexLowByte(code, 16);
    var hex := ToHex(code, 16);
    assert buffer[TokenAt..TokenAt + 2] == line[14..16] == hex[14..16];
    assert buffer[RepeatAt..RepeatAt + 2] == line[17..19];
  }

  /** Below 10 the printed count reads back as itself, so the filter keeps every third repeat. */
  lemma SmallRepeatFilter(repeat: nat)
    requires repeat < 10
    ensures Atoi(ToHex(repeat, 2)) == repeat
    ensures Atoi(ToHex(repeat, 2)) % 3 == 0 <==> repeat % 3 == 0
  {
    assert ToHex(repeat, 2) == [HexChar(0), HexChar(repeat)];
    AtoiTwoCharacters('0', HexChar(repeat));
  }

  /**
   * From 10 on, atoi reads the hexadecimal count as decimal digits: count 10
   * ("0a") passes the filter and count 27 ("1b") does not.
   */
  lemma HexRepeatReadAsDecimal()
    ensures Atoi(ToHex(10, 2)) == 0 && Atoi(ToHex(10, 2)) % 3 == 0 && 10 % 3 != 0
    ensures Atoi(ToHex(27, 2)) == 1 && Atoi(ToHex(27, 2)) % 3 != 0 && 27 % 3 == 0
  {
    assert ToHex(10, 2) == ['0', 'a'];
    AtoiTwoCharacters('0', 'a');
    assert ToHex(27, 2) == ['1', 'b'];
    AtoiTwoCharacters('1', 'b');
  }
}
