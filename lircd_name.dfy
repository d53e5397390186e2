/**
 * The LircdName reader (tools/evremote2/LircdName.c).
 *
 * Each read turns one line broadcast by the lircd daemon,
 * "<code> <repeat> <key name> <remote name>", into an internal key code.  The
 * key is recognised by its lircd.conf name.  A name ending in '&' is the
 * long-push code of a key and counts as one more repeat.  Fresh presses (repeat
 * count 0) are debounced against the last accepted key: the same key within
 * 300 ms and any key within 200 ms is dropped.  Every accepted fresh press
 * starts a new generation, and the generation number is returned above bit 16
 * of the key code.
 *
 * The reader's state (the last key, its name, the time of the last accepted
 * press and the generation counter) lives in the fields of a Reader object;
 * Step is the same reader as a function of that state, and the lemmas below
 * state its properties over Step.
 */
module LircdName {
  import opened Wrappers
  import opened Buttons
  import opened CText
  import opened Keys
  import opened LircdLine

  /** A fresh press of any key sooner than this after the last accepted press is dropped (ms). */
  const KeyPressDelay: int := 200
  /** A fresh press of the last accepted key sooner than this after it is dropped (ms). */
  const SameKeyPressDelay: int := 300
  /** The longest key name %29s keeps (LIRC_KEY_BUF - 1). */
  const MaxKeyNameLength: nat := 29
  /** The weight of one generation in the returned code: nextflag << 16. */
  const GenerationUnit: int := 0x1_0000
  /** The last character of a lircd.conf name that marks a key's long-push code. */
  const LongPressMarker: char := '&'

  /** Rows of cButtons_LircdName from KEY_OK to KEY_0. */
  const TableHead: seq<Button> := [
    Button("KEY_OK", "=>", KEY_OK),
    Button("KEY_UP", "=>", KEY_UP),
    Button("KEY_DOWN", "=>", KEY_DOWN),
    Button("KEY_RIGHT", "=>", KEY_RIGHT),
    Button("KEY_LEFT", "=>", KEY_LEFT),
    Button("KEY_RED", "=>", KEY_RED),
    Button("KEY_GREEN", "=>", KEY_GREEN),
    Button("KEY_YELLOW", "=>", KEY_YELLOW),
    Button("KEY_BLUE", "=>", KEY_BLUE),
    Button("KEY_POWER", "=>", KEY_POWER),
    Button("KEY_VOLUMEUP", "=>", KEY_VOLUMEUP),
    Button("KEY_VOLUMEDOWN", "=>", KEY_VOLUMEDOWN),
    Button("KEY_MUTE", "=>", KEY_MUTE),
    Button("KEY_PAGEUP", "=>", KEY_PAGEUP),
    Button("KEY_PAGEDOWN", "=>", KEY_PAGEDOWN),
    Button("KEY_MENU", "=>", KEY_MENU),
    Button("KEY_HOME", "=>", KEY_HOME),
    Button("KEY_OPTION", "=>", KEY_OPTION),
    Button("KEY_EPG", "=>", KEY_EPG),
    Button("KEY_GOTO", "=>", KEY_GOTO),
    Button("KEY_PROGRAM", "=>", KEY_PROGRAM),
    Button("KEY_TEXT", "=>", KEY_TEXT),
    Button("KEY_HELP", "=>", KEY_HELP),
    Button("KEY_LIST", "=>", KEY_LIST),
    Button("KEY_MEDIA", "=>", KEY_MEDIA),
    Button("KEY_1", "=>", KEY_1),
    Button("KEY_2", "=>", KEY_2),
    Button("KEY_3", "=>", KEY_3),
    Button("KEY_4", "=>", KEY_4),
    Button("KEY_5", "=>", KEY_5),
    Button("KEY_6", "=>", KEY_6),
    Button("KEY_7", "=>", KEY_7),
    Button("KEY_8", "=>", KEY_8),
    Button("KEY_9", "=>", KEY_9),
    Button("KEY_0", "=>", KEY_0)
  ]

  /** Rows from KEY_PVR to KEY_MHP; KEY_PREVIOUS is listed twice here, the second time for KEY_NEXT. */
  const TableMiddle: seq<Button> := [
    Button("KEY_PVR", "=>", KEY_PVR),
    Button("KEY_PLAY", "=>", KEY_PLAY),
    Button("KEY_PAUSE", "=>", KEY_PAUSE),
    Button("KEY_RECORD", "=>", KEY_RECORD),
    Button("KEY_STOP", "=>", KEY_STOP),
    Button("KEY_FASTFORWARD", "=>", KEY_FASTFORWARD),
    Button("KEY_REWIND", "=>", KEY_REWIND),
    Button("KEY_MODE", "=>", KEY_MODE),
    Button("KEY_SUBTITLE", "=>", KEY_SUBTITLE),
    Button("KEY_V", "=>", KEY_V),
    Button("KEY_AUX", "=>", KEY_AUX),
    Button("KEY_TIME", "=>", KEY_TIME),
    Button("KEY_TV2", "=>", KEY_TV2),
    Button("KEY_BACK", "=>", KEY_BACK),
    Button("KEY_FIND", "=>", KEY_FIND),
    Button("KEY_ARCHIVE", "=>", KEY_ARCHIVE),
    Button("KEY_INFO", "=>", KEY_INFO),
    Button("KEY_FAVORITES", "=>", KEY_FAVORITES),
    Button("KEY_SAT", "=>", KEY_SAT),
    Button("KEY_PREVIOUS", "=>", KEY_PREVIOUS),
    Button("KEY_PREVIOUS", "=>", KEY_NEXT),
    Button("KEY_F", "=>", KEY_F),
    Button("KEY_SLOW", "=>", KEY_SLOW),
    Button("KEY_P", "=>", KEY_P),
    Button("KEY_CLOSE", "=>", KEY_CLOSE),
    Button("KEY_T", "=>", KEY_T),
    Button("KEY_F1", "=>", KEY_F1),
    Button("KEY_F2", "=>", KEY_F2),
    Button("KEY_F3", "=>", KEY_F3),
    Button("KEY_SELECT", "=>", KEY_SELECT),
    Button("KEY_POWER2", "=>", KEY_POWER2),
    Button("KEY_CLEAR", "=>", KEY_CLEAR),
    Button("KEY_VENDOR", "=>", KEY_VENDOR),
    Button("KEY_CHANNEL", "=>", KEY_CHANNEL),
    Button("KEY_MHP", "=>", KEY_MHP)
  ]

  /** Rows from KEY_LANGUAGE to KEY_BREAK, then the terminating row. */
  const TableTail: seq<Button> := [
    Button("KEY_LANGUAGE", "=>", KEY_LANGUAGE),
    Button("KEY_TITLE", "=>", KEY_TITLE),
    Button("KEY_ANGLE", "=>", KEY_ANGLE),
    Button("KEY_ZOOM", "=>", KEY_ZOOM),
    Button("KEY_KEYBOARD", "=>", KEY_KEYBOARD),
    Button("KEY_SCREEN", "=>", KEY_SCREEN),
    Button("KEY_PC", "=>", KEY_PC),
    Button("KEY_TV", "=>", KEY_TV),
    Button("KEY_VCR", "=>", KEY_VCR),
    Button("KEY_VCR2", "=>", KEY_VCR2),
    Button("KEY_SAT2", "=>", KEY_SAT2),
    Button("KEY_CD", "=>", KEY_CD),
    Button("KEY_TAPE", "=>", KEY_TAPE),
    Button("KEY_RADIO", "=>", KEY_RADIO),
    Button("KEY_TUNER", "=>", KEY_TUNER),
    Button("KEY_PLAYER", "=>", KEY_PLAYER),
    Button("KEY_DVD", "=>", KEY_DVD),
    Button("KEY_MP3", "=>", KEY_MP3),
    Button("KEY_AUDIO", "=>", KEY_AUDIO),
    Button("KEY_VIDEO", "=>", KEY_VIDEO),
    Button("KEY_DIRECTORY", "=>", KEY_DIRECTORY),
    Button("KEY_MEMO", "=>", KEY_MEMO),
    Button("KEY_CALENDAR", "=>", KEY_CALENDAR),
    Button("KEY_CHANNELUP", "=>", KEY_CHANNELUP),
    Button("KEY_CHANNELDOWN", "=>", KEY_CHANNELDOWN),
    Button("KEY_FIRST", "=>", KEY_FIRST),
    Button("KEY_LAST", "=>", KEY_LAST),
    Button("KEY_AB", "=>", KEY_AB),
    Button("KEY_RESTART", "=>", KEY_RESTART),
    Button("KEY_SHUFFLE", "=>", KEY_SHUFFLE),
    Button("KEY_DIGITS", "=>", KEY_DIGITS),
    Button("KEY_TEEN", "=>", KEY_TEEN),
    Button("KEY_TWEN", "=>", KEY_TWEN),
    Button("KEY_BREAK", "=>", KEY_BREAK),
    Button("", "", KEY_NULL)
  ]

  /** cButtons_LircdName: the key is recognised by its lircd.conf name (the first column). */
  const Table: seq<Button> := TableHead + TableMiddle + TableTail

  /** getInternalCodeLircKeyName on a table, with "not found" read as KEY_NULL. */
  function KeyCode(table: seq<Button>, keyName: string): int {
    CodeOrNull(Lookup(table, ByName, keyName))
  }

  /** What sscanf(line, "%*x %x %29s", &count, KeyName) assigns when it assigns both. */
  datatype Frame = Frame(count: nat, keyName: string)

  /**
   * The scan of pRead: skip a hexadecimal field, read the hexadecimal repeat
   * count, then read a name of at most MaxKeyNameLength characters.  None
   * when either the count or the name is not assigned.
   */
  function ScanLine(line: string): (r: Option<Frame>)
    ensures r.Some? ==> 1 <= |r.value.keyName| <= MaxKeyNameLength
    ensures r.Some? ==> forall i :: 0 <= i < |r.value.keyName| ==> IsWordChar(r.value.keyName[i])
  {
    match ScanHex(line)
    case None => None
    case Some((_, afterCode)) =>
      match ScanHex(afterCode)
      case None => None
      case Some((count, afterCount)) =>
        match ScanString(afterCount, MaxKeyNameLength)
        case None => None
        case Some(name) => Some(Frame(count, name))
  }

  /** A name ending in the long-press marker loses that one character and counts one repeat more. */
  function StripLongPress(f: Frame): (r: Frame)
    ensures |f.keyName| - 1 <= |r.keyName| <= |f.keyName| && r.keyName == f.keyName[..|r.keyName|]
    ensures r.count == f.count + (|f.keyName| - |r.keyName|)
    ensures |r.keyName| < |f.keyName| <==> f.keyName != [] && f.keyName[|f.keyName| - 1] == LongPressMarker
  {
    if |f.keyName| > 0 && f.keyName[|f.keyName| - 1] == LongPressMarker
    then Frame(f.count + 1, f.keyName[..|f.keyName| - 1])
    else f
  }

  /**
   * The frame a read goes on with: the scan of the received bytes (up to
   * their first NUL), with the long-press marker taken off the name.  None
   * when the line is unparseable.
   */
  function Parse(received: seq<char>): (r: Option<Frame>)
    ensures r.Some? ==> |r.value.keyName| <= MaxKeyNameLength
    ensures r.Some? ==> forall i :: 0 <= i < |r.value.keyName| ==> IsWordChar(r.value.keyName[i])
    ensures r.Some? && r.value.keyName == [] ==> r.value.count >= 1
  {
    match ScanLine(CString(received))
    case None => None
    case Some(scanned) => Some(StripLongPress(scanned))
  }

  /** The scan and the long-press adjustment of pRead, on a local copy of the name. */
  method ParseFrame(received: seq<char>) returns (frame: Option<Frame>)
    ensures frame == Parse(received)
  {
    var scanned := ScanLine(CString(received));
    if scanned.None? {
      return None;
    }
    var count := scanned.value.count;
    var keyName := scanned.value.keyName;
    var last := |keyName| - 1;
    if keyName[last] == LongPressMarker {
      count := count + 1;
      keyName := keyName[..last];
    }
    return Some(Frame(count, keyName));
  }

  /** LastKeyCode, LastKeyName, LastKeyPressedTime and the generation counter nextflag. */
  datatype KeyState = KeyState(lastKeyCode: int, lastKeyName: string, lastKeyPressedTime: int, nextflag: nat)

  /** The state before the first read: no key yet, time 0, generation 0. */
  const Initial: KeyState := KeyState(-1, "", 0, 0)

  /** What one read returns, and the state it leaves. */
  datatype Outcome = Outcome(result: int, state: KeyState)

  /** A fresh press that follows the last accepted press too closely to be a new key-down. */
  predicate TooSoon(s: KeyState, code: int, now: int)
    ensures now - s.lastKeyPressedTime < KeyPressDelay ==> TooSoon(s, code, now)
    ensures now - s.lastKeyPressedTime >= SameKeyPressDelay ==> !TooSoon(s, code, now)
    ensures s.lastKeyCode != code ==> (TooSoon(s, code, now) <==> now - s.lastKeyPressedTime < KeyPressDelay)
  {
    (s.lastKeyCode == code && now - s.lastKeyPressedTime < SameKeyPressDelay)
    || now - s.lastKeyPressedTime < KeyPressDelay
  }

  /**
   * One read of the reader in state s, given the key table, the bytes
   * received and the time (ms) of the read.
   */
  function Step(table: seq<Button>, s: KeyState, received: seq<char>, now: int): (o: Outcome)
    ensures o.state == s || o.state.lastKeyPressedTime == now
    ensures s.nextflag <= o.state.nextflag <= s.nextflag + 1
  {
    match Parse(received)
    case None => Outcome(NoEvent, s)
    case Some(f) => Deliver(table, s, f, now)
  }

  /** The part of a read after the scan: translate, debounce, and update the state on acceptance. */
  function Deliver(table: seq<Button>, s: KeyState, f: Frame, now: int): (o: Outcome)
    ensures o.state == s || (o.state.lastKeyPressedTime == now && o.state.lastKeyName == f.keyName)
    ensures s.nextflag <= o.state.nextflag <= s.nextflag + 1
    ensures o.state.nextflag == s.nextflag + 1 ==> f.count == 0
  {
    var code := KeyCode(table, f.keyName);
    if code == KEY_NULL then Outcome(KEY_NULL, s)
    else if f.count == 0 && TooSoon(s, code, now) then Outcome(NoEvent, s)
    else
      var flag := if f.count == 0 then s.nextflag + 1 else s.nextflag;
      Outcome(code + flag * GenerationUnit, KeyState(code, f.keyName, now, flag))
  }

  /** The reader of pRead, with its state in fields that each read updates in place. */
  class Reader {
    /** The key table the reader translates names with (cButtons). */
    const buttons: seq<Button>
    var lastKeyCode: int
    var lastKeyName: string
    var lastKeyPressedTime: int
    var nextflag: nat

    function State(): KeyState
      reads this
    {
      KeyState(lastKeyCode, lastKeyName, lastKeyPressedTime, nextflag)
    }

    constructor ()
      ensures buttons == Table && State() == Initial
    {
      buttons := Table;
      lastKeyCode := -1;
      lastKeyName := "";
      lastKeyPressedTime := 0;
      nextflag := 0;
    }

    /** pRead, given the bytes the socket delivered and the time of the read. */
    method Read(received: seq<char>, now: int) returns (code: int)
      modifies this
      ensures Outcome(code, State()) == Step(buttons, old(State()), received, now)
    {
      var frame := ParseFrame(received);
      if frame.None? {
        return NoEvent;
      }
      code := Translate(frame.value, now);
    }

    /** The rest of pRead: look the name up, debounce fresh presses, and record an accepted press. */
    method Translate(f: Frame, now: int) returns (code: int)
      modifies this
      ensures Outcome(code, State()) == Deliver(buttons, old(State()), f, now)
    {
      code := KeyCode(buttons, f.keyName);
      if code != KEY_NULL {
        if f.count == 0 {
          if lastKeyCode == code && now - lastKeyPressedTime < SameKeyPressDelay {
            return NoEvent;
          } else if now - lastKeyPressedTime < KeyPressDelay {
            return NoEvent;
          }
          nextflag := nextflag + 1;
        }
        lastKeyCode := code;
        lastKeyPressedTime := now;
        lastKeyName := f.keyName;
        code := code + nextflag * GenerationUnit;
      }
    }
  }

  /**
   * The scan reads a broadcast line back: the repeat count lircd printed and
   * the button name, cut to MaxKeyNameLength characters.
   */
  lemma ScanFormattedLine(code: nat, repeat: nat, button: string, remote: string)
    requires IsName(button) && IsName(remote)
    ensures var kept := if |button| < MaxKeyNameLength then |button| else MaxKeyNameLength;
      ScanLine(FormatLine(code, repeat, button, remote)) == Some(Frame(repeat, button[..kept]))
  {
    ToHexRoundTrip(code, 16);
    ToHexRoundTrip(repeat, 2);
    ScanLineFields(ToHex(code, 16), ToHex(repeat, 2), button, remote);
  }

  /** ScanFormattedLine for any two printed numbers. */
  lemma ScanLineFields(code: string, repeat: string, button: string, remote: string)
    requires IsHexRun(code) && IsHexRun(repeat) && IsName(button) && IsName(remote)
    ensures var kept := if |button| < MaxKeyNameLength then |button| else MaxKeyNameLength;
      ScanLine(Line(code, repeat, button, remote)) == Some(Frame(HexValue(repeat), button[..kept]))
  {
    var tail := " " + (remote + "\n");
    var rest3 := " " + (button + tail);
    var rest1 := " " + (repeat + rest3);
    var line := Line(code, repeat, button, remote);
    var kept := if |button| < MaxKeyNameLength then |button| else MaxKeyNameLength;
    assert ScanHex(line) == Some((HexValue(code), rest1)) by {
      assert [] + line == line;
      ScanHexField([], code, rest1);
    }
    assert ScanHex(rest1) == Some((HexValue(repeat), rest3)) by {
      ScanHexField(" ", repeat, rest3);
    }
    assert ScanString(rest3, MaxKeyNameLength) == Some(button[..kept]) by {
      ScanStringField(" ", button, tail, MaxKeyNameLength);
    }
    ScanLineStages(line, rest1, rest3);
  }

  /** The scan goes field by field: each conversion starts where the previous one stopped. */
  lemma ScanLineStages(line: string, afterCode: string, afterCount: string)
    requires ScanHex(line).Some? && ScanHex(line).value.1 == afterCode
    requires ScanHex(afterCode).Some? && ScanHex(afterCode).value.1 == afterCount
    requires ScanString(afterCount, MaxKeyNameLength).Some?
    ensures ScanLine(line) == Some(Frame(ScanHex(afterCode).value.0, ScanString(afterCount, MaxKeyNameLength).value))
  {
  }

  /** The codes of a run of rows: positive and below the generation unit, so a code and a generation never overlap. */
  predicate CodesInRange(rows: seq<Button>) {
    forall i :: 0 <= i < |rows| ==> 0 < rows[i].keyCode < GenerationUnit
  }

  lemma TableHeadShape()
    ensures |TableHead| == 35 && NoSentinel(TableHead, ByName) && CodesInRange(TableHead)
  {
  }

  lemma TableMiddleShape()
    ensures |TableMiddle| == 35 && NoSentinel(TableMiddle, ByName) && CodesInRange(TableMiddle)
  {
  }

  lemma TableTailShape()
    ensures |TableTail| == 35 && IsSentinel(TableTail[34], ByName)
    ensures forall i :: 0 <= i < 34 ==> !IsSentinel(TableTail[i], ByName) && 0 < TableTail[i].keyCode < GenerationUnit
  {
  }

  /**
   * The table ends with its terminating row, and the 104 rows before it all
   * carry a code in 1 .. 0xffff.
   */
  lemma TableShape()
    ensures |Table| == 105 && Terminated(Table, ByName) && LiveCount(Table, ByName) == 104
    ensures CodesInRange(Table[..104])
  {
    TableHeadShape();
    TableMiddleShape();
    TableTailShape();
    var live := TableHead + TableMiddle + TableTail[..34];
    assert Table[..104] == live;
    assert Table[104] == TableTail[34];
    forall i | 0 <= i < 104 ensures !IsSentinel(live[i], ByName) && 0 < live[i].keyCode < GenerationUnit {
      if i < 35 {
        assert live[i] == TableHead[i];
      } else if i < 70 {
        assert live[i] == TableMiddle[i - 35];
      } else {
        assert live[i] == TableTail[i - 70];
      }
    }
    TerminatedLiveCount(Table, ByName);
  }

  /**
   * A name resolves to KEY_NULL exactly when no row before the terminating
   * row carries it, and otherwise to a code in 1 .. 0xffff.
   */
  lemma KeyCodeRange(keyName: string)
    ensures 0 <= KeyCode(Table, keyName) < GenerationUnit
    ensures KeyCode(Table, keyName) == KEY_NULL <==> forall i :: 0 <= i < 104 ==> Table[i].keyName != keyName
  {
    TableShape();
    var r := Lookup(Table, ByName, keyName);
    if r.Some? {
      var i :| 0 <= i < LiveCount(Table, ByName) && Token(Table[i], ByName) == keyName && Table[i].keyCode == r.value;
      assert Table[..104][i] == Table[i];
    }
  }

  /** KEY_PREVIOUS is not among the rows before its first occurrence. */
  lemma PreviousNotEarlier()
    ensures forall i :: 0 <= i < 35 ==> TableHead[i].keyName != "KEY_PREVIOUS"
    ensures forall i :: 0 <= i < 19 ==> TableMiddle[i].keyName != "KEY_PREVIOUS"
  {
  }

  /** The name KEY_PREVIOUS yields KEY_PREVIOUS: its first row wins. */
  lemma PreviousNameYieldsPrevious()
    ensures KeyCode(Table, "KEY_PREVIOUS") == KEY_PREVIOUS
  {
    TableShape();
    PreviousNotEarlier();
    forall j | 0 <= j < 54 ensures Table[j].keyName != "KEY_PREVIOUS" {
      if j < 35 {
        assert Table[j] == TableHead[j];
      } else {
        assert Table[j] == TableMiddle[j - 35];
      }
    }
    assert Table[54] == TableMiddle[19];
    LookupFirstMatch(Table, ByName, "KEY_PREVIOUS", 54);
  }

  /** The only row carrying KEY_NEXT is the one right after the first KEY_PREVIOUS row. */
  lemma NextRows()
    ensures forall i :: 0 <= i < 35 ==> TableHead[i].keyCode != KEY_NEXT
    ensures forall i :: 0 <= i < 35 && i != 20 ==> TableMiddle[i].keyCode != KEY_NEXT
    ensures forall i :: 0 <= i < 35 ==> TableTail[i].keyCode != KEY_NEXT
    ensures TableMiddle[19].keyName == TableMiddle[20].keyName
  {
  }

  /**
   * No key name yields KEY_NEXT: its row carries the name KEY_PREVIOUS, which
   * the row before it already answers.
   */
  lemma NextIsUnreachable(keyName: string)
    ensures KeyCode(Table, keyName) != KEY_NEXT
  {
    TableShape();
    NextRows();
    forall i | 0 <= i < 104 && i != 55 ensures Table[i].keyCode != KEY_NEXT {
      if i < 35 {
        assert Table[i] == TableHead[i];
      } else if i < 70 {
        assert Table[i] == TableMiddle[i - 35];
      } else {
        assert Table[i] == TableTail[i - 70];
      }
    }
    assert Table[54] == TableMiddle[19] && Table[55] == TableMiddle[20];
    assert Token(Table[54], ByName) == Token(Table[55], ByName);
    LookupNeverAnswers(Table, ByName, keyName, KEY_NEXT);
  }

  /** A line the scan cannot read yields no event and leaves the state as it was. */
  lemma UnparseableIsDropped(table: seq<Button>, s: KeyState, received: seq<char>, now: int)
    requires ScanLine(CString(received)).None?
    ensures Step(table, s, received, now) == Outcome(NoEvent, s)
  {
  }

  /** An empty read (the buffer still all NUL) is unparseable. */
  lemma EmptyReadIsDropped(table: seq<Button>, s: KeyState, received: seq<char>, now: int)
    requires received == [] || received[0] == '\0'
    ensures Step(table, s, received, now) == Outcome(NoEvent, s)
  {
    assert CString(received) == [];
  }

  /** A line that stops after the repeat count has no name: it is unparseable. */
  lemma NamelessLineIsDropped(table: seq<Button>, s: KeyState, code: nat, repeat: nat, now: int)
    ensures Step(table, s, ToHex(code, 16) + (" " + (ToHex(repeat, 2) + "\n")), now) == Outcome(NoEvent, s)
  {
    ToHexRoundTrip(code, 16);
    ToHexRoundTrip(repeat, 2);
    NamelessScan(ToHex(code, 16), ToHex(repeat, 2));
  }

  lemma NamelessScan(code: string, repeat: string)
    requires IsHexRun(code) && IsHexRun(repeat)
    ensures ScanLine(CString(code + (" " + (repeat + "\n")))) == None
  {
    var rest1 := " " + (repeat + "\n");
    var line := code + rest1;
    assert CString(line) == line by {
      CStringWithoutNul(line);
    }
    assert ScanHex(line) == Some((HexValue(code), rest1)) by {
      assert [] + line == line;
      ScanHexField([], code, rest1);
    }
    assert ScanHex(rest1) == Some((HexValue(repeat), "\n")) by {
      ScanHexField(" ", repeat, "\n");
    }
    assert ScanString("\n", MaxKeyNameLength) == None by {
      assert SkipSpaces("\n") == [];
    }
  }


  /** A name ending in the marker loses exactly that last character and counts one repeat more. */
  lemma LongPressMarkerCounts(count: nat, name: string)
    ensures StripLongPress(Frame(count, name + [LongPressMarker])) == Frame(count + 1, name)
    ensures StripLongPress(Frame(count, name + [LongPressMarker, LongPressMarker])) == Frame(count + 1, name + [LongPressMarker])
  {
    assert (name + [LongPressMarker])[..|name|] == name;
    assert (name + [LongPressMarker, LongPressMarker])[..|name| + 1] == name + [LongPressMarker];
  }

  /** Any other name is left as it is. */
  lemma UnmarkedNameKept(f: Frame)
    requires f.keyName == [] || f.keyName[|f.keyName| - 1] != LongPressMarker
    ensures StripLongPress(f) == f
  {
  }

  /** What a read makes of a broadcast line: the frame of its repeat count and its (cut) button name. */
  lemma ParseFormattedLine(code: nat, repeat: nat, button: string, remote: string)
    requires IsName(button) && IsName(remote)
    ensures var kept := if |button| < MaxKeyNameLength then |button| else MaxKeyNameLength;
      Parse(FormatLine(code, repeat, button, remote)) == Some(StripLongPress(Frame(repeat, button[..kept])))
  {
    FormatLineHasNoNul(code, repeat, button, remote);
    CStringWithoutNul(FormatLine(code, repeat, button, remote));
    ScanFormattedLine(code, repeat, button, remote);
  }

  /**
   * A broadcast line for the long-push name "name&" reads exactly as the line
   * for "name" with the repeat count one higher, whatever the codes lircd sent
   * (for a name that fits the buffer and does not itself end in the marker).
   */
  lemma LongPressLineEquivalence(table: seq<Button>, s: KeyState, code: nat, otherCode: nat, repeat: nat,
                                 name: string, remote: string, now: int)
    requires IsName(name) && IsName(remote) && |name| < MaxKeyNameLength
    requires name[|name| - 1] != LongPressMarker
    ensures Step(table, s, FormatLine(code, repeat, name + [LongPressMarker], remote), now)
         == Step(table, s, FormatLine(otherCode, repeat + 1, name, remote), now)
  {
    LongPressParse(code, otherCode, repeat, name, remote);
  }

  lemma LongPressParse(code: nat, otherCode: nat, repeat: nat, name: string, remote: string)
    requires IsName(name) && IsName(remote) && |name| < MaxKeyNameLength
    requires name[|name| - 1] != LongPressMarker
    ensures Parse(FormatLine(code, repeat, name + [LongPressMarker], remote))
         == Parse(FormatLine(otherCode, repeat + 1, name, remote))
         == Some(Frame(repeat + 1, name))
  {
    var marked := name + [LongPressMarker];
    assert IsName(marked) by {
      assert forall i :: 0 <= i < |name| ==> marked[i] == name[i];
    }
    assert Parse(FormatLine(code, repeat, marked, remote)) == Some(Frame(repeat + 1, name)) by {
      ParseShortLine(code, repeat, marked, remote);
      LongPressMarkerCounts(repeat, name);
    }
    assert Parse(FormatLine(otherCode, repeat + 1, name, remote)) == Some(Frame(repeat + 1, name)) by {
      ParseShortLine(otherCode, repeat + 1, name, remote);
      UnmarkedNameKept(Frame(repeat + 1, name));
    }
  }

  /** A line whose button name fits the buffer keeps the whole name. */
  lemma ParseShortLine(code: nat, repeat: nat, button: string, remote: string)
    requires IsName(button) && IsName(remote) && |button| <= MaxKeyNameLength
    ensures Parse(FormatLine(code, repeat, button, remote)) == Some(StripLongPress(Frame(repeat, button)))
  {
    ParseFormattedLine(code, repeat, button, remote);
    assert button[..|button|] == button;
  }

  /** A name no row carries yields KEY_NULL (0) and leaves the state as it was. */
  lemma UnknownKeyIsIgnored(s: KeyState, f: Frame, now: int)
    requires forall i :: 0 <= i < 104 ==> Table[i].keyName != f.keyName
    ensures Deliver(Table, s, f, now) == Outcome(KEY_NULL, s)
  {
    KeyCodeRange(f.keyName);
  }

  /**
   * A fresh press (repeat count 0) of a known key is dropped exactly when it
   * comes within SameKeyPressDelay of the last accepted press of the same key
   * or within KeyPressDelay of the last accepted press of any key.  A dropped
   * press changes nothing; an accepted one opens a new generation.
   */
  lemma FreshPressDebounce(s: KeyState, f: Frame, now: int)
    requires f.count == 0 && KeyCode(Table, f.keyName) != KEY_NULL
    ensures var o := Deliver(Table, s, f, now);
      var code := KeyCode(Table, f.keyName);
      var elapsed := now - s.lastKeyPressedTime;
      && (o.result == NoEvent <==>
            (s.lastKeyCode == code && elapsed < SameKeyPressDelay) || elapsed < KeyPressDelay)
      && (o.result == NoEvent ==> o.state == s)
      && (o.result != NoEvent ==> o.state == KeyState(code, f.keyName, now, s.nextflag + 1))
  {
    KeyCodeRange(f.keyName);
  }

  /**
   * A press lircd counts as a repeat is accepted whatever the time since the
   * last one, and stays in the current generation.
   */
  lemma RepeatAlwaysAccepted(s: KeyState, f: Frame, now: int)
    requires f.count > 0 && KeyCode(Table, f.keyName) != KEY_NULL
    ensures var o := Deliver(Table, s, f, now);
      && o.result != NoEvent
      && o.state == KeyState(KeyCode(Table, f.keyName), f.keyName, now, s.nextflag)
  {
    KeyCodeRange(f.keyName);
  }

  /**
   * A positive result is an accepted press, whose low 16 bits are the key
   * code and whose high part is the generation; anything else (-1 or 0)
   * leaves the state as it was.
   */
  lemma DeliverDecodes(s: KeyState, f: Frame, now: int)
    ensures var o := Deliver(Table, s, f, now);
      && o.result >= NoEvent
      && (o.result <= 0 ==> o.state == s)
      && (o.result > 0 ==>
            && o.result % GenerationUnit == o.state.lastKeyCode
            && o.result / GenerationUnit == o.state.nextflag
            && o.state.lastKeyPressedTime == now
            && o.state.lastKeyCode != KEY_NEXT)
  {
    KeyCodeRange(f.keyName);
    NextIsUnreachable(f.keyName);
    DeliverSplits(Table, s, f, now);
  }

  lemma DeliverSplits(table: seq<Button>, s: KeyState, f: Frame, now: int)
    requires 0 <= KeyCode(table, f.keyName) < GenerationUnit
    ensures var o := Deliver(table, s, f, now);
      && o.result >= NoEvent
      && (o.result <= 0 ==> o.state == s)
      && (o.result > 0 ==>
            && o.result % GenerationUnit == o.state.lastKeyCode == KeyCode(table, f.keyName)
            && o.result / GenerationUnit == o.state.nextflag
            && o.state.lastKeyPressedTime == now)
  {
    var code := KeyCode(table, f.keyName);
    if code != KEY_NULL && !(f.count == 0 && TooSoon(s, code, now)) {
      var flag := if f.count == 0 then s.nextflag + 1 else s.nextflag;
      var o := Deliver(table, s, f, now);
      assert o == Outcome(code + flag * GenerationUnit, KeyState(code, f.keyName, now, flag));
      GenerationSplit(o.result, code, flag);
    }
  }

  /** A code below the generation unit and its generation are recovered from their sum. */
  lemma GenerationSplit(result: int, code: int, flag: nat)
    requires 0 <= code < GenerationUnit && result == code + flag * GenerationUnit
    ensures result % GenerationUnit == code && result / GenerationUnit == flag
  {
  }

  /** DeliverDecodes for any read, parseable or not. */
  lemma ResultDecodes(s: KeyState, received: seq<char>, now: int)
    ensures var o := Step(Table, s, received, now);
      && o.result >= NoEvent
      && (o.result <= 0 ==> o.state == s)
      && (o.result > 0 ==>
            && o.result % GenerationUnit == o.state.lastKeyCode
            && o.result / GenerationUnit == o.state.nextflag
            && o.state.lastKeyPressedTime == now
            && o.state.lastKeyCode != KEY_NEXT)
  {
    if Parse(received).Some? {
      DeliverDecodes(s, Parse(received).value, now);
    }
  }

  /**
   * After a press is accepted, a fresh press of the same key less than
   * SameKeyPressDelay later is dropped, and the state of the first press stays.
   */
  lemma SameKeyTwiceIsDropped(s: KeyState, f1: Frame, t1: int, f2: Frame, t2: int)
    requires Deliver(Table, s, f1, t1).result > 0 && f2.count == 0
    requires KeyCode(Table, f2.keyName) == KeyCode(Table, f1.keyName)
    requires t2 - t1 < SameKeyPressDelay
    ensures var after := Deliver(Table, s, f1, t1).state;
      Deliver(Table, after, f2, t2) == Outcome(NoEvent, after)
  {
    DeliverDecodes(s, f1, t1);
  }

  /**
   * After a press is accepted, a fresh press of another key at least
   * KeyPressDelay later is accepted and opens the next generation.
   */
  lemma OtherKeyAfterDelayIsAccepted(s: KeyState, f1: Frame, t1: int, f2: Frame, t2: int)
    requires Deliver(Table, s, f1, t1).result > 0 && f2.count == 0
    requires KeyCode(Table, f2.keyName) != KEY_NULL && KeyCode(Table, f2.keyName) != KeyCode(Table, f1.keyName)
    requires t2 - t1 >= KeyPressDelay
    ensures var after := Deliver(Table, s, f1, t1).state;
      var o := Deliver(Table, after, f2, t2);
      o.result > 0 && o.state.nextflag == after.nextflag + 1
  {
    DeliverDecodes(s, f1, t1);
    KeyCodeRange(f2.keyName);
  }

  /** The first press after start-up, at least KeyPressDelay after time 0, is accepted. */
  lemma FirstPressIsAccepted(f: Frame, now: int)
    requires KeyCode(Table, f.keyName) != KEY_NULL && now >= KeyPressDelay
    ensures var o := Deliver(Table, Initial, f, now);
      o.result > 0 && o.state.nextflag == (if f.count == 0 then 1 else 0)
  {
    KeyCodeRange(f.keyName);
  }

  /** One read of a series: the bytes received and the time of the read. */
  datatype Input = Input(received: seq<char>, now: int)

  /** The state after a series of reads, in order. */
  function Run(table: seq<Button>, s: KeyState, inputs: seq<Input>): KeyState
    decreases |inputs|
  {
    if inputs == [] then s
    else Run(table, Step(table, s, inputs[0].received, inputs[0].now).state, inputs[1..])
  }

  /** Over a series of reads the generation never goes back, and grows by at most one per read. */
  lemma {:induction false} RunGenerations(table: seq<Button>, s: KeyState, inputs: seq<Input>)
    ensures s.nextflag <= Run(table, s, inputs).nextflag <= s.nextflag + |inputs|
    decreases |inputs|
  {
    if inputs != [] {
      var t := Step(table, s, inputs[0].received, inputs[0].now).state;
      RunGenerations(table, t, inputs[1..]);
    }
  }

  /** Read times that never go back and start no earlier than t. */
  predicate ClockFrom(t: int, inputs: seq<Input>) {
    && (forall i :: 0 <= i < |inputs| ==> t <= inputs[i].now)
    && (forall i, j :: 0 <= i < j < |inputs| ==> inputs[i].now <= inputs[j].now)
  }

  /**
   * With a clock that never goes back, the time of the last accepted press
   * never goes back either.
   */
  lemma {:induction false} RunClockMonotone(table: seq<Button>, s: KeyState, inputs: seq<Input>)
    requires ClockFrom(s.lastKeyPressedTime, inputs)
    ensures s.lastKeyPressedTime <= Run(table, s, inputs).lastKeyPressedTime
    decreases |inputs|
  {
    if inputs != [] {
      var t := Step(table, s, inputs[0].received, inputs[0].now).state;
      assert ClockFrom(t.lastKeyPressedTime, inputs[1..]) by {
        forall i | 0 <= i < |inputs| - 1 ensures inputs[1..][i] == inputs[i + 1] && inputs[0].now <= inputs[i + 1].now {
        }
      }
      RunClockMonotone(table, t, inputs[1..]);
    }
  }
}
