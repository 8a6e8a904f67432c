/** What a host reads back over the Steam Controller's control channel, in bytes:
    settings, attributes, strings and device information, after any command. */
module SteamReplies {
  import opened Ring
  import opened SteamHaptics
  import opened SteamFeatures
  import opened SteamSettings

  // ----- Reading bytes ----------------------------------------------------

  function Word(b: seq<uint8>, at: nat): int
    requires at + 2 <= |b|
  {
    b[at] as int + 0x100 * b[at + 1] as int
  }

  function Long(b: seq<uint8>, at: nat): int
    requires at + 4 <= |b|
  {
    Word(b, at) + 0x1_0000 * Word(b, at + 2)
  }

  /** A command as a host sends it. */
  function Command(kind: uint8, payload: seq<uint8>): (data: seq<uint8>)
    requires |payload| <= 255
  {
    [1, kind, |payload| as uint8] + payload
  }

  /** The report a host reads after a command. */
  function Answer(fs: FeatureState, kind: uint8, payload: seq<uint8>): seq<uint8>
    requires |payload| <= 255
  {
    GetFeature(SetFeature(fs, Command(kind, payload)).0, 64)
  }

  lemma {:induction false} CommandIs(kind: uint8, payload: seq<uint8>)
    requires |payload| <= 255
    ensures Transferable(Command(kind, payload)) && Payload(Command(kind, payload)) == payload && Command(kind, payload)[1] == kind
  {
    assert Command(kind, payload)[3..3 + |payload|] == payload;
  }

  lemma {:induction false} EffectKeepsReply(fs: FeatureState, kind: uint8, payload: seq<uint8>)
    ensures Effect(fs, kind, payload).reply == fs.reply && Effect(fs, kind, payload).haveReply == fs.haveReply
  {
    if kind == SET_SETTINGS { WrittenKeepsReply(fs, payload, |payload| / 3); }
  }

  lemma {:induction false} WrittenKeepsReply(fs: FeatureState, payload: seq<uint8>, n: nat)
    requires 3 * n <= |payload|
    ensures var w := Written(fs, payload, n); w == fs.(settings := w.settings, lizard := w.lizard, imu := w.imu)
  {
    if n > 0 { WrittenKeepsReply(fs, payload, n - 1); }
  }

  /** The answer is a whole report that names the command, says how much of it counts,
      and is zero behind the bytes it carries. */
  lemma {:induction false} AnswerIs(fs: FeatureState, kind: uint8, payload: seq<uint8>) returns (body: Body)
    requires |payload| <= 255
    ensures body == AnswerBody(fs, kind, payload)
    ensures var r := Answer(fs, kind, payload);
      && |r| == 64 && r[0] == 1 && r[1] == kind && r[2] == body.declared
      && (forall k :: 0 <= k < |body.bytes| ==> r[3 + k] == body.bytes[k])
      && (forall k :: 3 + |body.bytes| <= k < 64 ==> r[k] == 0)
  {
    CommandIs(kind, payload);
    body := AnswerBody(fs, kind, payload);
    EffectKeepsReply(fs.(reply := Reply(kind, body), haveReply := true), kind, payload);
  }

  // ----- Transfers --------------------------------------------------------

  /** A transfer is refused exactly when it is shorter than it says, or for another
      channel, and then changes nothing; what follows the bytes it declares is ignored. */
  lemma {:induction false} TransfersAreWhole(fs: FeatureState, data: seq<uint8>, padding: seq<uint8>)
    ensures SetFeature(fs, data).1 <==> |data| >= 3 && data[0] == 1 && |data| >= 3 + data[2] as int
    ensures !SetFeature(fs, data).1 ==> SetFeature(fs, data).0 == fs
    ensures SetFeature(fs, data).1 ==> SetFeature(fs, data + padding) == SetFeature(fs, data)
  {
    if Transferable(data) { assert Payload(data + padding) == Payload(data); }
  }

  /** Before any command, and whatever the command, the report is whole; a buffer that
      cannot hold it gets nothing. */
  lemma {:induction false} EveryCommandIsAnswered(fs: FeatureState, kind: uint8, payload: seq<uint8>, capacity: nat)
    requires |payload| <= 255
    ensures var after := SetFeature(fs, Command(kind, payload));
      && after.1
      && (capacity < 64 ==> GetFeature(after.0, capacity) == [])
      && (capacity >= 64 ==> GetFeature(after.0, capacity) == Answer(fs, kind, payload))
      && |Answer(fs, kind, payload)| == 64 && Answer(fs, kind, payload)[..2] == [1, kind]
  {
    CommandIs(kind, payload);
    var body := AnswerIs(fs, kind, payload);
  }

  /** Before the first command the report is blank but for its id. */
  lemma {:induction false} BlankBeforeCommands(fs: FeatureState, capacity: nat)
    requires !fs.haveReply
    ensures !Fresh().haveReply
    ensures capacity < 64 ==> GetFeature(fs, capacity) == []
    ensures capacity >= 64 ==>
      var r := GetFeature(fs, capacity);
      |r| == 64 && r[0] == 1 && forall k :: 1 <= k < 64 ==> r[k] == 0
  {}

  const KNOWN: set<uint8> := {0x81, 0x83, 0x85, 0x87, 0x89, 0x8B, 0x8C, 0x8E, 0x8F, 0xAE, 0xC1, 0xDC, 0xE2, 0xED, 0xF2}

  /** Exactly the commands outside the fifteen known ones are counted and remembered;
      no command but these, a write and a load of the defaults leaves a trace
      besides its reply. */
  lemma {:induction false} UnknownIsCounted(fs: FeatureState, kind: uint8, payload: seq<uint8>)
    requires |payload| <= 255
    ensures var after := SetFeature(fs, Command(kind, payload)).0;
      && after.unknownCommands == (if kind in KNOWN then fs.unknownCommands else (fs.unknownCommands + 1) % TWO_TO_32)
      && after.lastUnknown == (if kind in KNOWN then fs.lastUnknown else kind)
      && (kind != 0x87 && kind != 0x8E ==>
            after == fs.(reply := after.reply, haveReply := true, unknownCommands := after.unknownCommands, lastUnknown := after.lastUnknown))
  {
    CommandIs(kind, payload);
    if kind == SET_SETTINGS {
      var answered := fs.(reply := Reply(kind, AnswerBody(fs, kind, payload)), haveReply := true);
      WrittenKeepsReply(answered, payload, |payload| / 3);
    }
  }

  // ----- Settings ---------------------------------------------------------

  /** Low byte first: a value written to a setting is the value read back by a query
      for it, and no other setting changes; ids outside the table are ignored. */
  lemma {:induction false} WriteThenQuery(fs: FeatureState, id: uint8, low: uint8, high: uint8)
    ensures var after := SetFeature(fs, Command(0x87, [id, low, high])).0;
      && (forall i :: 0 <= i < 99 && i != id as int ==> after.settings[i] == fs.settings[i])
      && (id < 99 ==> after.settings[id as int] == low as int + 0x100 * high as int)
      && (id < 99 ==> Answer(after, 0x89, [id])[..6] == [1, 0x89, 3, id, low, high])
  {
    CommandIs(0x87, [id, low, high]);
    assert |[id, low, high]| / 3 == 1;
    var answered := fs.(reply := Reply(0x87, AnswerBody(fs, 0x87, [id, low, high])), haveReply := true);
    WrittenOnce(answered, [id, low, high]);
    var after := SetFeature(fs, Command(0x87, [id, low, high])).0;
    QueryAnswers(after, 0x89, [id], 0);
  }

  lemma {:induction false} WrittenOnce(fs: FeatureState, payload: seq<uint8>)
    requires |payload| == 3
    ensures Written(fs, payload, 1).settings == PutSetting(fs.settings, payload[0], Value(payload, 0))
  {
    assert Written(fs, payload, 0) == fs;
  }

  /** How many ids a query is answered with: the ones it lists, or the first ones of
      the table when it lists none, at most twenty. */
  function Answered(ids: seq<uint8>): nat {
    if ids == [] || |ids| > 20 then 20 else |ids|
  }

  /** A query lists each id with its value, its default or its maximum, by the command
      that asks: zero for ids outside the table, the maximum for every id. */
  lemma {:induction false} QueryAnswers(fs: FeatureState, kind: uint8, ids: seq<uint8>, k: nat)
    requires kind in {0x89, 0x8B, 0x8C} && |ids| <= 255 && k < Answered(ids)
    ensures var r := Answer(fs, kind, ids);
      var id: uint8 := if ids == [] then k as uint8 else ids[k];
      && |r| == 64 && r[2] as int == 3 * Answered(ids) && r[3 + 3 * k] == id
      && Word(r, 4 + 3 * k) ==
           if kind == 0x8B then 0xFFFF else if id >= 99 then 0
           else if kind == 0x89 then fs.settings[id as int] else if id == 9 then 1 else 0
  {
    var body := AnswerIs(fs, kind, ids);
    QueryBody(fs, kind, ids);
    QueryReads(Answer(fs, kind, ids), body.bytes, kind, fs.settings, ids, k);
  }

  lemma {:induction false} QueryReads(r: seq<uint8>, bytes: seq<uint8>, kind: uint8, settings: Table, ids: seq<uint8>, k: nat)
    requires kind in {0x89, 0x8B, 0x8C} && |ids| <= 255 && k < Answered(ids) && 3 + |bytes| <= |r|
    requires bytes == QueryBytes(kind, settings, Asked(ids), |Asked(ids)|) && forall i :: 0 <= i < |bytes| ==> r[3 + i] == bytes[i]
    ensures var id: uint8 := if ids == [] then k as uint8 else ids[k];
      && |Asked(ids)| == Answered(ids) && 6 + 3 * k <= |r| && r[3 + 3 * k] == id
      && Word(r, 4 + 3 * k) ==
           if kind == 0x8B then 0xFFFF else if id >= 99 then 0
           else if kind == 0x89 then settings[id as int] else if id == 9 then 1 else 0
  {
    var asked := Asked(ids);
    assert |asked| == Answered(ids) && asked[k] == (if ids == [] then k as uint8 else ids[k]);
    QueryBytesAt(kind, settings, asked, |asked|, k);
    QueriedIs(kind, settings, asked[k]);
    WordMoved(r, bytes, 3 * k + 1);
  }

  lemma {:induction false} QueryBody(fs: FeatureState, kind: uint8, ids: seq<uint8>)
    requires kind in {0x89, 0x8B, 0x8C}
    ensures var body, asked := AnswerBody(fs, kind, ids), Asked(ids);
      body.declared as int == 3 * |asked| && body.bytes == QueryBytes(kind, fs.settings, asked, |asked|)
  {}

  lemma {:induction false} QueriedIs(kind: uint8, settings: Table, id: uint8)
    requires kind in {0x89, 0x8B, 0x8C}
    ensures Queried(kind, settings, id) ==
      if kind == 0x8B then 0xFFFF else if id >= 99 then 0 else if kind == 0x89 then settings[id as int] else if id == 9 then 1 else 0
  {}

  lemma {:induction false} WordMoved(r: seq<uint8>, b: seq<uint8>, at: nat)
    requires at + 2 <= |b| && 3 + |b| <= |r| && forall k :: 0 <= k < |b| ==> r[3 + k] == b[k]
    ensures Word(r, 3 + at) == GetLe16(b[at], b[at + 1])
  {}

  // ----- Attributes and strings -------------------------------------------

  lemma {:induction false} LongReads(b: seq<uint8>, at: nat, v: u32)
    requires at + 4 <= |b| && b[at] == Le32(v)[0] && b[at + 1] == Le32(v)[1] && b[at + 2] == Le32(v)[2] && b[at + 3] == Le32(v)[3]
    ensures Long(b, at) == v
  {}

  /** A tag and its value. */
  function Field(tag: uint8, v: u32): (f: seq<uint8>)
    ensures |f| == 5
  {
    [tag] + Le32(v)
  }

  lemma {:induction false} FieldReads(b: seq<uint8>, before: seq<uint8>, tag: uint8, v: u32, behind: seq<uint8>)
    requires b == before + Field(tag, v) + behind
    ensures |b| == |before| + 5 + |behind| && b[|before|] == tag && Long(b, |before| + 1) == v
  {
    LongReads(b, |before| + 1, v);
  }

  lemma {:induction false} LongMoved(r: seq<uint8>, b: seq<uint8>, at: nat)
    requires at + 4 <= |b| && 3 + |b| <= |r| && forall k :: 0 <= k < |b| ==> r[3 + k] == b[k]
    ensures Long(r, 3 + at) == Long(b, at)
  {}

  /** The six attributes of the reply, each behind its tag. */
  lemma {:induction false} SixFields(a: Attributes)
    ensures var b := AttributesBody(a).bytes;
      && |b| == 30
      && b[0] == 1 && Long(b, 1) == a.productId && b[5] == 2 && Long(b, 6) == a.capabilities
      && b[10] == 10 && Long(b, 11) == a.bootloader && b[15] == 4 && Long(b, 16) == a.firmware
      && b[20] == 9 && Long(b, 21) == a.board && b[25] == 11 && Long(b, 26) == a.intervalUs
  {
    var b := AttributesBody(a).bytes;
    var f1, f2, f3 := Field(1, a.productId), Field(2, a.capabilities), Field(10, a.bootloader);
    var f4, f5, f6 := Field(4, a.firmware), Field(9, a.board), Field(11, a.intervalUs);
    SixParts(b, f1, f2, f3, f4, f5, f6);
    FieldReads(b, [], 1, a.productId, f2 + f3 + f4 + f5 + f6);
    FieldReads(b, f1, 2, a.capabilities, f3 + f4 + f5 + f6);
    FieldReads(b, f1 + f2, 10, a.bootloader, f4 + f5 + f6);
    FieldReads(b, f1 + f2 + f3, 4, a.firmware, f5 + f6);
    FieldReads(b, f1 + f2 + f3 + f4, 9, a.board, f6);
    FieldReads(b, f1 + f2 + f3 + f4 + f5, 11, a.intervalUs, []);
  }

  lemma {:induction false} SixParts(b: seq<uint8>, f1: seq<uint8>, f2: seq<uint8>, f3: seq<uint8>, f4: seq<uint8>, f5: seq<uint8>, f6: seq<uint8>)
    requires b == f1 + f2 + f3 + f4 + f5 + f6
    ensures b == [] + f1 + (f2 + f3 + f4 + f5 + f6) && b == f1 + f2 + (f3 + f4 + f5 + f6)
    ensures b == (f1 + f2) + f3 + (f4 + f5 + f6) && b == (f1 + f2 + f3) + f4 + (f5 + f6)
    ensures b == (f1 + f2 + f3 + f4) + f5 + f6 && b == (f1 + f2 + f3 + f4 + f5) + f6 + []
  {}

  lemma {:induction false} AttributesAnswer(fs: FeatureState)
    ensures var r := Answer(fs, 0x83, []);
      && |r| == 64 && r[2] == 30
      && r[3] == 1 && Long(r, 4) == fs.attrs.productId && r[8] == 2 && Long(r, 9) == fs.attrs.capabilities
      && r[13] == 10 && Long(r, 14) == fs.attrs.bootloader && r[18] == 4 && Long(r, 19) == fs.attrs.firmware
      && r[23] == 9 && Long(r, 24) == fs.attrs.board && r[28] == 11 && Long(r, 29) == fs.attrs.intervalUs
  {
    var body := AnswerIs(fs, 0x83, []);
    var r, b := Answer(fs, 0x83, []), body.bytes;
    SixFields(fs.attrs);
    LongMoved(r, b, 1);
    LongMoved(r, b, 6);
    LongMoved(r, b, 11);
    LongMoved(r, b, 16);
    LongMoved(r, b, 21);
    LongMoved(r, b, 26);
  }

  /** What a client forwards from a real controller is what Steam reads, each value
      under its own tag; the product id and the interval are the device's own. */
  lemma {:induction false} ForwardedIsRead(fs: FeatureState, firmware: u32, bootloader: u32, board: u32, capabilities: u32)
    ensures var r := Answer(ApplyAttributes(fs, Update(Some(firmware), Some(bootloader), Some(board), Some(capabilities), None, None)), 0x83, []);
      && |r| == 64
      && r[18] == 4 && Long(r, 19) == firmware && r[13] == 10 && Long(r, 14) == bootloader
      && r[23] == 9 && Long(r, 24) == board && r[8] == 2 && Long(r, 9) == capabilities
      && r[3] == 1 && Long(r, 4) == fs.attrs.productId && r[28] == 11 && Long(r, 29) == fs.attrs.intervalUs
  {
    AttributesAnswer(ApplyAttributes(fs, Update(Some(firmware), Some(bootloader), Some(board), Some(capabilities), None, None)));
  }

  /** An update changes only the numbers it carries. */
  lemma {:induction false} OnlyForwardedChanges(fs: FeatureState, u: Update)
    ensures var after := ApplyAttributes(fs, u);
      && (u.firmware == None ==> after.attrs.firmware == fs.attrs.firmware)
      && (u.bootloader == None ==> after.attrs.bootloader == fs.attrs.bootloader)
      && (u.board == None ==> after.attrs.board == fs.attrs.board)
      && (u.capabilities == None ==> after.attrs.capabilities == fs.attrs.capabilities)
      && (u.buildId == None ==> after.buildId == fs.buildId)
      && (u.serials == None ==> after.unitSerial == fs.unitSerial && after.boardSerial == fs.boardSerial)
      && after == fs.(attrs := after.attrs, buildId := after.buildId, unitSerial := after.unitSerial, boardSerial := after.boardSerial)
  {}

  /** At least one character before the first zero, and all of them printable ASCII. */
  ghost predicate Acceptable(s: Text) { exists n :: AcceptableTo(s, n) }

  predicate AcceptableTo(s: Text, n: nat) {
    1 <= n <= 16 && (n < 16 ==> s[n] == 0) && forall i :: 0 <= i < n ==> 0x20 <= s[i] <= 0x7E
  }

  lemma {:induction false} AcceptableIs(s: Text)
    ensures Acceptable(s) <==> Printable(s)
  {
    if Printable(s) {
      assert AcceptableTo(s, |Characters(s)|);
    } else if n :| AcceptableTo(s, n) {
      CharactersUnique(s, n);
    }
  }

  /** The string a host reads is the serial it asks for, unit or board. */
  lemma {:induction false} StringAnswer(fs: FeatureState, payload: seq<uint8>)
    requires |payload| <= 255
    ensures var tag := if payload == [] then 1 else payload[0];
      var r := Answer(fs, 0xAE, payload);
      && |r| == 64 && r[2] == 20 && r[3] == tag
      && Characters(r[4..]) == Characters(if tag == 0 then fs.boardSerial else fs.unitSerial)
  {
    var body := AnswerIs(fs, 0xAE, payload);
    var r, text := Answer(fs, 0xAE, payload), body.bytes[1..];
    assert forall k :: 0 <= k < |text| ==> r[4..][k] == text[k];
    assert r[4..][..|text|] == text;
    CharactersUnique(r[4..], |text|);
  }

  /** Each forwarded serial stands on its own: an acceptable one is read back, cut to
      fifteen characters, and any other leaves the one before it. */
  lemma {:induction false} SerialsStandAlone(fs: FeatureState, unit: Text, board: Text)
    ensures var after := ApplyAttributes(fs, Update(None, None, None, None, None, Some((unit, board))));
      var r, s := Answer(after, 0xAE, [1]), Answer(after, 0xAE, [0]);
      && |r| == 64 && |s| == 64 && r[3] == 1 && s[3] == 0
      && Characters(r[4..]) == (if Acceptable(unit) then Cut(Characters(unit)) else Characters(fs.unitSerial))
      && Characters(s[4..]) == (if Acceptable(board) then Cut(Characters(board)) else Characters(fs.boardSerial))
  {
    var after := ApplyAttributes(fs, Update(None, None, None, None, None, Some((unit, board))));
    AcceptableIs(unit);
    AcceptableIs(board);
    StoredCharacters(unit);
    StoredCharacters(board);
    StringAnswer(after, [1]);
    StringAnswer(after, [0]);
  }

  lemma {:induction false} PaddedReads(text: seq<uint8>)
    requires |text| <= 16 && forall i :: 0 <= i < |text| ==> text[i] != 0
    ensures Characters(Padded(text)) == text
  {
    CharactersUnique(Padded(text), |text|);
  }

  /** What Steam reads from a device no client has forwarded anything to: the numbers of
      the captured unit. */
  lemma {:induction false} FreshNumbers(fs: FeatureState)
    requires fs.attrs == Fresh().attrs
    ensures var r := Answer(fs, 0x83, []);
      && |r| == 64 && Long(r, 4) == 0x1302 && Long(r, 9) == 0 && Long(r, 14) == 0x68D2F92E
      && Long(r, 19) == 0x6A4D85E3 && Long(r, 24) == 0x4A && Long(r, 29) == 4000
  {
    AttributesAnswer(fs);
  }

  /** And serials of its own: "LVGSC260000" for the unit, "LVGSC26BOARD0" for the board. */
  lemma {:induction false} FreshSerials(fs: FeatureState)
    requires fs.unitSerial == Fresh().unitSerial && fs.boardSerial == Fresh().boardSerial
    ensures var unit, board := Answer(fs, 0xAE, [1]), Answer(fs, 0xAE, [0]);
      |unit| == 64 && Characters(unit[4..]) == UNIT_SERIAL && |board| == 64 && Characters(board[4..]) == BOARD_SERIAL
  {
    StringAnswer(fs, [1]);
    StringAnswer(fs, [0]);
    PaddedReads(UNIT_SERIAL);
    PaddedReads(BOARD_SERIAL);
  }

  function Cut(s: seq<uint8>): seq<uint8> { if |s| > 15 then s[..15] else s }

  lemma {:induction false} TextMoved(r: seq<uint8>, b: seq<uint8>, at: nat, text: seq<uint8>)
    requires at + 16 <= |b| && 3 + |b| <= |r| && (forall k :: 0 <= k < |b| ==> r[3 + k] == b[k])
    requires |text| <= 16 && (forall k :: 0 <= k < |text| ==> text[k] != 0) && b[at..at + 16] == text + Zeros(16 - |text|)
    ensures Characters(r[3 + at..19 + at]) == text
  {
    assert r[3 + at..19 + at] == b[at..at + 16];
    CharactersUnique(b[at..at + 16], |text|);
  }

  lemma {:induction false} FiveParts(b: seq<uint8>, page: uint8, f: seq<uint8>, g: seq<uint8>, x: seq<uint8>, y: seq<uint8>)
    requires |f| == |g| == 4 && |x| == |y| == 16 && b == [page] + f + g + x + y
    ensures |b| == 41 && b[0] == page && b[1..5] == f && b[5..9] == g && b[9..25] == x && b[25..41] == y
  {}

  lemma {:induction false} LongIn(b: seq<uint8>, at: nat, v: u32)
    requires at + 4 <= |b| && b[at..at + 4] == Le32(v)
    ensures Long(b, at) == v
  {
    var w := b[at..at + 4];
    assert b[at] == w[0] && b[at + 1] == w[1] && b[at + 2] == w[2] && b[at + 3] == w[3];
    LongReads(b, at, v);
  }

  lemma {:induction false} InfoReads(b: seq<uint8>, firmware: u32, board: u32, x: seq<uint8>, y: seq<uint8>)
    requires |x| == |y| == 16 && b == [0] + Le32(firmware) + Le32(board) + x + y
    ensures |b| == 41 && b[0] == 0 && Long(b, 1) == firmware && Long(b, 5) == board && b[9..25] == x && b[25..41] == y
  {
    FiveParts(b, 0, Le32(firmware), Le32(board), x, y);
    LongIn(b, 1, firmware);
    LongIn(b, 5, board);
  }

  /** Device information: firmware, board revision, build id and unit serial. */
  lemma {:induction false} DeviceInfoAnswer(fs: FeatureState)
    ensures var r := Answer(fs, 0xF2, []);
      && |r| == 64 && r[2] == 41 && r[3] == 0 && Long(r, 4) == fs.attrs.firmware && Long(r, 8) == fs.attrs.board
      && Characters(r[12..28]) == Characters(fs.buildId) && Characters(r[28..44]) == Characters(fs.unitSerial)
  {
    var body := AnswerIs(fs, 0xF2, []);
    InfoBytes(fs);
    InfoMoved(Answer(fs, 0xF2, []), body.bytes, fs.attrs.firmware, fs.attrs.board, Characters(fs.buildId), Characters(fs.unitSerial));
  }

  lemma {:induction false} InfoBytes(fs: FeatureState)
    ensures AnswerBody(fs, 0xF2, []) ==
      Body(41, [0] + Le32(fs.attrs.firmware) + Le32(fs.attrs.board) + Padded(Characters(fs.buildId)) + Padded(Characters(fs.unitSerial)))
  {}

  lemma {:induction false} InfoMoved(r: seq<uint8>, b: seq<uint8>, firmware: u32, board: u32, build: seq<uint8>, serial: seq<uint8>)
    requires |build| <= 16 && |serial| <= 16 && b == [0] + Le32(firmware) + Le32(board) + Padded(build) + Padded(serial)
    requires (forall k :: 0 <= k < |build| ==> build[k] != 0) && (forall k :: 0 <= k < |serial| ==> serial[k] != 0)
    requires 3 + |b| <= |r| && forall k :: 0 <= k < |b| ==> r[3 + k] == b[k]
    ensures |b| == 41 && r[3] == 0 && Long(r, 4) == firmware && Long(r, 8) == board
    ensures Characters(r[12..28]) == build && Characters(r[28..44]) == serial
  {
    InfoReads(b, firmware, board, Padded(build), Padded(serial));
    LongMoved(r, b, 1);
    LongMoved(r, b, 5);
    TextMoved(r, b, 9, build);
    TextMoved(r, b, 25, serial);
  }

  /** The other pages: one of 34 bytes, and a counter page whose flag is set. */
  lemma {:induction false} OtherPages(fs: FeatureState, page: uint8)
    requires page != 0
    ensures var r := Answer(fs, 0xF2, [page]);
      |r| == 64 && r[2] == (if page == 1 then 34 else 9) && r[3] == page && r[6] == (if page == 1 then 0 else 1)
      && forall k :: 7 <= k < 64 ==> r[k] == 0
  {
    var body := AnswerIs(fs, 0xF2, [page]);
  }

  /** Of the keyed values only the transport has one, a single zero byte; the commands
      that ask for nothing get nothing. */
  lemma {:induction false} NothingToSay(fs: FeatureState, kind: uint8, payload: seq<uint8>)
    requires |payload| <= 255 && kind !in {0x83, 0x89, 0x8B, 0x8C, 0xAE, 0xF2}
    ensures var r := Answer(fs, kind, payload);
      && |r| == 64 && r[2] == (if kind == 0xED && payload == TRANSPORT_KEY then 1 else 0)
      && forall k :: 3 <= k < 64 ==> r[k] == 0
  {
    var body := AnswerIs(fs, kind, payload);
  }

  // ----- The events of a write --------------------------------------------

  lemma {:induction false} ChunksAt(payload: seq<uint8>, triples: nat, m: nat, j: nat)
    requires 3 * triples <= |payload| && j < m && 9 * (m - 1) <= triples
    ensures 9 * j <= triples && Chunks(payload, triples, m)[j] == Chunk(SET_SETTINGS, ChunkTriples(payload, triples, j))
  {
    if j < m - 1 { ChunksAt(payload, triples, m - 1, j); }
  }

  lemma {:induction false} ChunkBytes(triples: seq<uint8>, k: nat)
    requires |triples| <= 27 && |triples| % 3 == 0
    ensures var p := Chunk(SET_SETTINGS, triples).payload;
      && |p| == 32 && p[0] == 0x87 && p[1] as int == |triples| / 3 && p[2] == p[3] == p[4] == 0
      && (k < |triples| ==> p[5 + k] == triples[k])
  {}

  lemma {:induction false} NinthOf(k: nat, n: nat)
    requires k < n
    ensures k / 9 < (n + 8) / 9 && 9 * (k / 9) <= k && k == 9 * (k / 9) + k % 9 && 9 * ((n + 8) / 9 - 1) <= n
  {}

  lemma {:induction false} EventIs(payload: seq<uint8>, c: nat)
    requires |payload| <= 255 && 0 < |payload| / 3 <= 27 && c < (|payload| / 3 + 8) / 9
    ensures var events, n := ApplySettings(Command(0x87, payload), 3), |payload| / 3;
      |events| == (n + 8) / 9 && 9 * c <= n && events[c] == Chunk(SET_SETTINGS, ChunkTriples(payload, n, c))
  {
    var n := |payload| / 3;
    CommandIs(0x87, payload);
    NinthOf(n - 1, n);
    ChunksAt(payload, n, (n + 8) / 9, c);
  }

  lemma {:induction false} TripleAt(payload: seq<uint8>, n: nat, c: nat, i: nat, j: nat)
    requires 3 * n <= |payload| && 9 * c + i < n && i < 9 && j < 3
    ensures var t := ChunkTriples(payload, n, c);
      3 * i + j < |t| && t[3 * i + j] == payload[3 * (9 * c + i) + j] && |t| / 3 == (if n - 9 * c < 9 then n - 9 * c else 9)
  {}

  /** A write of up to twenty-seven triples becomes as many events as it takes at nine a
      piece, each with the command, its count and its triples: triple i of event c is
      triple 9 c + i of the write, byte for byte. */
  lemma {:induction false} EventsCarryTheWrite(payload: seq<uint8>, c: nat, i: nat, j: nat)
    requires |payload| <= 255 && 9 * c + i < |payload| / 3 <= 27 && i < 9 && j < 3
    ensures var events, n := ApplySettings(Command(0x87, payload), 3), |payload| / 3;
      && |events| == (n + 8) / 9 && c < |events|
      && events[c].kind == SteamHaptics.SteamSettings && events[c].payloadSize == 32
      && events[c].payload[..2] == [0x87, (if n - 9 * c < 9 then n - 9 * c else 9) as uint8]
      && events[c].payload[5 + 3 * i + j] == payload[3 * (9 * c + i) + j]
  {
    var n := |payload| / 3;
    NinthOf(9 * c + i, n);
    EventIs(payload, c);
    TripleAt(payload, n, c, i, j);
    ChunkBytes(ChunkTriples(payload, n, c), 3 * i + j);
  }

  /** A load of the defaults is one event without triples; no other command is forwarded,
      and neither is a write of more than twenty-seven triples or of none. */
  lemma {:induction false} NothingElseIsForwarded(kind: uint8, payload: seq<uint8>)
    requires |payload| <= 255
    ensures var events := ApplySettings(Command(kind, payload), 3);
      && (kind == 0x8E ==> |events| == 1 && events[0].kind == SteamHaptics.SteamSettings && events[0].payload[..2] == [0x8E, 0])
      && (kind != 0x8E && kind != 0x87 ==> events == [])
      && (kind == 0x87 ==> (events == [] <==> |payload| / 3 == 0 || |payload| / 3 > 27))
  {
    CommandIs(kind, payload);
  }

  // ----- The ring of settings events --------------------------------------

  /** The events of every accepted transfer, in order. */
  function Offered(ops: seq<Op>): seq<Event> {
    if ops == [] then []
    else
      var op := ops[|ops| - 1];
      Offered(ops[..|ops| - 1]) + if op.Write? then ApplySettings(op.data, EVENTS_PER_WRITE) else []
  }

  /** The polls that got an event. */
  function Polled(ops: seq<Op>): nat {
    if ops == [] then 0
    else Polled(ops[..|ops| - 1]) + if ops[|ops| - 1].Poll? && Exec(ops[..|ops| - 1]).ring != [] then 1 else 0
  }

  /** The newest `|ring|` of the events, the others gone by a poll or an eviction. */
  predicate NewestOf(ring: seq<Event>, offered: seq<Event>, gone: nat) {
    |ring| <= QUEUE_CAPACITY && gone + |ring| == |offered| && ring == offered[gone..]
  }

  lemma {:induction false} EnqueueNewest(r: Run, events: seq<Event>, offered: seq<Event>, gone: nat)
    requires NewestOf(r.ring, offered, gone)
    ensures var r' := Enqueue(r, events);
      && r'.lost >= r.lost && NewestOf(r'.ring, offered + events, gone + r'.lost - r.lost)
      && (r'.lost > r.lost ==> |r.ring| + |events| > QUEUE_CAPACITY)
      && (|r.ring| + |events| <= QUEUE_CAPACITY ==> |r'.ring| == |r.ring| + |events|)
  {
    if events == [] {
      assert offered + [] == offered;
    } else {
      var n := |events| - 1;
      EnqueueNewest(r, events[..n], offered, gone);
      var before := Enqueue(r, events[..n]);
      assert offered + events == (offered + events[..n]) + [events[n]];
      RingNewest(before.ring, offered + events[..n], gone + before.lost - r.lost, events[n]);
    }
  }

  lemma {:induction false} RingNewest(ring: seq<Event>, offered: seq<Event>, gone: nat, e: Event)
    requires NewestOf(ring, offered, gone)
    ensures NewestOf(RingAfter(ring, e, QUEUE_CAPACITY), offered + [e], if |ring| == QUEUE_CAPACITY then gone + 1 else gone)
  {}

  lemma {:induction false} WriteNewest(r: Run, data: seq<uint8>, offered: seq<Event>, gone: nat)
    requires NewestOf(r.ring, offered, gone)
    ensures var r' := Step(r, Write(data));
      r'.lost >= r.lost && NewestOf(r'.ring, offered + ApplySettings(data, EVENTS_PER_WRITE), gone + r'.lost - r.lost)
  {
    var (fs, ok) := SetFeature(r.fs, data);
    EnqueueNewest(r.(fs := fs), ApplySettings(data, EVENTS_PER_WRITE), offered, gone);
    if !ok { assert offered + [] == offered; }
  }

  lemma {:induction false} PollNewest(r: Run, offered: seq<Event>, gone: nat)
    requires NewestOf(r.ring, offered, gone)
    ensures var r' := Step(r, Poll);
      r'.lost == r.lost && NewestOf(r'.ring, offered, if r.ring == [] then gone else gone + 1)
  {}

  /** In every run the ring holds the newest events in order, all events are pending,
      polled or counted as lost, and the oldest go first. */
  lemma {:induction false} RingHoldsTheNewest(ops: seq<Op>)
    ensures NewestOf(Exec(ops).ring, Offered(ops), Polled(ops) + Exec(ops).lost)
  {
    if ops != [] {
      var front, op := ops[..|ops| - 1], ops[|ops| - 1];
      RingHoldsTheNewest(front);
      var gone := Polled(front) + Exec(front).lost;
      if op.Write? {
        WriteNewest(Exec(front), op.data, Offered(front), gone);
      } else {
        PollNewest(Exec(front), Offered(front), gone);
        assert Offered(front) + [] == Offered(front);
      }
    }
  }
}
