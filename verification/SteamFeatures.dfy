/** The Steam Controller's feature-report control channel: the settings table,
    the reply buffer, and the identity strings a host may replace.
    `FeatureState` is the abstract value, `FeatureChannel` the object. */
module SteamFeatures {
  import opened Ring
  import opened SteamHaptics

  type u16 = x: int | 0 <= x < 0x1_0000
  type u32 = x: int | 0 <= x < 0x1_0000_0000

  const FEATURES_ID: uint8 := 1
  const REPORT_SIZE := 64
  const BODY_SIZE := 61
  const SETTING_COUNT := 99
  const LIZARD_MODE := 9
  const IMU_MODE := 48
  const MAX_TRIPLES := 20

  const CLEAR_MAPPINGS: uint8 := 0x81
  const GET_ATTRIBUTES: uint8 := 0x83
  const DEFAULT_MAPPINGS: uint8 := 0x85
  const SET_SETTINGS: uint8 := 0x87
  const GET_SETTINGS: uint8 := 0x89
  const GET_MAXS: uint8 := 0x8B
  const GET_DEFAULTS: uint8 := 0x8C
  const LOAD_DEFAULTS: uint8 := 0x8E
  const HAPTIC_PULSE: uint8 := 0x8F
  const GET_STRING: uint8 := 0xAE
  const WRITE_C1: uint8 := 0xC1
  const WRITE_DC: uint8 := 0xDC
  const WRITE_E2: uint8 := 0xE2
  const GET_KEYED: uint8 := 0xED
  const GET_DEVICE_INFO: uint8 := 0xF2

  // ----- Little-endian words ----------------------------------------------

  function Le16(v: u16): (b: seq<uint8>)
    ensures |b| == 2
  {
    [(v % 0x100) as uint8, (v / 0x100) as uint8]
  }

  function Le32(v: u32): (b: seq<uint8>)
    ensures |b| == 4
  {
    Le16(v % 0x1_0000) + Le16(v / 0x1_0000)
  }

  function GetLe16(low: uint8, high: uint8): u16 { low as int + high as int * 0x100 }

  // ----- The settings table -----------------------------------------------

  type Table = t: seq<u16> | |t| == SETTING_COUNT witness seq(SETTING_COUNT, _ => 0)

  function DefaultSetting(id: int): u16 { if id == LIZARD_MODE then 1 else 0 }

  function DefaultSettings(): (t: Table)
    ensures forall i :: 0 <= i < SETTING_COUNT ==> t[i] == DefaultSetting(i)
  {
    seq(SETTING_COUNT, i requires 0 <= i < SETTING_COUNT => DefaultSetting(i))
  }

  function Value(payload: seq<uint8>, k: nat): u16
    requires 3 * k + 3 <= |payload|
  {
    GetLe16(payload[3 * k + 1], payload[3 * k + 2])
  }

  function PutSetting(t: Table, id: uint8, value: u16): Table {
    if id as int < SETTING_COUNT then t[id as int := value] else t
  }

  /** The table after the first `n` (id, value) triples of a write. */
  function Triples(t: Table, payload: seq<uint8>, n: nat): (t': Table)
    requires 3 * n <= |payload|
  {
    if n == 0 then t else PutSetting(Triples(t, payload, n - 1), payload[3 * (n - 1)], Value(payload, n - 1))
  }

  // ----- Identity strings -------------------------------------------------

  type Text = s: seq<uint8> | |s| == 16 witness seq(16, _ => 0)

  /** The characters before the first NUL, or all sixteen. */
  function Characters(s: seq<uint8>): (c: seq<uint8>)
    ensures |c| <= |s| && c == s[..|c|]
    ensures forall i :: 0 <= i < |c| ==> c[i] != 0
    ensures |c| < |s| ==> s[|c|] == 0
  {
    if s == [] || s[0] == 0 then [] else [s[0]] + Characters(s[1..])
  }

  function Padded(s: seq<uint8>): Text
    requires |s| <= 16
  {
    s + Zeros(16 - |s|)
  }

  predicate Printable(s: Text) {
    Characters(s) != [] && forall i :: 0 <= i < |Characters(s)| ==> 0x20 <= Characters(s)[i] <= 0x7E
  }

  /** At most fifteen characters, NUL padded, so the last byte is always NUL. */
  function Stored(s: Text): (t: Text)
    ensures t[15] == 0
  {
    var c := Characters(s);
    var kept := if |c| > 15 then c[..15] else c;
    Padded(kept)
  }

  datatype Attributes = Attributes(
    productId: u32, capabilities: u32, firmware: u32, board: u32, bootloader: u32, intervalUs: u32)

  const PRODUCT_ID := 0x1302
  const INTERVAL_US := 4000

  const UNIT_SERIAL: seq<uint8> := [0x4C, 0x56, 0x47, 0x53, 0x43, 0x32, 0x36, 0x30, 0x30, 0x30, 0x30]
  const BOARD_SERIAL: seq<uint8> :=
    [0x4C, 0x56, 0x47, 0x53, 0x43, 0x32, 0x36, 0x42, 0x4F, 0x41, 0x52, 0x44, 0x30]
  const BUILD_ID: seq<uint8> := [0x30, 0x30, 0x30, 0x30, 0x30, 0x30, 0x30, 0x30, 0x30, 0x30, 0x30, 0x30]

  datatype FeatureState = FeatureState(
    attrs: Attributes,
    unitSerial: Text,
    boardSerial: Text,
    buildId: Text,
    settings: Table,
    lizard: bool,
    imu: uint8,
    reply: seq<uint8>,
    haveReply: bool,
    lastUnknown: uint8,
    unknownCommands: nat)

  function Fresh(): FeatureState {
    FeatureState(
      Attributes(PRODUCT_ID, 0, 0x6A4D85E3, 0x4A, 0x68D2F92E, INTERVAL_US),
      Padded(UNIT_SERIAL), Padded(BOARD_SERIAL), Padded(BUILD_ID),
      DefaultSettings(), true, 0, Zeros(REPORT_SIZE), false, 0, 0)
  }

  // ----- Replies ----------------------------------------------------------

  datatype Body = Body(declared: uint8, bytes: seq<uint8>)

  predicate BodyFits(b: Body) { |b.bytes| <= BODY_SIZE }

  function Reply(kind: uint8, b: Body): (r: seq<uint8>)
    requires BodyFits(b)
    ensures |r| == REPORT_SIZE
  {
    [FEATURES_ID, kind, b.declared] + b.bytes + Zeros(BODY_SIZE - |b.bytes|)
  }

  /** What a settings query answers for one id. */
  function Queried(kind: uint8, settings: Table, id: uint8): u16 {
    if (id as int) < SETTING_COUNT && kind == GET_SETTINGS then settings[id as int]
    else if kind == GET_MAXS then 0xFFFF
    else if (id as int) < SETTING_COUNT then DefaultSetting(id as int)
    else 0
  }

  /** The ids a settings query asks for: the ones listed, or the first ones. */
  function Asked(payload: seq<uint8>): (ids: seq<uint8>)
    ensures |ids| <= MAX_TRIPLES
  {
    if payload == [] then FirstIds(MAX_TRIPLES)
    else if |payload| > MAX_TRIPLES then payload[..MAX_TRIPLES] else payload
  }

  function FirstIds(n: nat): (ids: seq<uint8>)
    requires n <= MAX_TRIPLES
    ensures |ids| == n && forall i :: 0 <= i < n ==> ids[i] as int == i
  {
    seq(n, i requires 0 <= i < n => i as uint8)
  }

  function QueryBytes(kind: uint8, settings: Table, ids: seq<uint8>, n: nat): (b: seq<uint8>)
    requires n <= |ids|
    ensures |b| == 3 * n
  {
    if n == 0 then []
    else QueryBytes(kind, settings, ids, n - 1) + [ids[n - 1]] + Le16(Queried(kind, settings, ids[n - 1]))
  }

  const TRANSPORT_KEY: seq<uint8> := [
    0x75, 0x73, 0x65, 0x72, 0x2F, 0x77, 0x69, 0x72, 0x65, 0x6C, 0x65, 0x73,
    0x73, 0x5F, 0x74, 0x72, 0x61, 0x6E, 0x73, 0x70, 0x6F, 0x72, 0x74, 0x00]

  function AttributesBody(a: Attributes): (b: Body)
    ensures BodyFits(b)
  {
    Body(30, [1] + Le32(a.productId) + [2] + Le32(a.capabilities) + [10] + Le32(a.bootloader) +
             [4] + Le32(a.firmware) + [9] + Le32(a.board) + [11] + Le32(a.intervalUs))
  }

  function StringBody(fs: FeatureState, payload: seq<uint8>): (b: Body)
    ensures BodyFits(b)
  {
    var tag := if payload != [] then payload[0] else 1;
    Body(20, [tag] + Characters(if tag == 0 then fs.boardSerial else fs.unitSerial))
  }

  function DeviceInfoBody(fs: FeatureState, payload: seq<uint8>): (b: Body)
    ensures BodyFits(b)
  {
    var sub := if payload != [] then payload[0] else 0;
    if sub == 0 then
      Body(41, [0] + Le32(fs.attrs.firmware) + Le32(fs.attrs.board) +
               Padded(Characters(fs.buildId)) + Padded(Characters(fs.unitSerial)))
    else if sub == 1 then Body(34, [1])
    else Body(9, [sub, 0, 0, 1])
  }

  predicate IsQuery(kind: uint8) { kind == GET_SETTINGS || kind == GET_DEFAULTS || kind == GET_MAXS }

  predicate IsKnown(kind: uint8) {
    || kind in {CLEAR_MAPPINGS, GET_ATTRIBUTES, DEFAULT_MAPPINGS, SET_SETTINGS, LOAD_DEFAULTS, HAPTIC_PULSE}
    || kind in {GET_STRING, WRITE_C1, WRITE_DC, WRITE_E2, GET_KEYED, GET_DEVICE_INFO}
    || IsQuery(kind)
  }

  function AnswerBody(fs: FeatureState, kind: uint8, payload: seq<uint8>): (b: Body)
    ensures BodyFits(b)
  {
    if IsQuery(kind) then
      Body((3 * |Asked(payload)|) as uint8, QueryBytes(kind, fs.settings, Asked(payload), |Asked(payload)|))
    else if kind == GET_ATTRIBUTES then AttributesBody(fs.attrs)
    else if kind == GET_STRING then StringBody(fs, payload)
    else if kind == GET_KEYED then (if payload == TRANSPORT_KEY then Body(1, [0]) else Body(0, []))
    else if kind == GET_DEVICE_INFO then DeviceInfoBody(fs, payload)
    else Body(0, [])
  }

  // ----- SetFeature and GetFeature ----------------------------------------

  /** A transfer names the control channel and carries all the bytes it declares. */
  predicate Transferable(data: seq<uint8>) {
    |data| >= 3 && data[0] == FEATURES_ID && data[2] as int <= |data| - 3
  }

  function Payload(data: seq<uint8>): (p: seq<uint8>)
    requires Transferable(data)
    ensures |p| == data[2] as int
  {
    data[3..3 + data[2] as int]
  }

  /** The bookkeeping fields after a command whose settings effect is `settings`. */
  function Effect(fs: FeatureState, kind: uint8, payload: seq<uint8>): FeatureState {
    if kind == LOAD_DEFAULTS then fs.(settings := DefaultSettings(), lizard := true, imu := 0)
    else if kind == SET_SETTINGS then Written(fs, payload, |payload| / 3)
    else if IsKnown(kind) then fs
    else fs.(lastUnknown := kind, unknownCommands := (fs.unknownCommands + 1) % TWO_TO_32)
  }

  /** After the first `n` triples: the table, and the two flags that mirror it. */
  function Written(fs: FeatureState, payload: seq<uint8>, n: nat): FeatureState
    requires 3 * n <= |payload|
  {
    if n == 0 then fs
    else
      var before, id, value := Written(fs, payload, n - 1), payload[3 * (n - 1)], Value(payload, n - 1);
      before.(settings := PutSetting(before.settings, id, value),
              lizard := if id as int == LIZARD_MODE then value != 0 else before.lizard,
              imu := if id as int == IMU_MODE then (value % 0x100) as uint8 else before.imu)
  }

  function SetFeature(fs: FeatureState, data: seq<uint8>): (r: (FeatureState, bool)) {
    if !Transferable(data) then (fs, false)
    else
      var kind, payload := data[1], Payload(data);
      (Effect(fs.(reply := Reply(kind, AnswerBody(fs, kind, payload)), haveReply := true), kind, payload), true)
  }

  /** The report a GetFeature returns, or nothing when the buffer is too small. */
  function GetFeature(fs: FeatureState, capacity: nat): (r: seq<uint8>) {
    if capacity < REPORT_SIZE then []
    else if fs.haveReply then fs.reply
    else [FEATURES_ID] + Zeros(REPORT_SIZE - 1)
  }

  // ----- Attributes forwarded from a real controller ----------------------

  datatype Update = Update(
    firmware: Option<u32>, bootloader: Option<u32>, board: Option<u32>, capabilities: Option<u32>,
    buildId: Option<Text>, serials: Option<(Text, Text)>)

  function Or(o: Option<u32>, current: u32): u32 { if o.Some? then o.value else current }

  function Adopt(s: Text, current: Text): Text { if Printable(s) then Stored(s) else current }

  function WithNumbers(a: Attributes, u: Update): Attributes {
    a.(firmware := Or(u.firmware, a.firmware), bootloader := Or(u.bootloader, a.bootloader),
       board := Or(u.board, a.board), capabilities := Or(u.capabilities, a.capabilities))
  }

  /** The flags of the fields an update changes: one bit each, and one for both serials. */
  function AppliedFlags(u: Update): nat {
    (if u.firmware.Some? then 0x01 else 0) + (if u.bootloader.Some? then 0x02 else 0)
    + (if u.board.Some? then 0x04 else 0) + (if u.capabilities.Some? then 0x08 else 0)
    + (if u.buildId.Some? && Printable(u.buildId.value) then 0x40 else 0)
    + (if u.serials.Some? && (Printable(u.serials.value.0) || Printable(u.serials.value.1)) then 0x80 else 0)
  }

  function ApplyAttributes(fs: FeatureState, u: Update): FeatureState {
    fs.(attrs := WithNumbers(fs.attrs, u),
        buildId := if u.buildId.Some? then Adopt(u.buildId.value, fs.buildId) else fs.buildId,
        unitSerial := if u.serials.Some? then Adopt(u.serials.value.0, fs.unitSerial) else fs.unitSerial,
        boardSerial := if u.serials.Some? then Adopt(u.serials.value.1, fs.boardSerial) else fs.boardSerial)
  }
}
