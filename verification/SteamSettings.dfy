/** Steam's settings writes on their way to the client: a write becomes at most
    three feedback events, the events pass through a bounded ring, and replaying
    them must rebuild the responder's own table. */
module SteamSettings {
  import opened Ring
  import opened SteamHaptics
  import opened SteamFeatures

  const TRIPLES_PER_EVENT := 9
  const EVENTS_PER_WRITE := 3
  const SETTINGS_PAYLOAD_SIZE := 32
  const QUEUE_CAPACITY := 8

  // ----- A write as events ------------------------------------------------

  function Chunk(command: uint8, triples: seq<uint8>): (e: Event)
    requires |triples| <= 27 && |triples| % 3 == 0
  {
    Event(SteamHaptics.SteamSettings, SETTINGS_PAYLOAD_SIZE,
          [command, (|triples| / 3) as uint8, 0, 0, 0] + triples + Zeros(27 - |triples|))
  }

  function ChunkCount(triples: nat): (n: nat) {
    (triples + TRIPLES_PER_EVENT - 1) / TRIPLES_PER_EVENT
  }

  /** The triples of chunk `n`, at most nine of them. */
  function ChunkTriples(payload: seq<uint8>, triples: nat, n: nat): (t: seq<uint8>)
    requires 3 * triples <= |payload| && TRIPLES_PER_EVENT * n <= triples
    ensures |t| <= 27 && |t| % 3 == 0
  {
    var count := if triples - TRIPLES_PER_EVENT * n < TRIPLES_PER_EVENT then triples - TRIPLES_PER_EVENT * n else TRIPLES_PER_EVENT;
    payload[27 * n..27 * n + 3 * count]
  }

  function Chunks(payload: seq<uint8>, triples: nat, n: nat): (events: seq<Event>)
    requires 3 * triples <= |payload| && (n > 0 ==> TRIPLES_PER_EVENT * (n - 1) <= triples)
    ensures |events| == n
  {
    if n == 0 then []
    else Chunks(payload, triples, n - 1) + [Chunk(SET_SETTINGS, ChunkTriples(payload, triples, n - 1))]
  }

  /** The events for one transfer: none for another command, an empty or malformed
      write, or one that would need more than `capacity` events. */
  function ApplySettings(data: seq<uint8>, capacity: nat): (events: seq<Event>)
    ensures |events| <= capacity
  {
    if !Transferable(data) then []
    else
      var triples := |Payload(data)| / 3;
      if data[1] == LOAD_DEFAULTS then (if capacity < 1 then [] else [Chunk(LOAD_DEFAULTS, [])])
      else if data[1] != SET_SETTINGS || triples == 0 || ChunkCount(triples) > capacity then []
      else Chunks(Payload(data), triples, ChunkCount(triples))
  }

  /** The loop that cuts a write into events. */
  method SplitWrite(data: seq<uint8>, capacity: nat) returns (events: seq<Event>)
    ensures events == ApplySettings(data, capacity)
  {
    events := [];
    if |data| < 3 || data[0] != FEATURES_ID || data[2] as int > |data| - 3 { return; }
    var payload := data[3..3 + data[2] as int];
    var triples := 0;
    if data[1] == SET_SETTINGS {
      triples := |payload| / 3;
      if triples == 0 { return; }
    } else if data[1] != LOAD_DEFAULTS {
      return;
    }
    var needed := if data[1] == LOAD_DEFAULTS then 1 else ChunkCount(triples);
    if needed > capacity { return; }
    for n := 0 to needed
      invariant data[1] == LOAD_DEFAULTS ==> events == if n == 0 then [] else [Chunk(LOAD_DEFAULTS, [])]
      invariant data[1] == SET_SETTINGS ==> n <= ChunkCount(triples) && events == Chunks(payload, triples, n)
    {
      var first := n * TRIPLES_PER_EVENT;
      var count := if triples - first < TRIPLES_PER_EVENT then triples - first else TRIPLES_PER_EVENT;
      var bytes := if count > 0 then payload[first * 3..first * 3 + count * 3] else [];
      events := events + [Chunk(data[1], bytes)];
    }
  }

  // ----- What a client makes of them --------------------------------------

  function ReplayEvent(t: Table, e: Event): Table {
    if e.kind != SteamHaptics.SteamSettings || e.payloadSize != SETTINGS_PAYLOAD_SIZE then t
    else if e.payload[0] == LOAD_DEFAULTS then DefaultSettings()
    else if e.payload[0] == SET_SETTINGS && e.payload[1] as int <= TRIPLES_PER_EVENT then
      Triples(t, e.payload[5..], e.payload[1] as nat)
    else t
  }

  /** The table of a client that starts from `t` and handles the events in order. */
  function Replay(t: Table, events: seq<Event>): Table {
    if events == [] then t else ReplayEvent(Replay(t, events[..|events| - 1]), events[|events| - 1])
  }

  lemma {:induction false} ReplayConcat(t: Table, a: seq<Event>, b: seq<Event>)
    ensures Replay(t, a + b) == Replay(Replay(t, a), b)
  {
    if b == [] {
      assert a + b == a;
    } else {
      assert (a + b)[..|a + b| - 1] == a + b[..|b| - 1];
      ReplayConcat(t, a, b[..|b| - 1]);
    }
  }

  /** Only the bytes of the triples themselves matter. */
  lemma {:induction false} TriplesOf(t: Table, a: seq<uint8>, b: seq<uint8>, n: nat)
    requires 3 * n <= |a| && 3 * n <= |b| && a[..3 * n] == b[..3 * n]
    ensures Triples(t, a, n) == Triples(t, b, n)
  {
    if n > 0 {
      assert a[..3 * (n - 1)] == a[..3 * n][..3 * (n - 1)];
      assert b[..3 * (n - 1)] == b[..3 * n][..3 * (n - 1)];
      TriplesOf(t, a, b, n - 1);
      assert forall k :: 0 <= k < 3 * n ==> a[k] == a[..3 * n][k] && b[k] == b[..3 * n][k];
    }
  }

  lemma {:induction false} TriplesSplit(t: Table, payload: seq<uint8>, m: nat, n: nat)
    requires 3 * (m + n) <= |payload|
    ensures Triples(t, payload, m + n) == Triples(Triples(t, payload, m), payload[3 * m..], n)
  {
    if n > 0 {
      TriplesSplit(t, payload, m, n - 1);
      assert payload[3 * m..][3 * (n - 1)] == payload[3 * (m + n - 1)];
      assert Value(payload[3 * m..], n - 1) == Value(payload, m + n - 1);
    }
  }

  /** A client decodes a chunk to exactly the triples it was cut from. */
  lemma {:induction false} ChunkReplays(t: Table, triples: seq<uint8>)
    requires |triples| <= 27 && |triples| % 3 == 0
    ensures ReplayEvent(t, Chunk(SET_SETTINGS, triples)) == Triples(t, triples, |triples| / 3)
  {
    var e, n := Chunk(SET_SETTINGS, triples), |triples| / 3;
    assert e.payload[5..][..3 * n] == triples[..3 * n];
    TriplesOf(t, e.payload[5..], triples, n);
  }

  /** Replaying one more chunk applies the next triples of the write. */
  lemma {:induction false} NextChunkReplays(t: Table, payload: seq<uint8>, triples: nat, n: nat)
    requires 3 * triples <= |payload| && TRIPLES_PER_EVENT * n <= triples
    ensures var count := |ChunkTriples(payload, triples, n)| / 3;
      ReplayEvent(Triples(t, payload, TRIPLES_PER_EVENT * n), Chunk(SET_SETTINGS, ChunkTriples(payload, triples, n)))
      == Triples(t, payload, TRIPLES_PER_EVENT * n + count)
  {
    var before, part := TRIPLES_PER_EVENT * n, ChunkTriples(payload, triples, n);
    var rest := payload[3 * before..];
    ChunkReplays(Triples(t, payload, before), part);
    TriplesSplit(t, payload, before, |part| / 3);
    assert rest[..|part|] == part == part[..|part|];
    TriplesOf(Triples(t, payload, before), rest, part, |part| / 3);
  }

  /** How many triples the first `n` chunks carry. */
  function Carried(triples: nat, n: nat): (c: nat)
    ensures c <= triples
  {
    if TRIPLES_PER_EVENT * n < triples then TRIPLES_PER_EVENT * n else triples
  }

  lemma {:induction false} ChunkCarries(payload: seq<uint8>, triples: nat, n: nat)
    requires 3 * triples <= |payload| && TRIPLES_PER_EVENT * n <= triples
    ensures Carried(triples, n) == TRIPLES_PER_EVENT * n
    ensures TRIPLES_PER_EVENT * n + |ChunkTriples(payload, triples, n)| / 3 == Carried(triples, n + 1)
  {}

  lemma {:induction false} ReplayExtend(t: Table, events: seq<Event>, e: Event)
    ensures Replay(t, events + [e]) == ReplayEvent(Replay(t, events), e)
  {
    assert (events + [e])[..|events|] == events;
  }

  lemma {:induction false} NextChunk(t: Table, payload: seq<uint8>, triples: nat, n: nat) returns (e: Event)
    requires 3 * triples <= |payload| && TRIPLES_PER_EVENT * n <= triples
    ensures Chunks(payload, triples, n + 1) == Chunks(payload, triples, n) + [e]
    ensures ReplayEvent(Triples(t, payload, Carried(triples, n)), e) == Triples(t, payload, Carried(triples, n + 1))
  {
    ChunkCarries(payload, triples, n);
    NextChunkReplays(t, payload, triples, n);
    e := Chunk(SET_SETTINGS, ChunkTriples(payload, triples, n));
  }

  lemma {:induction false} OneMoreChunk(t: Table, payload: seq<uint8>, triples: nat, n: nat)
    requires 3 * triples <= |payload| && TRIPLES_PER_EVENT * n <= triples
    requires Replay(t, Chunks(payload, triples, n)) == Triples(t, payload, Carried(triples, n))
    ensures Replay(t, Chunks(payload, triples, n + 1)) == Triples(t, payload, Carried(triples, n + 1))
  {
    var e := NextChunk(t, payload, triples, n);
    ReplayExtend(t, Chunks(payload, triples, n), e);
  }

  lemma {:induction false} ChunksReplay(t: Table, payload: seq<uint8>, triples: nat, n: nat)
    requires 3 * triples <= |payload| && (n > 0 ==> TRIPLES_PER_EVENT * (n - 1) <= triples)
    ensures Replay(t, Chunks(payload, triples, n)) == Triples(t, payload, Carried(triples, n))
  {
    if n > 0 {
      ChunksReplay(t, payload, triples, n - 1);
      OneMoreChunk(t, payload, triples, n - 1);
    }
  }

  // ----- One write --------------------------------------------------------

  /** The flags repeat their table entries. */
  predicate Mirrors(fs: FeatureState) {
    fs.lizard == (fs.settings[LIZARD_MODE] != 0) && fs.imu as int == fs.settings[IMU_MODE] % 0x100
  }

  lemma {:induction false} WrittenIs(fs: FeatureState, payload: seq<uint8>, n: nat)
    requires 3 * n <= |payload|
    ensures Written(fs, payload, n).settings == Triples(fs.settings, payload, n)
    ensures Mirrors(fs) ==> Mirrors(Written(fs, payload, n))
  {
    if n > 0 { WrittenIs(fs, payload, n - 1); }
  }

  /** The write fits the events the driver is prepared to send for it. */
  predicate Forwardable(data: seq<uint8>) {
    Transferable(data) && data[1] == SET_SETTINGS ==> |Payload(data)| / 3 <= EVENTS_PER_WRITE * TRIPLES_PER_EVENT
  }

  /** Every transfer of at most 64 bytes, the channel's report size, is forwardable. */
  lemma {:induction false} ReportsAreForwardable(data: seq<uint8>)
    ensures |data| <= REPORT_SIZE ==> Forwardable(data)
  {}

  /** One transfer: what the client rebuilds from its events is what the responder's
      own table became, and the mirror flags stay true to it. */
  lemma {:induction false} WriteIsFaithful(fs: FeatureState, data: seq<uint8>)
    requires Forwardable(data)
    ensures Replay(fs.settings, ApplySettings(data, EVENTS_PER_WRITE)) == SetFeature(fs, data).0.settings
    ensures Mirrors(fs) ==> Mirrors(SetFeature(fs, data).0)
  {
    if Transferable(data) {
      var kind, payload := data[1], Payload(data);
      var answered := fs.(reply := Reply(kind, AnswerBody(fs, kind, payload)), haveReply := true);
      var n := |payload| / 3;
      if kind == LOAD_DEFAULTS {
        assert [Chunk(LOAD_DEFAULTS, [])][..0] == [];
        assert SetFeature(fs, data).0 == answered.(settings := DefaultSettings(), lizard := true, imu := 0);
      } else if kind == SET_SETTINGS {
        WrittenIs(answered, payload, n);
        ChunksReplay(fs.settings, payload, n, ChunkCount(n));
        assert SetFeature(fs, data).0 == Written(answered, payload, n);
      } else {
        assert SetFeature(fs, data).0.settings == fs.settings;
      }
    }
  }

  /** A longer write is accepted but not forwarded at all, so the client misses
      every change it makes: the forwardable writes are exactly the faithful ones
      among those that change the table. */
  lemma {:induction false} LongWriteIsLost(fs: FeatureState, data: seq<uint8>)
    requires SetFeature(fs, data).0.settings != fs.settings
    ensures Forwardable(data) <==>
      Replay(fs.settings, ApplySettings(data, EVENTS_PER_WRITE)) == SetFeature(fs, data).0.settings
  {
    if Forwardable(data) {
      WriteIsFaithful(fs, data);
    } else {
      assert ChunkCount(|Payload(data)| / 3) > EVENTS_PER_WRITE;
    }
  }

  // ----- The ring ---------------------------------------------------------

  function RingAfter(s: seq<Event>, e: Event, capacity: nat): seq<Event>
    requires capacity >= 1
  {
    (if |s| == capacity then s[1..] else s) + [e]
  }

  class SettingsRing {
    const queue: array<Event>
    var head: nat
    var count: nat
    var evicted: nat

    ghost predicate Valid()
      reads this
    {
      1 <= queue.Length <= 255 && head < queue.Length && count <= queue.Length
    }

    ghost function Contents(): (s: seq<Event>)
      reads this, queue
      requires Valid()
      ensures |s| == count
    {
      View(queue[..], head, count)
    }

    constructor (capacity: nat)
      requires 1 <= capacity <= 255
      ensures Valid() && fresh(queue) && queue.Length == capacity && Contents() == [] && evicted == 0
    {
      var blank: Event := Event(OtherFeedback, 0, Zeros(PAYLOAD_BYTES));
      queue := new Event[capacity](_ => blank);
      head, count, evicted := 0, 0, 0;
    }

    method DropOldest()
      requires Valid() && 0 < count
      modifies this`head, this`count
      ensures Valid() && count == old(count) - 1 && Contents() == old(Contents())[1..]
    {
      Pop(queue[..], head, count);
      head := (head + 1) % queue.Length;
      count := count - 1;
    }

    method Enqueue(e: Event)
      requires Valid()
      modifies this, queue
      ensures Valid() && Contents() == RingAfter(old(Contents()), e, queue.Length)
      ensures evicted == if old(count) == queue.Length then (old(evicted) + 1) % TWO_TO_32 else old(evicted)
    {
      if count == queue.Length {
        DropOldest();
        evicted := (evicted + 1) % TWO_TO_32;
      }
      Push(queue[..], head, count, e);
      ghost var slots := queue[..][(head + count) % queue.Length := e];
      queue[(head + count) % queue.Length] := e;
      count := count + 1;
      assert queue[..] == slots;
    }

    method Poll() returns (e: Option<Event>)
      requires Valid()
      modifies this`head, this`count
      ensures Valid()
      ensures old(Contents()) == [] ==> e == None && Contents() == []
      ensures old(Contents()) != [] ==> e == Some(old(Contents())[0]) && Contents() == old(Contents())[1..]
    {
      if count == 0 { return None; }
      e := Some(queue[head]);
      ViewAt(queue[..], head, count, 0);
      DropOldest();
    }
  }

  // ----- Whole runs -------------------------------------------------------

  datatype Op = Write(data: seq<uint8>) | Poll

  /** The responder, the ring, the table of a client that replays what it polled,
      and the number of events evicted. */
  datatype Run = Run(fs: FeatureState, ring: seq<Event>, client: Table, lost: nat)

  function Enqueue(r: Run, events: seq<Event>): Run {
    if events == [] then r
    else
      var before := Enqueue(r, events[..|events| - 1]);
      before.(ring := RingAfter(before.ring, events[|events| - 1], QUEUE_CAPACITY),
              lost := if |before.ring| == QUEUE_CAPACITY then before.lost + 1 else before.lost)
  }

  function Step(r: Run, op: Op): Run {
    match op
    case Write(data) =>
      var (fs, ok) := SetFeature(r.fs, data);
      var after := r.(fs := fs);
      if ok then Enqueue(after, ApplySettings(data, EVENTS_PER_WRITE)) else after
    case Poll =>
      if r.ring == [] then r else r.(ring := r.ring[1..], client := ReplayEvent(r.client, r.ring[0]))
  }

  function Exec(ops: seq<Op>): Run {
    if ops == [] then Run(Fresh(), [], DefaultSettings(), 0) else Step(Exec(ops[..|ops| - 1]), ops[|ops| - 1])
  }

  lemma {:induction false} EnqueueKeepsAll(r: Run, events: seq<Event>)
    ensures Enqueue(r, events).fs == r.fs && Enqueue(r, events).client == r.client
    ensures Enqueue(r, events).lost >= r.lost
    ensures Enqueue(r, events).lost == r.lost ==> Enqueue(r, events).ring == r.ring + events
  {
    if events == [] {
      assert r.ring + events == r.ring;
    } else {
      EnqueueKeepsAll(r, events[..|events| - 1]);
      assert events == events[..|events| - 1] + [events[|events| - 1]];
      assert r.ring + events == r.ring + events[..|events| - 1] + [events[|events| - 1]];
    }
  }

  lemma {:induction false} ReplayFirst(t: Table, events: seq<Event>)
    requires events != []
    ensures Replay(t, events) == Replay(ReplayEvent(t, events[0]), events[1..])
  {
    assert events == [events[0]] + events[1..];
    assert [events[0]][..0] == [];
    ReplayConcat(t, [events[0]], events[1..]);
  }

  /** A client that goes on to replay what is still queued holds the responder's
      table, as long as nothing was evicted; the mirror flags agree with the table. */
  predicate Faithful(r: Run) {
    && Mirrors(r.fs)
    && (r.lost == 0 ==> Replay(r.client, r.ring) == r.fs.settings)
  }

  lemma {:induction false} WriteKeepsFaith(r: Run, data: seq<uint8>)
    requires Faithful(r) && Forwardable(data)
    ensures Faithful(Step(r, Write(data)))
  {
    var events := ApplySettings(data, EVENTS_PER_WRITE);
    var (fs, ok) := SetFeature(r.fs, data);
    WriteIsFaithful(r.fs, data);
    if ok {
      var after := Enqueue(r.(fs := fs), events);
      EnqueueKeepsAll(r.(fs := fs), events);
      if after.lost == 0 { ReplayConcat(r.client, r.ring, events); }
    }
  }

  lemma {:induction false} PollKeepsFaith(r: Run)
    requires Faithful(r)
    ensures Faithful(Step(r, Poll))
  {
    if r.ring != [] { ReplayFirst(r.client, r.ring); }
  }

  /** The settings stream is faithful: in every run of forwardable transfers
      that evicts no event, a client that has replayed what it polled and goes on to
      replay what is still queued holds exactly the responder's table; and in
      every run the mirror flags agree with entries 9 and 48. */
  lemma {:induction false} StreamIsFaithful(ops: seq<Op>)
    requires forall i :: 0 <= i < |ops| && ops[i].Write? ==> Forwardable(ops[i].data)
    ensures Faithful(Exec(ops))
  {
    if ops != [] {
      var r, op := Exec(ops[..|ops| - 1]), ops[|ops| - 1];
      StreamIsFaithful(ops[..|ops| - 1]);
      if op.Write? { WriteKeepsFaith(r, op.data); } else { PollKeepsFaith(r); }
    }
  }

  // ----- Reading back -----------------------------------------------------

  lemma {:induction false} QueryReply(fs: FeatureState, ids: seq<uint8>, padding: seq<uint8>)
    requires 0 < |ids| <= MAX_TRIPLES
    ensures var (fs', ok) := SetFeature(fs, [FEATURES_ID, GET_SETTINGS, |ids| as uint8] + ids + padding);
      && ok && fs'.settings == fs.settings && fs'.haveReply
      && fs'.reply == Reply(GET_SETTINGS, Body((3 * |ids|) as uint8, QueryBytes(GET_SETTINGS, fs.settings, ids, |ids|)))
  {
    assert Payload([FEATURES_ID, GET_SETTINGS, |ids| as uint8] + ids + padding) == ids;
  }

  lemma {:induction false} ReplyAt(kind: uint8, body: Body, k: nat)
    requires BodyFits(body) && k < |body.bytes|
    ensures Reply(kind, body)[3 + k] == body.bytes[k] && Reply(kind, body)[2] == body.declared
  {}

  /** Reading settings back: a query for up to twenty ids returns each id with its
      present value, zero for ids outside the table, and changes no setting. */
  lemma {:induction false} QueryReadsTable(fs: FeatureState, ids: seq<uint8>, padding: seq<uint8>, k: nat)
    requires 0 < |ids| <= MAX_TRIPLES && k < |ids|
    ensures var (fs', ok) := SetFeature(fs, [FEATURES_ID, GET_SETTINGS, |ids| as uint8] + ids + padding);
      var report := GetFeature(fs', REPORT_SIZE);
      && ok && fs'.settings == fs.settings && |report| == REPORT_SIZE && report[2] as int == 3 * |ids|
      && report[3 + 3 * k] == ids[k]
      && GetLe16(report[4 + 3 * k], report[5 + 3 * k]) == (if (ids[k] as int) < SETTING_COUNT then fs.settings[ids[k] as int] else 0)
  {
    QueryReply(fs, ids, padding);
    QueryBytesAt(GET_SETTINGS, fs.settings, ids, |ids|, k);
    var body := Body((3 * |ids|) as uint8, QueryBytes(GET_SETTINGS, fs.settings, ids, |ids|));
    ReplyAt(GET_SETTINGS, body, 3 * k);
    ReplyAt(GET_SETTINGS, body, 3 * k + 1);
    ReplyAt(GET_SETTINGS, body, 3 * k + 2);
  }

  lemma {:induction false} QueryBytesAt(kind: uint8, settings: Table, ids: seq<uint8>, n: nat, k: nat)
    requires k < n <= |ids|
    ensures var b := QueryBytes(kind, settings, ids, n);
      b[3 * k] == ids[k] && GetLe16(b[3 * k + 1], b[3 * k + 2]) == Queried(kind, settings, ids[k])
  {
    if k < n - 1 {
      QueryBytesAt(kind, settings, ids, n - 1, k);
    }
  }

  /** Identity strings: whatever a host forwards, every string stays printable,
      non-empty and NUL-terminated, and product id and interval never change. */
  predicate IdentityOk(fs: FeatureState) {
    && Printable(fs.unitSerial) && Printable(fs.boardSerial) && Printable(fs.buildId)
    && fs.unitSerial[15] == fs.boardSerial[15] == fs.buildId[15] == 0
    && fs.attrs.productId == PRODUCT_ID && fs.attrs.intervalUs == INTERVAL_US
  }

  lemma {:induction false} CharactersUnique(s: seq<uint8>, c: nat)
    requires c <= |s| && (forall i :: 0 <= i < c ==> s[i] != 0) && (c < |s| ==> s[c] == 0)
    ensures Characters(s) == s[..c]
  {}

  lemma {:induction false} StoredCharacters(s: Text)
    ensures Characters(Stored(s)) == if |Characters(s)| > 15 then Characters(s)[..15] else Characters(s)
  {
    var c := Characters(s);
    var kept := if |c| > 15 then c[..15] else c;
    CharactersUnique(Stored(s), |kept|);
  }

  lemma {:induction false} PaddedIsPrintable(text: seq<uint8>)
    requires 0 < |text| <= 15 && forall i :: 0 <= i < |text| ==> 0x20 <= text[i] <= 0x7E
    ensures Printable(Padded(text)) && Padded(text)[15] == 0
  {
    CharactersUnique(Padded(text), |text|);
  }

  lemma {:induction false} FreshUnit()
    ensures Printable(Padded(UNIT_SERIAL)) && Padded(UNIT_SERIAL)[15] == 0
  {
    PaddedIsPrintable(UNIT_SERIAL);
  }

  lemma {:induction false} FreshBoard()
    ensures Printable(Padded(BOARD_SERIAL)) && Padded(BOARD_SERIAL)[15] == 0
  {
    PaddedIsPrintable(BOARD_SERIAL);
  }

  lemma {:induction false} FreshBuild()
    ensures Printable(Padded(BUILD_ID)) && Padded(BUILD_ID)[15] == 0
  {
    PaddedIsPrintable(BUILD_ID);
  }

  lemma {:induction false} FreshIdentity()
    ensures IdentityOk(Fresh())
  {
    FreshUnit();
    FreshBoard();
    FreshBuild();
  }

  lemma {:induction false} AdoptKeepsPrintable(s: Text, current: Text)
    requires Printable(current) && current[15] == 0
    ensures Printable(Adopt(s, current)) && Adopt(s, current)[15] == 0
  {
    StoredCharacters(s);
  }

  /** The flags reported are honest: an update that reports none changed nothing. */
  lemma {:induction false} NoFlagNoChange(fs: FeatureState, u: Update)
    ensures AppliedFlags(u) == 0 ==> ApplyAttributes(fs, u) == fs
    ensures AppliedFlags(u) >= 0x80 <==>
      u.serials.Some? && (Printable(u.serials.value.0) || Printable(u.serials.value.1))
  {}

  lemma {:induction false} UpdateKeepsIdentity(fs: FeatureState, u: Update)
    requires IdentityOk(fs)
    ensures IdentityOk(ApplyAttributes(fs, u))
  {
    if u.buildId.Some? { AdoptKeepsPrintable(u.buildId.value, fs.buildId); }
    if u.serials.Some? {
      AdoptKeepsPrintable(u.serials.value.0, fs.unitSerial);
      AdoptKeepsPrintable(u.serials.value.1, fs.boardSerial);
    }
  }

  const ASK_UNIT_SERIAL: seq<uint8> := [FEATURES_ID, GET_STRING, 1, 1]

  lemma {:induction false} StringReply(fs: FeatureState)
    ensures var fs' := SetFeature(fs, ASK_UNIT_SERIAL).0;
      fs'.haveReply && fs'.reply == Reply(GET_STRING, Body(20, [1] + Characters(fs.unitSerial)))
  {
    assert Payload(ASK_UNIT_SERIAL) == [1];
  }

  lemma {:induction false} ReplyText(text: seq<uint8>)
    requires |text| <= 16 && forall i :: 0 <= i < |text| ==> text[i] != 0
    ensures var r := Reply(GET_STRING, Body(20, [1] + text));
      r[2] == 20 && r[3] == 1 && Characters(r[4..]) == text
  {
    var r := Reply(GET_STRING, Body(20, [1] + text));
    assert r[4..] == text + Zeros(60 - |text|);
    CharactersUnique(r[4..], |text|);
  }

  /** Forwarding a printable serial and asking for it returns its first fifteen
      characters, NUL padded, behind the tag. */
  lemma {:induction false} SerialReadsBack(fs: FeatureState, unit: Text, board: Text)
    requires Printable(unit)
    ensures var updated := ApplyAttributes(fs, Update(None, None, None, None, None, Some((unit, board))));
      var report := GetFeature(SetFeature(updated, ASK_UNIT_SERIAL).0, REPORT_SIZE);
      var c := Characters(unit);
      |report| == REPORT_SIZE && report[2] == 20 && report[3] == 1
      && Characters(report[4..]) == if |c| > 15 then c[..15] else c
  {
    var updated := ApplyAttributes(fs, Update(None, None, None, None, None, Some((unit, board))));
    assert updated.unitSerial == Stored(unit);
    StoredCharacters(unit);
    StringReply(updated);
    ReplyText(Characters(Stored(unit)));
  }
}
