/** The control channel as the driver keeps it: a settings table, two mirror
    flags and a 64-byte reply buffer, all updated in place by SetFeature. */
module SteamChannel {
  import opened Ring
  import opened SteamHaptics
  import opened SteamFeatures

  class FeatureChannel {
    var attrs: Attributes
    var unitSerial: Text
    var boardSerial: Text
    var buildId: Text
    const settings: array<u16>
    var lizard: bool
    var imu: uint8
    const reply: array<uint8>
    var haveReply: bool
    var lastUnknown: uint8
    var unknownCommands: nat

    ghost predicate Valid()
      reads this
    {
      settings.Length == SETTING_COUNT && reply.Length == REPORT_SIZE
    }

    ghost function Model(): (fs: FeatureState)
      reads this, settings, reply
      requires Valid()
    {
      FeatureState(attrs, unitSerial, boardSerial, buildId, settings[..], lizard, imu, reply[..], haveReply,
                   lastUnknown, unknownCommands)
    }

    constructor ()
      ensures Valid() && fresh(settings) && fresh(reply) && Model() == Fresh()
    {
      var start := Fresh();
      attrs, unitSerial, boardSerial, buildId := start.attrs, start.unitSerial, start.boardSerial, start.buildId;
      settings := new u16[SETTING_COUNT](i requires 0 <= i => DefaultSetting(i));
      lizard, imu, haveReply, lastUnknown, unknownCommands := true, 0, false, 0, 0;
      reply := new uint8[REPORT_SIZE](_ => 0);
      new;
      assert settings[..] == DefaultSettings();
      assert reply[..] == Zeros(REPORT_SIZE);
    }

    method LoadDefaults()
      requires Valid()
      modifies settings
      ensures Valid() && settings[..] == DefaultSettings()
    {
      for i := 0 to SETTING_COUNT
        invariant forall k :: 0 <= k < i ==> settings[k] == DefaultSetting(k)
      {
        settings[i] := DefaultSetting(i);
      }
      assert settings[..] == DefaultSettings();
    }

    /** One triple of a write: the table entry, if there is one, and its mirror. */
    method WriteSetting(id: uint8, value: u16)
      requires Valid()
      modifies this`lizard, this`imu, settings
      ensures Valid() && settings[..] == PutSetting(old(settings[..]), id, value)
      ensures lizard == if id as int == LIZARD_MODE then value != 0 else old(lizard)
      ensures imu == if id as int == IMU_MODE then (value % 0x100) as uint8 else old(imu)
    {
      if id as int < SETTING_COUNT { settings[id as int] := value; }
      if id as int == LIZARD_MODE { lizard := value != 0; }
      if id as int == IMU_MODE { imu := (value % 0x100) as uint8; }
    }

    method WriteSettings(payload: seq<uint8>)
      requires Valid()
      modifies this`lizard, this`imu, settings
      ensures Valid() && Model() == Written(old(Model()), payload, |payload| / 3)
    {
      var i := 0;
      ghost var n := 0;
      while i + 3 <= |payload|
        invariant Valid() && 0 <= i == 3 * n && 3 * n <= |payload|
        invariant Model() == Written(old(Model()), payload, n)
        modifies this`lizard, this`imu, settings
      {
        WriteSetting(payload[i], GetLe16(payload[i + 1], payload[i + 2]));
        i, n := i + 3, n + 1;
      }
      assert n == |payload| / 3;
    }

    /** Copies a body into the zeroed reply buffer behind its three header bytes. */
    method FillReply(kind: uint8, body: Body)
      requires Valid() && BodyFits(body)
      modifies reply
      ensures Valid() && reply[..] == Reply(kind, body)
    {
      for i := 0 to REPORT_SIZE
        invariant forall k :: 0 <= k < i ==> reply[k] == 0
      {
        reply[i] := 0;
      }
      reply[0], reply[1], reply[2] := FEATURES_ID, kind, body.declared;
      for i := 0 to |body.bytes|
        invariant reply[0] == FEATURES_ID && reply[1] == kind && reply[2] == body.declared
        invariant forall k :: 0 <= k < i ==> reply[3 + k] == body.bytes[k]
        invariant forall k :: 3 + i <= k < REPORT_SIZE ==> reply[k] == 0
      {
        reply[3 + i] := body.bytes[i];
      }
      assert reply[..] == Reply(kind, body);
    }

    /** Lists (id, value) triples for a settings query, one id at a time. */
    method ListSettings(kind: uint8, payload: seq<uint8>) returns (body: Body)
      requires Valid() && IsQuery(kind)
      ensures body == AnswerBody(Model(), kind, payload)
    {
      var ids := Asked(payload);
      var out := [];
      for n := 0 to |ids|
        invariant out == QueryBytes(kind, settings[..], ids, n)
      {
        out := out + [ids[n]] + Le16(Queried(kind, settings[..], ids[n]));
      }
      body := Body((3 * |ids|) as uint8, out);
    }

    method SetFeature(data: seq<uint8>) returns (ok: bool)
      requires Valid()
      modifies this, settings, reply
      ensures Valid() && (Model(), ok) == SteamFeatures.SetFeature(old(Model()), data)
    {
      if |data| < 3 || data[0] != FEATURES_ID { return false; }
      var kind, length := data[1], data[2] as int;
      if length > |data| - 3 { return false; }
      var payload := data[3..3 + length];
      var body: Body;
      if IsQuery(kind) { body := ListSettings(kind, payload); } else { body := Identity(kind, payload); }
      ghost var answered := Model().(reply := Reply(kind, body), haveReply := true);
      FillReply(kind, body);
      haveReply := true;
      assert Model() == answered;
      if kind == LOAD_DEFAULTS {
        LoadDefaults();
        lizard, imu := true, 0;
      } else if kind == SET_SETTINGS {
        WriteSettings(payload);
      } else if !IsKnown(kind) {
        lastUnknown := kind;
        unknownCommands := (unknownCommands + 1) % TWO_TO_32;
      }
      return true;
    }

    method Identity(kind: uint8, payload: seq<uint8>) returns (body: Body)
      requires Valid() && !IsQuery(kind)
      ensures body == AnswerBody(Model(), kind, payload)
    {
      body := Body(0, []);
      if kind == GET_ATTRIBUTES {
        body := AttributesBody(attrs);
      } else if kind == GET_STRING {
        var tag := if payload != [] then payload[0] else 1;
        body := Body(20, [tag] + Characters(if tag == 0 then boardSerial else unitSerial));
      } else if kind == GET_KEYED {
        if payload == TRANSPORT_KEY { body := Body(1, [0]); }
      } else if kind == GET_DEVICE_INFO {
        var sub := if payload != [] then payload[0] else 0;
        if sub == 0 {
          body := Body(41, [0] + Le32(attrs.firmware) + Le32(attrs.board) +
                           Padded(Characters(buildId)) + Padded(Characters(unitSerial)));
        } else if sub == 1 {
          body := Body(34, [1]);
        } else {
          body := Body(9, [sub, 0, 0, 1]);
        }
      }
    }

    method GetFeature(capacity: nat) returns (report: seq<uint8>)
      requires Valid()
      ensures report == SteamFeatures.GetFeature(Model(), capacity)
    {
      if capacity < REPORT_SIZE { return []; }
      if haveReply { return reply[..]; }
      return [FEATURES_ID] + Zeros(REPORT_SIZE - 1);
    }

    /** Returns the flags of what it applied. */
    method ApplyAttributes(u: Update) returns (applied: nat)
      requires Valid()
      modifies this`attrs, this`unitSerial, this`boardSerial, this`buildId
      ensures Valid() && Model() == SteamFeatures.ApplyAttributes(old(Model()), u) && applied == AppliedFlags(u)
    {
      applied := ApplyNumbers(u);
      if u.buildId.Some? && Printable(u.buildId.value) {
        buildId := Stored(u.buildId.value);
        applied := applied + 0x40;
      }
      if u.serials.Some? {
        var adopted := false;
        if Printable(u.serials.value.0) {
          unitSerial, adopted := Stored(u.serials.value.0), true;
        }
        if Printable(u.serials.value.1) {
          boardSerial, adopted := Stored(u.serials.value.1), true;
        }
        if adopted {
          applied := applied + 0x80;
        }
      }
    }

    method ApplyNumbers(u: Update) returns (applied: nat)
      modifies this`attrs
      ensures attrs == WithNumbers(old(attrs), u)
      ensures applied == AppliedFlags(u.(buildId := None, serials := None))
    {
      applied := 0;
      if u.firmware.Some? {
        attrs, applied := attrs.(firmware := u.firmware.value), applied + 0x01;
      }
      if u.bootloader.Some? {
        attrs, applied := attrs.(bootloader := u.bootloader.value), applied + 0x02;
      }
      if u.board.Some? {
        attrs, applied := attrs.(board := u.board.value), applied + 0x04;
      }
      if u.capabilities.Some? {
        attrs, applied := attrs.(capabilities := u.capabilities.value), applied + 0x08;
      }
    }
  }
}
