/**
 * `convertSettingsToFormData`: a preset document turned into the body of the form WLED's
 * "Sync Interfaces" page posts. A fixed list of wire keys is walked in order; each key's value is
 * read from the document (or is a constant) and appended to a `URLSearchParams` only when it is
 * neither null nor undefined. `hue.ip` is split on `.` into the keys H0..H3.
 */
module Encoder {
  import opened Wrappers
  import opened Text
  import opened Json
  import opened FormUrlEncoded

  /** Where a key's value comes from: a field of a section, a constant, or one part of the split `hue.ip`. */
  datatype Source = Field(section: string, name: string) | Constant(text: string) | HueOctet(index: nat)

  /** The number of `appendIfExists` calls. */
  const KEY_COUNT: nat := 55

  /**
   * The key the `i`th `appendIfExists` call appends, in the order the encoder makes the calls.
   * Written as a binary search over `i` rather than an index into a literal sequence, so that a lookup
   * at a symbolic position stays cheap for the verifier.
   */
  function WireKey(i: nat): string
    requires i < KEY_COUNT
  {
    if i < 27 then
      if i < 13 then
        if i < 6 then
          if i < 3 then
            if i < 1 then
              "UP"
            else
              if i < 2 then
                "U2"
              else
                "GS"
          else
            if i < 4 then
              "GR"
            else
              if i < 5 then
                "G1"
              else
                "R1"
        else
          if i < 9 then
            if i < 7 then
              "RB"
            else
              if i < 8 then
                "RC"
              else
                "RX"
          else
            if i < 11 then
              if i < 10 then
                "SO"
              else
                "SG"
            else
              if i < 12 then
                "SD"
              else
                "SB"
      else
        if i < 20 then
          if i < 16 then
            if i < 14 then
              "SH"
            else
              if i < 15 then
                "SM"
              else
                "UR"
          else
            if i < 18 then
              if i < 17 then
                "NL"
              else
                "NB"
            else
              if i < 19 then
                "RD"
              else
                "MO"
        else
          if i < 23 then
            if i < 21 then
              "DI"
            else
              if i < 22 then
                "EP"
              else
                "EM"
          else
            if i < 25 then
              if i < 24 then
                "EU"
              else
                "ES"
            else
              if i < 26 then
                "DA"
              else
                "XX"
    else
      if i < 41 then
        if i < 34 then
          if i < 30 then
            if i < 28 then
              "PY"
            else
              if i < 29 then
                "DM"
              else
                "ET"
          else
            if i < 32 then
              if i < 31 then
                "FB"
              else
                "RG"
            else
              if i < 33 then
                "WO"
              else
                "AI"
        else
          if i < 37 then
            if i < 35 then
              "AP"
            else
              if i < 36 then
                "MQ"
              else
                "MS"
          else
            if i < 39 then
              if i < 38 then
                "MQPORT"
              else
                "MQUSER"
            else
              if i < 40 then
                "MQPASS"
              else
                "MQCID"
      else
        if i < 48 then
          if i < 44 then
            if i < 42 then
              "MD"
            else
              if i < 43 then
                "MG"
              else
                "BM"
          else
            if i < 46 then
              if i < 45 then
                "HL"
              else
                "HI"
            else
              if i < 47 then
                "HP"
              else
                "HO"
        else
          if i < 51 then
            if i < 49 then
              "HB"
            else
              if i < 50 then
                "HC"
              else
                "H0"
          else
            if i < 53 then
              if i < 52 then
                "H1"
              else
                "H2"
            else
              if i < 54 then
                "H3"
              else
                "BD"
  }

  /** Where the value of the `i`th `appendIfExists` call comes from (a binary search over `i`, as in `WireKey`). */
  function WireSource(i: nat): Source
    requires i < KEY_COUNT
  {
    if i < 27 then
      if i < 13 then
        if i < 6 then
          if i < 3 then
            if i < 1 then
              Field("udp", "primaryPort")
            else
              if i < 2 then
                Field("udp", "secondaryPort")
              else
                Field("udp", "sendGroup")
          else
            if i < 4 then
              Field("udp", "receiveGroup")
            else
              if i < 5 then
                Constant("on")
              else
                Constant("on")
        else
          if i < 9 then
            if i < 7 then
              Field("sync", "receiveBrightness")
            else
              if i < 8 then
                Field("sync", "receiveColor")
              else
                Field("sync", "receiveEffects")
          else
            if i < 11 then
              if i < 10 then
                Field("sync", "receiveSegmentOptions")
              else
                Field("sync", "notifyDirect")
            else
              if i < 12 then
                Field("sync", "notifyButton")
              else
                Field("sync", "notifyAlexa")
      else
        if i < 20 then
          if i < 16 then
            if i < 14 then
              Field("sync", "notifyHue")
            else
              if i < 15 then
                Field("sync", "notifyMacro")
              else
                Field("sync", "udpRetransmit")
          else
            if i < 18 then
              if i < 17 then
                Field("instance", "enableList")
              else
                Field("instance", "discoverable")
            else
              if i < 19 then
                Field("realtime", "receiveUDP")
              else
                Field("realtime", "useMainSegment")
        else
          if i < 23 then
            if i < 21 then
              Field("realtime", "e131Port")
            else
              if i < 22 then
                Field("realtime", "e131Port")
              else
                Field("realtime", "e131SkipOutOfSequence")
          else
            if i < 25 then
              if i < 24 then
                Field("realtime", "e131Universe")
              else
                Field("realtime", "e131Multicast")
            else
              if i < 26 then
                Field("realtime", "dmxAddress")
              else
                Field("realtime", "dmxSegmentSpacing")
    else
      if i < 41 then
        if i < 34 then
          if i < 30 then
            if i < 28 then
              Constant("0")
            else
              if i < 29 then
                Field("realtime", "dmxMode")
              else
                Field("realtime", "dmxTimeout")
          else
            if i < 32 then
              if i < 31 then
                Field("realtime", "forceBrightness")
              else
                Field("realtime", "disableGammaCorrection")
            else
              if i < 33 then
                Field("realtime", "ledOffset")
              else
                Constant("")
        else
          if i < 37 then
            if i < 35 then
              Constant("0")
            else
              if i < 36 then
                Field("mqtt", "enabled")
              else
                Field("mqtt", "broker")
          else
            if i < 39 then
              if i < 38 then
                Field("mqtt", "port")
              else
                Field("mqtt", "username")
            else
              if i < 40 then
                Field("mqtt", "password")
              else
                Field("mqtt", "clientId")
      else
        if i < 48 then
          if i < 44 then
            if i < 42 then
              Field("mqtt", "deviceTopic")
            else
              if i < 43 then
                Field("mqtt", "groupTopic")
              else
                Field("mqtt", "buttonPublish")
          else
            if i < 46 then
              if i < 45 then
                Constant("2")
              else
                Field("hue", "pollInterval")
            else
              if i < 47 then
                Field("hue", "pollEnabled")
              else
                Field("hue", "onOff")
        else
          if i < 51 then
            if i < 49 then
              Field("hue", "brightness")
            else
              if i < 50 then
                Field("hue", "color")
              else
                HueOctet(0)
          else
            if i < 53 then
              if i < 52 then
                HueOctet(1)
              else
                HueOctet(2)
            else
              if i < 54 then
                HueOctet(3)
              else
                Constant("10000")
  }

  /**
   * The position of the call that appends `key`, or -1 when no call does. Matched character by character
   * rather than searched for in a table, which keeps the verifier's work per key small.
   */
  function Position(key: string): int {
    if |key| == 2 then
      match (key[0], key[1])
      case ('U', 'P') => 0
      case ('U', '2') => 1
      case ('G', 'S') => 2
      case ('G', 'R') => 3
      case ('G', '1') => 4
      case ('R', '1') => 5
      case ('R', 'B') => 6
      case ('R', 'C') => 7
      case ('R', 'X') => 8
      case ('S', 'O') => 9
      case ('S', 'G') => 10
      case ('S', 'D') => 11
      case ('S', 'B') => 12
      case ('S', 'H') => 13
      case ('S', 'M') => 14
      case ('U', 'R') => 15
      case ('N', 'L') => 16
      case ('N', 'B') => 17
      case ('R', 'D') => 18
      case ('M', 'O') => 19
      case ('D', 'I') => 20
      case ('E', 'P') => 21
      case ('E', 'M') => 22
      case ('E', 'U') => 23
      case ('E', 'S') => 24
      case ('D', 'A') => 25
      case ('X', 'X') => 26
      case ('P', 'Y') => 27
      case ('D', 'M') => 28
      case ('E', 'T') => 29
      case ('F', 'B') => 30
      case ('R', 'G') => 31
      case ('W', 'O') => 32
      case ('A', 'I') => 33
      case ('A', 'P') => 34
      case ('M', 'Q') => 35
      case ('M', 'S') => 36
      case ('M', 'D') => 41
      case ('M', 'G') => 42
      case ('B', 'M') => 43
      case ('H', 'L') => 44
      case ('H', 'I') => 45
      case ('H', 'P') => 46
      case ('H', 'O') => 47
      case ('H', 'B') => 48
      case ('H', 'C') => 49
      case ('H', '0') => 50
      case ('H', '1') => 51
      case ('H', '2') => 52
      case ('H', '3') => 53
      case ('B', 'D') => 54
      case _ => -1
    else if key == "MQPORT" then 37
    else if key == "MQUSER" then 38
    else if key == "MQPASS" then 39
    else if key == "MQCID" then 40
    else -1
  }

  /** Each key is appended by exactly one call. */
  lemma PositionOfKey(i: nat)
    requires i < KEY_COUNT
    ensures Position(WireKey(i)) == i
  {
  }

  /** `settings[name]`, or no fields at all when the section is missing. */
  function SectionOf(doc: Document, name: string): Section {
    if name in doc then doc[name] else map[]
  }

  /** JavaScript truthiness, as the test `settings.hue.ip` applies it. */
  predicate Truthy(v: JsValue) {
    match v
    case Undefined => false
    case Null => false
    case Bool(b) => b
    case Str(t) => t != ""
  }

  /** The parts of `hue.ip` split on `.`, or none when the ip is falsy. */
  function HueParts(doc: Document): seq<string> {
    match Get(SectionOf(doc, "hue"), "ip")
    case Str(t) => if t == "" then [] else Split(t, '.')
    case _ => []
  }

  /** Array destructuring: the `i`th part, undefined past the end. */
  function Part(parts: seq<string>, i: nat): JsValue {
    if i < |parts| then Str(parts[i]) else Undefined
  }

  /** The value the `i`th `appendIfExists` call is handed. */
  function ValueOf(i: nat, doc: Document): JsValue
    requires i < KEY_COUNT
  {
    match WireSource(i)
    case Field(section, name) => Get(SectionOf(doc, section), name)
    case Constant(text) => Str(text)
    case HueOctet(i) => Part(HueParts(doc), i)
  }

  /** What `appendIfExists` appends for a value: nothing for null or undefined, `on`/`off` for a boolean. */
  function FormValue(v: JsValue): Option<string> {
    match v
    case Undefined => None
    case Null => None
    case Bool(b) => Some(if b then "on" else "off")
    case Str(t) => Some(t)
  }

  /** The pairs one `appendIfExists(key, value)` call adds. */
  function Appended(key: string, v: JsValue): seq<(string, string)> {
    match FormValue(v)
    case None => []
    case Some(t) => [(key, t)]
  }

  /** The pairs the first `n` calls append. */
  function EmittedUpTo(n: nat, doc: Document): seq<(string, string)>
    requires n <= KEY_COUNT
  {
    if n == 0 then [] else EmittedUpTo(n - 1, doc) + Appended(WireKey(n - 1), ValueOf(n - 1, doc))
  }

  /** The TypeError the encoder throws: a property read on undefined, or a call of something that is not a function. */
  datatype EncodeError = ReadOfUndefined(property: string) | NotAFunction(callee: string)

  /** The error's `message`, in V8's wording. */
  function Message(e: EncodeError): string {
    match e
    case ReadOfUndefined(property) => "Cannot read properties of undefined (reading '" + property + "')"
    case NotAFunction(callee) => callee + " is not a function"
  }

  /**
   * The first error the encoder meets: each section is first read for the property named here, in
   * this order; an ip of `true` passes the truthiness test but has no `split`.
   */
  function Failure(doc: Document): Option<EncodeError> {
    if "udp" !in doc then Some(ReadOfUndefined("primaryPort"))
    else if "sync" !in doc then Some(ReadOfUndefined("receiveBrightness"))
    else if "instance" !in doc then Some(ReadOfUndefined("enableList"))
    else if "realtime" !in doc then Some(ReadOfUndefined("receiveUDP"))
    else if "mqtt" !in doc then Some(ReadOfUndefined("enabled"))
    else if "hue" !in doc then Some(ReadOfUndefined("pollInterval"))
    else if Get(doc["hue"], "ip") == Bool(true) then Some(NotAFunction("settings.hue.ip.split"))
    else None
  }

  /** The name/value pairs the encoder appends, or the error it throws. */
  function FormPairs(doc: Document): Result<seq<(string, string)>, EncodeError> {
    match Failure(doc)
    case Some(e) => Err(e)
    case None => Ok(EmittedUpTo(KEY_COUNT, doc))
  }

  /** The form body the encoder returns, or the error it throws. */
  function FormBody(doc: Document): Result<string, EncodeError> {
    match FormPairs(doc)
    case Ok(pairs) => Ok(Serialize(pairs))
    case Err(e) => Err(e)
  }

  /** `URLSearchParams`: the name/value pairs appended so far. */
  class FormParams {
    var pairs: seq<(string, string)>

    constructor()
      ensures pairs == []
    {
      pairs := [];
    }

    method Append(name: string, value: string)
      modifies this
      ensures pairs == old(pairs) + [(name, value)]
    {
      pairs := pairs + [(name, value)];
    }

    /** The form body: ASCII text from which the form parser reads back every pair, as UTF-8, in order. */
    function ToString(): (body: string)
      reads this
      ensures IsAscii(body) && Parse(AsciiBytes(body)) == Utf8Pairs(pairs)
    {
      ParseSerialize(pairs);
      Serialize(pairs)
    }
  }

  /** Appends `(key, value)` unless the value is null or undefined; a boolean is sent as `on` or `off`. */
  method AppendIfExists(params: FormParams, key: string, value: JsValue)
    modifies params
    ensures params.pairs == old(params.pairs) + Appended(key, value)
  {
    if value != Null && value != Undefined {
      params.Append(key, if value == Bool(true) then "on" else if value == Bool(false) then "off" else value.s);
    }
  }

  /** The `appendIfExists` calls for the UDP settings. */
  method AppendUdp(params: FormParams, settings: Document)
    requires "udp" in settings
    requires params.pairs == EmittedUpTo(0, settings)
    modifies params
    ensures params.pairs == EmittedUpTo(6, settings)
  {
    var section := settings["udp"];
    AppendIfExists(params, "UP", Get(section, "primaryPort"));
    assert params.pairs == EmittedUpTo(1, settings);
    AppendIfExists(params, "U2", Get(section, "secondaryPort"));
    assert params.pairs == EmittedUpTo(2, settings);
    AppendIfExists(params, "GS", Get(section, "sendGroup"));
    assert params.pairs == EmittedUpTo(3, settings);
    AppendIfExists(params, "GR", Get(section, "receiveGroup"));
    assert params.pairs == EmittedUpTo(4, settings);
    AppendIfExists(params, "G1", Str("on"));
    assert params.pairs == EmittedUpTo(5, settings);
    AppendIfExists(params, "R1", Str("on"));
    assert params.pairs == EmittedUpTo(6, settings);
  }

  /** The `appendIfExists` calls for the sync options. */
  method AppendSync(params: FormParams, settings: Document)
    requires "sync" in settings
    requires params.pairs == EmittedUpTo(6, settings)
    modifies params
    ensures params.pairs == EmittedUpTo(16, settings)
  {
    var section := settings["sync"];
    AppendIfExists(params, "RB", Get(section, "receiveBrightness"));
    assert params.pairs == EmittedUpTo(7, settings);
    AppendIfExists(params, "RC", Get(section, "receiveColor"));
    assert params.pairs == EmittedUpTo(8, settings);
    AppendIfExists(params, "RX", Get(section, "receiveEffects"));
    assert params.pairs == EmittedUpTo(9, settings);
    AppendIfExists(params, "SO", Get(section, "receiveSegmentOptions"));
    assert params.pairs == EmittedUpTo(10, settings);
    AppendIfExists(params, "SG", Get(section, "notifyDirect"));
    assert params.pairs == EmittedUpTo(11, settings);
    AppendIfExists(params, "SD", Get(section, "notifyButton"));
    assert params.pairs == EmittedUpTo(12, settings);
    AppendIfExists(params, "SB", Get(section, "notifyAlexa"));
    assert params.pairs == EmittedUpTo(13, settings);
    AppendIfExists(params, "SH", Get(section, "notifyHue"));
    assert params.pairs == EmittedUpTo(14, settings);
    AppendIfExists(params, "SM", Get(section, "notifyMacro"));
    assert params.pairs == EmittedUpTo(15, settings);
    AppendIfExists(params, "UR", Get(section, "udpRetransmit"));
    assert params.pairs == EmittedUpTo(16, settings);
  }

  /** The `appendIfExists` calls for the instance settings. */
  method AppendInstance(params: FormParams, settings: Document)
    requires "instance" in settings
    requires params.pairs == EmittedUpTo(16, settings)
    modifies params
    ensures params.pairs == EmittedUpTo(18, settings)
  {
    var section := settings["instance"];
    AppendIfExists(params, "NL", Get(section, "enableList"));
    assert params.pairs == EmittedUpTo(17, settings);
    AppendIfExists(params, "NB", Get(section, "discoverable"));
    assert params.pairs == EmittedUpTo(18, settings);
  }

  /** The `appendIfExists` calls for the realtime settings. */
  method AppendRealtime(params: FormParams, settings: Document)
    requires "realtime" in settings
    requires params.pairs == EmittedUpTo(18, settings)
    modifies params
    ensures params.pairs == EmittedUpTo(33, settings)
  {
    var section := settings["realtime"];
    AppendIfExists(params, "RD", Get(section, "receiveUDP"));
    assert params.pairs == EmittedUpTo(19, settings);
    AppendIfExists(params, "MO", Get(section, "useMainSegment"));
    assert params.pairs == EmittedUpTo(20, settings);
    AppendIfExists(params, "DI", Get(section, "e131Port"));
    assert params.pairs == EmittedUpTo(21, settings);
    AppendIfExists(params, "EP", Get(section, "e131Port"));
    assert params.pairs == EmittedUpTo(22, settings);
    AppendIfExists(params, "EM", Get(section, "e131SkipOutOfSequence"));
    assert params.pairs == EmittedUpTo(23, settings);
    AppendIfExists(params, "EU", Get(section, "e131Universe"));
    assert params.pairs == EmittedUpTo(24, settings);
    AppendIfExists(params, "ES", Get(section, "e131Multicast"));
    assert params.pairs == EmittedUpTo(25, settings);
    AppendIfExists(params, "DA", Get(section, "dmxAddress"));
    assert params.pairs == EmittedUpTo(26, settings);
    AppendIfExists(params, "XX", Get(section, "dmxSegmentSpacing"));
    assert params.pairs == EmittedUpTo(27, settings);
    AppendIfExists(params, "PY", Str("0"));
    assert params.pairs == EmittedUpTo(28, settings);
    AppendIfExists(params, "DM", Get(section, "dmxMode"));
    assert params.pairs == EmittedUpTo(29, settings);
    AppendIfExists(params, "ET", Get(section, "dmxTimeout"));
    assert params.pairs == EmittedUpTo(30, settings);
    AppendIfExists(params, "FB", Get(section, "forceBrightness"));
    assert params.pairs == EmittedUpTo(31, settings);
    AppendIfExists(params, "RG", Get(section, "disableGammaCorrection"));
    assert params.pairs == EmittedUpTo(32, settings);
    AppendIfExists(params, "WO", Get(section, "ledOffset"));
    assert params.pairs == EmittedUpTo(33, settings);
  }

  /** The `appendIfExists` calls for the two constant keys that follow the realtime settings. */
  method AppendConstants(params: FormParams, settings: Document)
    requires params.pairs == EmittedUpTo(33, settings)
    modifies params
    ensures params.pairs == EmittedUpTo(35, settings)
  {
    AppendIfExists(params, "AI", Str(""));
    assert params.pairs == EmittedUpTo(34, settings);
    AppendIfExists(params, "AP", Str("0"));
    assert params.pairs == EmittedUpTo(35, settings);
  }

  /** The `appendIfExists` calls for the MQTT settings. */
  method AppendMqtt(params: FormParams, settings: Document)
    requires "mqtt" in settings
    requires params.pairs == EmittedUpTo(35, settings)
    modifies params
    ensures params.pairs == EmittedUpTo(44, settings)
  {
    var section := settings["mqtt"];
    AppendIfExists(params, "MQ", Get(section, "enabled"));
    assert params.pairs == EmittedUpTo(36, settings);
    AppendIfExists(params, "MS", Get(section, "broker"));
    assert params.pairs == EmittedUpTo(37, settings);
    AppendIfExists(params, "MQPORT", Get(section, "port"));
    assert params.pairs == EmittedUpTo(38, settings);
    AppendIfExists(params, "MQUSER", Get(section, "username"));
    assert params.pairs == EmittedUpTo(39, settings);
    AppendIfExists(params, "MQPASS", Get(section, "password"));
    assert params.pairs == EmittedUpTo(40, settings);
    AppendIfExists(params, "MQCID", Get(section, "clientId"));
    assert params.pairs == EmittedUpTo(41, settings);
    AppendIfExists(params, "MD", Get(section, "deviceTopic"));
    assert params.pairs == EmittedUpTo(42, settings);
    AppendIfExists(params, "MG", Get(section, "groupTopic"));
    assert params.pairs == EmittedUpTo(43, settings);
    AppendIfExists(params, "BM", Get(section, "buttonPublish"));
    assert params.pairs == EmittedUpTo(44, settings);
  }

  /** The `appendIfExists` calls for the Hue settings before the ip. */
  method AppendHue(params: FormParams, settings: Document)
    requires "hue" in settings
    requires params.pairs == EmittedUpTo(45, settings)
    modifies params
    ensures params.pairs == EmittedUpTo(50, settings)
  {
    var section := settings["hue"];
    AppendIfExists(params, "HI", Get(section, "pollInterval"));
    assert params.pairs == EmittedUpTo(46, settings);
    AppendIfExists(params, "HP", Get(section, "pollEnabled"));
    assert params.pairs == EmittedUpTo(47, settings);
    AppendIfExists(params, "HO", Get(section, "onOff"));
    assert params.pairs == EmittedUpTo(48, settings);
    AppendIfExists(params, "HB", Get(section, "brightness"));
    assert params.pairs == EmittedUpTo(49, settings);
    AppendIfExists(params, "HC", Get(section, "color"));
    assert params.pairs == EmittedUpTo(50, settings);
  }

  /**
   * The `if (settings.hue && settings.hue.ip)` block: a truthy ip is split on `.` and its first four
   * parts appended as H0..H3, a missing part skipped. False when the ip is `true`, which has no `split`.
   */
  method AppendHueIp(params: FormParams, settings: Document) returns (splittable: bool)
    requires "hue" in settings
    requires params.pairs == EmittedUpTo(50, settings)
    modifies params
    ensures splittable <==> Get(settings["hue"], "ip") != Bool(true)
    ensures splittable ==> params.pairs == EmittedUpTo(54, settings)
  {
    var ip := Get(settings["hue"], "ip");
    if Truthy(ip) {
      if ip.Bool? {
        return false;
      }
      var parts := Split(ip.s, '.');
      AppendIfExists(params, "H0", Part(parts, 0));
      assert params.pairs == EmittedUpTo(51, settings);
      AppendIfExists(params, "H1", Part(parts, 1));
      assert params.pairs == EmittedUpTo(52, settings);
      AppendIfExists(params, "H2", Part(parts, 2));
      assert params.pairs == EmittedUpTo(53, settings);
      AppendIfExists(params, "H3", Part(parts, 3));
      assert params.pairs == EmittedUpTo(54, settings);
    } else {
      assert EmittedUpTo(51, settings) == EmittedUpTo(50, settings);
      assert EmittedUpTo(52, settings) == EmittedUpTo(50, settings);
      assert EmittedUpTo(53, settings) == EmittedUpTo(50, settings);
      assert EmittedUpTo(54, settings) == EmittedUpTo(50, settings);
    }
    return true;
  }

  /**
   * The encoder: the `appendIfExists` calls in order, a block of them per settings section, with the
   * errors it can throw; then the body `params.toString()` gives.
   */
  method ConvertSettingsToFormData(settings: Document) returns (r: Result<string, EncodeError>)
    ensures r == FormBody(settings)
  {
    var params := new FormParams();
    if "udp" !in settings {
      return Err(ReadOfUndefined("primaryPort"));
    }
    AppendUdp(params, settings);
    if "sync" !in settings {
      return Err(ReadOfUndefined("receiveBrightness"));
    }
    AppendSync(params, settings);
    if "instance" !in settings {
      return Err(ReadOfUndefined("enableList"));
    }
    AppendInstance(params, settings);
    if "realtime" !in settings {
      return Err(ReadOfUndefined("receiveUDP"));
    }
    AppendRealtime(params, settings);
    AppendConstants(params, settings);
    if "mqtt" !in settings {
      return Err(ReadOfUndefined("enabled"));
    }
    AppendMqtt(params, settings);
    AppendIfExists(params, "HL", Str("2"));
    assert params.pairs == EmittedUpTo(45, settings);
    if "hue" !in settings {
      return Err(ReadOfUndefined("pollInterval"));
    }
    AppendHue(params, settings);
    var splittable := AppendHueIp(params, settings);
    if !splittable {
      return Err(NotAFunction("settings.hue.ip.split"));
    }
    AppendIfExists(params, "BD", Str("10000"));
    assert params.pairs == EmittedUpTo(55, settings);
    r := Ok(params.ToString());
  }
}
