/**
 * `parseWLEDSyncSettings`: the settings document scraped from the script text of WLED's
 * "Sync Interfaces" page. Every field is one `extractValue` or `extractChecked` lookup; the one
 * composite field, `hue.ip`, joins four lookups with `.` the way a template literal does.
 */
module Decoder {
  import opened Wrappers
  import opened Text
  import opened Scan
  import opened Json

  datatype Udp = Udp(
    UDPPort: Option<string>, secondaryPort: Option<string>, sendGroup: Option<string>, receiveGroup: Option<string>,
    sendGroup1: Option<bool>, sendGroup2: Option<bool>, sendGroup3: Option<bool>, sendGroup4: Option<bool>,
    sendGroup5: Option<bool>, sendGroup6: Option<bool>, sendGroup7: Option<bool>, sendGroup8: Option<bool>,
    receiveGroup1: Option<bool>, receiveGroup2: Option<bool>, receiveGroup3: Option<bool>, receiveGroup4: Option<bool>,
    receiveGroup5: Option<bool>, receiveGroup6: Option<bool>, receiveGroup7: Option<bool>, receiveGroup8: Option<bool>)

  datatype Sync = Sync(
    receiveBrightness: Option<bool>, receiveColor: Option<bool>, receiveEffects: Option<bool>,
    receiveSegmentOptions: Option<bool>, notifyDirect: Option<bool>, notifyButton: Option<bool>,
    notifyAlexa: Option<bool>, notifyHue: Option<bool>, notifyMacro: Option<bool>, udpRetransmit: Option<string>)

  datatype Instance = Instance(enableList: Option<bool>, discoverable: Option<bool>)

  datatype Realtime = Realtime(
    receiveUDP: Option<bool>, useMainSegment: Option<bool>, dmxStartAddress: Option<string>, dmxMode: Option<string>,
    dmxTimeout: Option<string>, dmxSegmentSpacing: Option<string>, e131portPriority: Option<string>,
    e131Multicast: Option<bool>, e131SkipOutOfSequence: Option<bool>, startUniverse: Option<string>,
    forceBrightness: Option<bool>, disableGammaCorrection: Option<bool>, ledOffset: Option<string>)

  datatype Mqtt = Mqtt(
    enabled: Option<bool>, broker: Option<string>, port: Option<string>, username: Option<string>,
    password: Option<string>, clientId: Option<string>, deviceTopic: Option<string>, groupTopic: Option<string>,
    buttonPublish: Option<bool>)

  /** `ip` is a string, never null: the template literal turns a missing octet into the text `null`. */
  datatype Hue = Hue(
    pollEnabled: Option<bool>, onOff: Option<bool>, brightness: Option<bool>, color: Option<bool>,
    pollHueLight: Option<string>, pollInterval: Option<string>, ip: string)

  datatype Additional = Additional(
    g1: Option<bool>, r1: Option<bool>, di: Option<string>, ai: Option<string>, ap: Option<string>,
    bd: Option<string>, ep: Option<string>)

  datatype SyncSettings = SyncSettings(
    udp: Udp, sync: Sync, instance: Instance, realtime: Realtime, mqtt: Mqtt, hue: Hue, additional: Additional)

  /** How a template literal interpolates a lookup: its text, or `null`. */
  function NullText(v: Option<string>): string {
    match v
    case Some(s) => s
    case None => "null"
  }

  /** The four octet lookups `H0`..`H3`, interpolated and joined with `.`. */
  function HueIp(js: string): string {
    NullText(ExtractValue(js, "H0")) + "." + NullText(ExtractValue(js, "H1")) + "."
      + NullText(ExtractValue(js, "H2")) + "." + NullText(ExtractValue(js, "H3"))
  }

  function ParseUdp(js: string): Udp {
    Udp(ExtractValue(js, "UP"), ExtractValue(js, "U2"), ExtractValue(js, "GS"), ExtractValue(js, "GR"),
      ExtractChecked(js, "G1"), ExtractChecked(js, "G2"), ExtractChecked(js, "G3"), ExtractChecked(js, "G4"),
      ExtractChecked(js, "G5"), ExtractChecked(js, "G6"), ExtractChecked(js, "G7"), ExtractChecked(js, "G8"),
      ExtractChecked(js, "R1"), ExtractChecked(js, "R2"), ExtractChecked(js, "R3"), ExtractChecked(js, "R4"),
      ExtractChecked(js, "R5"), ExtractChecked(js, "R6"), ExtractChecked(js, "R7"), ExtractChecked(js, "R8"))
  }

  function ParseSync(js: string): Sync {
    Sync(ExtractChecked(js, "RB"), ExtractChecked(js, "RC"), ExtractChecked(js, "RX"), ExtractChecked(js, "SO"),
      ExtractChecked(js, "SG"), ExtractChecked(js, "SD"), ExtractChecked(js, "SB"), ExtractChecked(js, "SH"),
      ExtractChecked(js, "SM"), ExtractValue(js, "UR"))
  }

  function ParseInstance(js: string): Instance {
    Instance(ExtractChecked(js, "NL"), ExtractChecked(js, "NB"))
  }

  function ParseRealtime(js: string): Realtime {
    Realtime(ExtractChecked(js, "RD"), ExtractChecked(js, "MO"), ExtractValue(js, "DA"), ExtractValue(js, "DM"),
      ExtractValue(js, "ET"), ExtractValue(js, "XX"), ExtractValue(js, "PY"), ExtractChecked(js, "ES"),
      ExtractChecked(js, "EM"), ExtractValue(js, "EU"), ExtractChecked(js, "FB"), ExtractChecked(js, "RG"),
      ExtractValue(js, "WO"))
  }

  function ParseMqtt(js: string): Mqtt {
    Mqtt(ExtractChecked(js, "MQ"), ExtractValue(js, "MS"), ExtractValue(js, "MQPORT"), ExtractValue(js, "MQUSER"),
      ExtractValue(js, "MQPASS"), ExtractValue(js, "MQCID"), ExtractValue(js, "MD"), ExtractValue(js, "MG"),
      ExtractChecked(js, "BM"))
  }

  function ParseHue(js: string): Hue {
    Hue(ExtractChecked(js, "HP"), ExtractChecked(js, "HO"), ExtractChecked(js, "HB"), ExtractChecked(js, "HC"),
      ExtractValue(js, "HL"), ExtractValue(js, "HI"), HueIp(js))
  }

  /** `bd` and `ep` are both read; the source leaves out the comma between them. */
  function ParseAdditional(js: string): Additional {
    Additional(ExtractChecked(js, "G1"), ExtractChecked(js, "R1"), ExtractValue(js, "DI"), ExtractValue(js, "AI"),
      ExtractValue(js, "AP"), ExtractValue(js, "BD"), ExtractValue(js, "EP"))
  }

  /** The settings document: every field one lookup on the script text `js`. */
  function ParseSyncSettings(js: string): SyncSettings {
    SyncSettings(ParseUdp(js), ParseSync(js), ParseInstance(js), ParseRealtime(js), ParseMqtt(js), ParseHue(js),
      ParseAdditional(js))
  }

  /** The document of a script with no assignment in it: every lookup null, `hue.ip` the text `null.null.null.null`. */
  const NULL_SETTINGS: SyncSettings := SyncSettings(
    Udp(None, None, None, None, None, None, None, None, None, None, None, None,
      None, None, None, None, None, None, None, None),
    Sync(None, None, None, None, None, None, None, None, None, None),
    Instance(None, None),
    Realtime(None, None, None, None, None, None, None, None, None, None, None, None, None),
    Mqtt(None, None, None, None, None, None, None, None, None),
    Hue(None, None, None, None, None, None, "null.null.null.null"),
    Additional(None, None, None, None, None, None, None))

  /** Text without a single `d.Sf.` decodes to the all-null document; `hue.ip` alone is still a string. */
  lemma NoAssignmentsDecodeToNulls(js: string)
    requires !Includes(js, MARKER)
    ensures ParseSyncSettings(js) == NULL_SETTINGS
    ensures ParseSyncSettings(js).hue.ip == "null.null.null.null"
  {
    NoAssignmentsUdp(js);
    NoAssignmentsSync(js);
    NoAssignmentsInstance(js);
    NoAssignmentsRealtime(js);
    NoAssignmentsMqtt(js);
    NoAssignmentsHue(js);
    NoAssignmentsAdditional(js);
  }

  lemma NoAssignmentsUdp(js: string)
    requires !Includes(js, MARKER)
    ensures ParseUdp(js) == NULL_SETTINGS.udp
  {
    NoMarkerNoMatch(js, "UP");
    NoMarkerNoMatch(js, "U2");
    NoMarkerNoMatch(js, "GS");
    NoMarkerNoMatch(js, "GR");
    NoMarkerNoMatch(js, "G1");
    NoMarkerNoMatch(js, "G2");
    NoMarkerNoMatch(js, "G3");
    NoMarkerNoMatch(js, "G4");
    NoMarkerNoMatch(js, "G5");
    NoMarkerNoMatch(js, "G6");
    NoMarkerNoMatch(js, "G7");
    NoMarkerNoMatch(js, "G8");
    NoMarkerNoMatch(js, "R1");
    NoMarkerNoMatch(js, "R2");
    NoMarkerNoMatch(js, "R3");
    NoMarkerNoMatch(js, "R4");
    NoMarkerNoMatch(js, "R5");
    NoMarkerNoMatch(js, "R6");
    NoMarkerNoMatch(js, "R7");
    NoMarkerNoMatch(js, "R8");
  }

  lemma NoAssignmentsSync(js: string)
    requires !Includes(js, MARKER)
    ensures ParseSync(js) == NULL_SETTINGS.sync
  {
    NoMarkerNoMatch(js, "UR");
    NoMarkerNoMatch(js, "RB");
    NoMarkerNoMatch(js, "RC");
    NoMarkerNoMatch(js, "RX");
    NoMarkerNoMatch(js, "SO");
    NoMarkerNoMatch(js, "SG");
    NoMarkerNoMatch(js, "SD");
    NoMarkerNoMatch(js, "SB");
    NoMarkerNoMatch(js, "SH");
    NoMarkerNoMatch(js, "SM");
  }

  lemma NoAssignmentsInstance(js: string)
    requires !Includes(js, MARKER)
    ensures ParseInstance(js) == NULL_SETTINGS.instance
  {
    NoMarkerNoMatch(js, "NL");
    NoMarkerNoMatch(js, "NB");
  }

  lemma NoAssignmentsRealtime(js: string)
    requires !Includes(js, MARKER)
    ensures ParseRealtime(js) == NULL_SETTINGS.realtime
  {
    NoMarkerNoMatch(js, "DA");
    NoMarkerNoMatch(js, "DM");
    NoMarkerNoMatch(js, "ET");
    NoMarkerNoMatch(js, "XX");
    NoMarkerNoMatch(js, "PY");
    NoMarkerNoMatch(js, "EU");
    NoMarkerNoMatch(js, "WO");
    NoMarkerNoMatch(js, "RD");
    NoMarkerNoMatch(js, "MO");
    NoMarkerNoMatch(js, "ES");
    NoMarkerNoMatch(js, "EM");
    NoMarkerNoMatch(js, "FB");
    NoMarkerNoMatch(js, "RG");
  }

  lemma NoAssignmentsMqtt(js: string)
    requires !Includes(js, MARKER)
    ensures ParseMqtt(js) == NULL_SETTINGS.mqtt
  {
    NoMarkerNoMatch(js, "MS");
    NoMarkerNoMatch(js, "MQPORT");
    NoMarkerNoMatch(js, "MQUSER");
    NoMarkerNoMatch(js, "MQPASS");
    NoMarkerNoMatch(js, "MQCID");
    NoMarkerNoMatch(js, "MD");
    NoMarkerNoMatch(js, "MG");
    NoMarkerNoMatch(js, "MQ");
    NoMarkerNoMatch(js, "BM");
  }

  lemma NoAssignmentsHue(js: string)
    requires !Includes(js, MARKER)
    ensures ParseHue(js) == NULL_SETTINGS.hue
  {
    NoMarkerNoMatch(js, "HL");
    NoMarkerNoMatch(js, "HI");
    NoMarkerNoMatch(js, "H0");
    NoMarkerNoMatch(js, "H1");
    NoMarkerNoMatch(js, "H2");
    NoMarkerNoMatch(js, "H3");
    NoMarkerNoMatch(js, "HP");
    NoMarkerNoMatch(js, "HO");
    NoMarkerNoMatch(js, "HB");
    NoMarkerNoMatch(js, "HC");
  }

  lemma NoAssignmentsAdditional(js: string)
    requires !Includes(js, MARKER)
    ensures ParseAdditional(js) == NULL_SETTINGS.additional
  {
    NoMarkerNoMatch(js, "DI");
    NoMarkerNoMatch(js, "AI");
    NoMarkerNoMatch(js, "AP");
    NoMarkerNoMatch(js, "BD");
    NoMarkerNoMatch(js, "EP");
    NoMarkerNoMatch(js, "G1");
    NoMarkerNoMatch(js, "R1");
  }

  /** `hue.ip` is the four octet lookups joined with `.`, a missing one written `null`. */
  lemma HueIpJoinsOctets(js: string)
    ensures ParseSyncSettings(js).hue.ip == Join(HueOctetTexts(js), '.')
  {
    var t := HueOctetTexts(js);
    JoinFour(t[0], t[1], t[2], t[3]);
  }

  lemma JoinFour(a: string, b: string, c: string, d: string)
    ensures Join([a, b, c, d], '.') == a + "." + b + "." + c + "." + d
  {
    var t := [a, b, c, d];
    assert Join(t[3..], '.') == d;
    assert Join(t[2..], '.') == c + "." + d;
    assert Join(t[1..], '.') == b + "." + (c + "." + d);
  }

  function HueOctetTexts(js: string): (t: seq<string>)
    ensures |t| == 4
  {
    [NullText(ExtractValue(js, "H0")), NullText(ExtractValue(js, "H1")),
     NullText(ExtractValue(js, "H2")), NullText(ExtractValue(js, "H3"))]
  }

  /** Splitting `hue.ip` on `.` gives the four octets back, unless an octet itself contains a `.`. */
  lemma HueIpSplitsIntoOctets(js: string)
    requires forall i, k :: 0 <= i < 4 && 0 <= k < |HueOctetTexts(js)[i]| ==> HueOctetTexts(js)[i][k] != '.'
    ensures Split(ParseSyncSettings(js).hue.ip, '.') == HueOctetTexts(js)
  {
    HueIpJoinsOctets(js);
    SplitJoin(HueOctetTexts(js), '.');
  }

  // ---- The document as JSON, as it is saved and read back as a preset ----

  function BoolJson(o: Option<bool>): JsValue {
    match o
    case Some(b) => Bool(b)
    case None => Null
  }

  function TextJson(o: Option<string>): JsValue {
    match o
    case Some(t) => Str(t)
    case None => Null
  }

  function UdpJson(u: Udp): Section {
    map[
      "UDPPort" := TextJson(u.UDPPort), "secondaryPort" := TextJson(u.secondaryPort),
      "sendGroup" := TextJson(u.sendGroup), "receiveGroup" := TextJson(u.receiveGroup),
      "sendGroup1" := BoolJson(u.sendGroup1), "sendGroup2" := BoolJson(u.sendGroup2),
      "sendGroup3" := BoolJson(u.sendGroup3), "sendGroup4" := BoolJson(u.sendGroup4),
      "sendGroup5" := BoolJson(u.sendGroup5), "sendGroup6" := BoolJson(u.sendGroup6),
      "sendGroup7" := BoolJson(u.sendGroup7), "sendGroup8" := BoolJson(u.sendGroup8),
      "receiveGroup1" := BoolJson(u.receiveGroup1), "receiveGroup2" := BoolJson(u.receiveGroup2),
      "receiveGroup3" := BoolJson(u.receiveGroup3), "receiveGroup4" := BoolJson(u.receiveGroup4),
      "receiveGroup5" := BoolJson(u.receiveGroup5), "receiveGroup6" := BoolJson(u.receiveGroup6),
      "receiveGroup7" := BoolJson(u.receiveGroup7), "receiveGroup8" := BoolJson(u.receiveGroup8)]
  }

  function SyncJson(y: Sync): Section {
    map[
      "receiveBrightness" := BoolJson(y.receiveBrightness), "receiveColor" := BoolJson(y.receiveColor),
      "receiveEffects" := BoolJson(y.receiveEffects), "receiveSegmentOptions" := BoolJson(y.receiveSegmentOptions),
      "notifyDirect" := BoolJson(y.notifyDirect), "notifyButton" := BoolJson(y.notifyButton),
      "notifyAlexa" := BoolJson(y.notifyAlexa), "notifyHue" := BoolJson(y.notifyHue),
      "notifyMacro" := BoolJson(y.notifyMacro), "udpRetransmit" := TextJson(y.udpRetransmit)]
  }

  function InstanceJson(n: Instance): Section {
    map["enableList" := BoolJson(n.enableList), "discoverable" := BoolJson(n.discoverable)]
  }

  function RealtimeJson(r: Realtime): Section {
    map[
      "receiveUDP" := BoolJson(r.receiveUDP), "useMainSegment" := BoolJson(r.useMainSegment),
      "dmxStartAddress" := TextJson(r.dmxStartAddress), "dmxMode" := TextJson(r.dmxMode),
      "dmxTimeout" := TextJson(r.dmxTimeout), "dmxSegmentSpacing" := TextJson(r.dmxSegmentSpacing),
      "e131portPriority" := TextJson(r.e131portPriority), "e131Multicast" := BoolJson(r.e131Multicast),
      "e131SkipOutOfSequence" := BoolJson(r.e131SkipOutOfSequence), "startUniverse" := TextJson(r.startUniverse),
      "forceBrightness" := BoolJson(r.forceBrightness),
      "disableGammaCorrection" := BoolJson(r.disableGammaCorrection), "ledOffset" := TextJson(r.ledOffset)]
  }

  function MqttJson(m: Mqtt): Section {
    map[
      "enabled" := BoolJson(m.enabled), "broker" := TextJson(m.broker), "port" := TextJson(m.port),
      "username" := TextJson(m.username), "password" := TextJson(m.password), "clientId" := TextJson(m.clientId),
      "deviceTopic" := TextJson(m.deviceTopic), "groupTopic" := TextJson(m.groupTopic),
      "buttonPublish" := BoolJson(m.buttonPublish)]
  }

  function HueJson(h: Hue): Section {
    map[
      "pollEnabled" := BoolJson(h.pollEnabled), "onOff" := BoolJson(h.onOff), "brightness" := BoolJson(h.brightness),
      "color" := BoolJson(h.color), "pollHueLight" := TextJson(h.pollHueLight),
      "pollInterval" := TextJson(h.pollInterval), "ip" := Str(h.ip)]
  }

  function AdditionalJson(a: Additional): Section {
    map[
      "g1" := BoolJson(a.g1), "r1" := BoolJson(a.r1), "di" := TextJson(a.di), "ai" := TextJson(a.ai),
      "ap" := TextJson(a.ap), "bd" := TextJson(a.bd), "ep" := TextJson(a.ep)]
  }

  /**
   * `JSON.parse(JSON.stringify(settings))`: each section an object holding every field the decoder
   * writes, a null lookup kept as JSON `null`.
   */
  function ToJson(s: SyncSettings): Document {
    map[
      "udp" := UdpJson(s.udp), "sync" := SyncJson(s.sync), "instance" := InstanceJson(s.instance),
      "realtime" := RealtimeJson(s.realtime), "mqtt" := MqttJson(s.mqtt), "hue" := HueJson(s.hue),
      "additional" := AdditionalJson(s.additional)]
  }
}
