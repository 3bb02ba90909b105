/**
 * A decoded document saved as JSON, copied into the presets by hand and applied, so that it is encoded
 * again: which scraped values reach the form unchanged, which are lost because the two directions name
 * a field differently, and how `hue.ip` comes back as four octet keys. Seven more scraped keys (G1, R1,
 * PY, AI, AP, HL and BD) come back as the encoder's constants, as `EncoderProperties.ConstantsAlwaysSent`
 * states.
 */
module RoundTrip {
  import opened Wrappers
  import opened Text
  import opened Scan
  import opened Json
  import opened Decoder
  import opened Encoder
  import opened EncoderProperties

  /** How a scraped checkbox comes back: the form value of its JSON form. */
  function CheckboxText(o: Option<bool>): Option<string> {
    FormValue(BoolJson(o))
  }

  /** The preset document a scraped script is saved as. */
  function Resaved(js: string): Document {
    ToJson(ParseSyncSettings(js))
  }

  /** A decoded document always encodes: every section the encoder reads is there and `hue.ip` is a string. */
  lemma DecodedDocumentEncodes(s: SyncSettings)
    ensures Failure(ToJson(s)).None?
    ensures var doc := ToJson(s);
      && SectionOf(doc, "udp") == UdpJson(s.udp) && SectionOf(doc, "sync") == SyncJson(s.sync)
      && SectionOf(doc, "instance") == InstanceJson(s.instance)
      && SectionOf(doc, "realtime") == RealtimeJson(s.realtime)
      && SectionOf(doc, "mqtt") == MqttJson(s.mqtt) && SectionOf(doc, "hue") == HueJson(s.hue)
  {
  }

  /** A checkbox key carries the state stored under the section and name it reads. */
  lemma CheckboxResent(doc: Document, i: nat, key: string, section: string, name: string, o: Option<bool>)
    requires Failure(doc).None?
    requires i < KEY_COUNT && WireKey(i) == key && WireSource(i) == Field(section, name)
    requires Get(SectionOf(doc, section), name) == BoolJson(o)
    ensures FormPairs(doc).Ok?
    ensures FirstValue(FormPairs(doc).value, key) == CheckboxText(o)
  {
    KeyLookup(doc, i);
  }

  /** A value key carries the text stored under the section and name it reads. */
  lemma TextResent(doc: Document, i: nat, key: string, section: string, name: string, o: Option<string>)
    requires Failure(doc).None?
    requires i < KEY_COUNT && WireKey(i) == key && WireSource(i) == Field(section, name)
    requires Get(SectionOf(doc, section), name) == TextJson(o)
    ensures FormPairs(doc).Ok?
    ensures FirstValue(FormPairs(doc).value, key) == o
  {
    KeyLookup(doc, i);
  }

  /** A key whose field the section lacks is not sent. */
  lemma LostResent(doc: Document, i: nat, key: string, section: string, name: string)
    requires Failure(doc).None?
    requires i < KEY_COUNT && WireKey(i) == key && WireSource(i) == Field(section, name)
    requires Get(SectionOf(doc, section), name) == Undefined
    ensures FormPairs(doc).Ok?
    ensures FirstValue(FormPairs(doc).value, key).None?
  {
    KeyLookup(doc, i);
  }

  /** The `udp` object holds each decoded text field the encoder reads, under the name it reads it by. */
  lemma UdpTextFields(u: Udp)
    ensures var j := UdpJson(u);
      && Get(j, "secondaryPort") == TextJson(u.secondaryPort)
      && Get(j, "sendGroup") == TextJson(u.sendGroup)
      && Get(j, "receiveGroup") == TextJson(u.receiveGroup)
  {
  }

  /** The `udp` object has no field named `primaryPort`. */
  lemma UdpLacks(u: Udp)
    ensures var j := UdpJson(u);
      && Get(j, "primaryPort") == Undefined
  {
  }

  /** Re-encoding a document whose `udp` object is a decoded one. */
  lemma UdpResent(doc: Document, u: Udp)
    requires Failure(doc).None? && SectionOf(doc, "udp") == UdpJson(u)
    ensures FormPairs(doc).Ok?
    ensures var p := FormPairs(doc).value;
      && FirstValue(p, "UP") == None
      && FirstValue(p, "U2") == u.secondaryPort
      && FirstValue(p, "GS") == u.sendGroup
      && FirstValue(p, "GR") == u.receiveGroup
  {
    UdpTextFields(u);
    UdpLacks(u);
    LostResent(doc, 0, "UP", "udp", "primaryPort");
    TextResent(doc, 1, "U2", "udp", "secondaryPort", u.secondaryPort);
    TextResent(doc, 2, "GS", "udp", "sendGroup", u.sendGroup);
    TextResent(doc, 3, "GR", "udp", "receiveGroup", u.receiveGroup);
  }

  lemma UdpRoundTrip(js: string)
    ensures FormPairs(Resaved(js)).Ok?
    ensures var p := FormPairs(Resaved(js)).value;
      && FirstValue(p, "UP") == None
      && FirstValue(p, "U2") == ExtractValue(js, "U2")
      && FirstValue(p, "GS") == ExtractValue(js, "GS")
      && FirstValue(p, "GR") == ExtractValue(js, "GR")
  {
    var s := ParseSyncSettings(js);
    assert s.udp == ParseUdp(js);
    DecodedDocumentEncodes(s);
    UdpResent(ToJson(s), s.udp);
  }

  /** The `sync` object holds each decoded checkbox field the encoder reads, under the name it reads it by. */
  lemma SyncFlagFields(y: Sync)
    ensures var j := SyncJson(y);
      && Get(j, "receiveBrightness") == BoolJson(y.receiveBrightness)
      && Get(j, "receiveColor") == BoolJson(y.receiveColor)
      && Get(j, "receiveEffects") == BoolJson(y.receiveEffects)
      && Get(j, "receiveSegmentOptions") == BoolJson(y.receiveSegmentOptions)
      && Get(j, "notifyDirect") == BoolJson(y.notifyDirect)
      && Get(j, "notifyButton") == BoolJson(y.notifyButton)
      && Get(j, "notifyAlexa") == BoolJson(y.notifyAlexa)
      && Get(j, "notifyHue") == BoolJson(y.notifyHue)
      && Get(j, "notifyMacro") == BoolJson(y.notifyMacro)
  {
  }

  /** The `sync` object holds each decoded text field the encoder reads, under the name it reads it by. */
  lemma SyncTextFields(y: Sync)
    ensures var j := SyncJson(y);
      && Get(j, "udpRetransmit") == TextJson(y.udpRetransmit)
  {
  }

  /** Re-encoding a document whose `sync` object is a decoded one. */
  lemma SyncResent(doc: Document, y: Sync)
    requires Failure(doc).None? && SectionOf(doc, "sync") == SyncJson(y)
    ensures FormPairs(doc).Ok?
    ensures var p := FormPairs(doc).value;
      && FirstValue(p, "RB") == CheckboxText(y.receiveBrightness)
      && FirstValue(p, "RC") == CheckboxText(y.receiveColor)
      && FirstValue(p, "RX") == CheckboxText(y.receiveEffects)
      && FirstValue(p, "SO") == CheckboxText(y.receiveSegmentOptions)
      && FirstValue(p, "SG") == CheckboxText(y.notifyDirect)
      && FirstValue(p, "SD") == CheckboxText(y.notifyButton)
      && FirstValue(p, "SB") == CheckboxText(y.notifyAlexa)
      && FirstValue(p, "SH") == CheckboxText(y.notifyHue)
      && FirstValue(p, "SM") == CheckboxText(y.notifyMacro)
      && FirstValue(p, "UR") == y.udpRetransmit
  {
    SyncFlagFields(y);
    SyncTextFields(y);
    CheckboxResent(doc, 6, "RB", "sync", "receiveBrightness", y.receiveBrightness);
    CheckboxResent(doc, 7, "RC", "sync", "receiveColor", y.receiveColor);
    CheckboxResent(doc, 8, "RX", "sync", "receiveEffects", y.receiveEffects);
    CheckboxResent(doc, 9, "SO", "sync", "receiveSegmentOptions", y.receiveSegmentOptions);
    CheckboxResent(doc, 10, "SG", "sync", "notifyDirect", y.notifyDirect);
    CheckboxResent(doc, 11, "SD", "sync", "notifyButton", y.notifyButton);
    CheckboxResent(doc, 12, "SB", "sync", "notifyAlexa", y.notifyAlexa);
    CheckboxResent(doc, 13, "SH", "sync", "notifyHue", y.notifyHue);
    CheckboxResent(doc, 14, "SM", "sync", "notifyMacro", y.notifyMacro);
    TextResent(doc, 15, "UR", "sync", "udpRetransmit", y.udpRetransmit);
  }

  lemma SyncRoundTrip(js: string)
    ensures FormPairs(Resaved(js)).Ok?
    ensures var p := FormPairs(Resaved(js)).value;
      && FirstValue(p, "RB") == CheckboxText(ExtractChecked(js, "RB"))
      && FirstValue(p, "RC") == CheckboxText(ExtractChecked(js, "RC"))
      && FirstValue(p, "RX") == CheckboxText(ExtractChecked(js, "RX"))
      && FirstValue(p, "SO") == CheckboxText(ExtractChecked(js, "SO"))
      && FirstValue(p, "SG") == CheckboxText(ExtractChecked(js, "SG"))
      && FirstValue(p, "SD") == CheckboxText(ExtractChecked(js, "SD"))
      && FirstValue(p, "SB") == CheckboxText(ExtractChecked(js, "SB"))
      && FirstValue(p, "SH") == CheckboxText(ExtractChecked(js, "SH"))
      && FirstValue(p, "SM") == CheckboxText(ExtractChecked(js, "SM"))
      && FirstValue(p, "UR") == ExtractValue(js, "UR")
  {
    var s := ParseSyncSettings(js);
    assert s.sync == ParseSync(js);
    DecodedDocumentEncodes(s);
    SyncResent(ToJson(s), s.sync);
  }

  /** The `instance` object holds each decoded checkbox field the encoder reads, under the name it reads it by. */
  lemma InstanceFlagFields(n: Instance)
    ensures var j := InstanceJson(n);
      && Get(j, "enableList") == BoolJson(n.enableList)
      && Get(j, "discoverable") == BoolJson(n.discoverable)
  {
  }

  /** Re-encoding a document whose `instance` object is a decoded one. */
  lemma InstanceResent(doc: Document, n: Instance)
    requires Failure(doc).None? && SectionOf(doc, "instance") == InstanceJson(n)
    ensures FormPairs(doc).Ok?
    ensures var p := FormPairs(doc).value;
      && FirstValue(p, "NL") == CheckboxText(n.enableList)
      && FirstValue(p, "NB") == CheckboxText(n.discoverable)
  {
    InstanceFlagFields(n);
    CheckboxResent(doc, 16, "NL", "instance", "enableList", n.enableList);
    CheckboxResent(doc, 17, "NB", "instance", "discoverable", n.discoverable);
  }

  lemma InstanceRoundTrip(js: string)
    ensures FormPairs(Resaved(js)).Ok?
    ensures var p := FormPairs(Resaved(js)).value;
      && FirstValue(p, "NL") == CheckboxText(ExtractChecked(js, "NL"))
      && FirstValue(p, "NB") == CheckboxText(ExtractChecked(js, "NB"))
  {
    var s := ParseSyncSettings(js);
    assert s.instance == ParseInstance(js);
    DecodedDocumentEncodes(s);
    InstanceResent(ToJson(s), s.instance);
  }

  /** The `realtime` object holds each decoded checkbox field the encoder reads, under the name it reads it by. */
  lemma RealtimeFlagFields(r: Realtime)
    ensures var j := RealtimeJson(r);
      && Get(j, "receiveUDP") == BoolJson(r.receiveUDP)
      && Get(j, "useMainSegment") == BoolJson(r.useMainSegment)
      && Get(j, "e131SkipOutOfSequence") == BoolJson(r.e131SkipOutOfSequence)
      && Get(j, "e131Multicast") == BoolJson(r.e131Multicast)
      && Get(j, "forceBrightness") == BoolJson(r.forceBrightness)
      && Get(j, "disableGammaCorrection") == BoolJson(r.disableGammaCorrection)
  {
  }

  /** The `realtime` object holds each decoded text field the encoder reads, under the name it reads it by. */
  lemma RealtimeTextFields(r: Realtime)
    ensures var j := RealtimeJson(r);
      && Get(j, "dmxSegmentSpacing") == TextJson(r.dmxSegmentSpacing)
      && Get(j, "dmxMode") == TextJson(r.dmxMode)
      && Get(j, "dmxTimeout") == TextJson(r.dmxTimeout)
      && Get(j, "ledOffset") == TextJson(r.ledOffset)
  {
  }

  /** The `realtime` object has no field named `e131Port`, `e131Universe`, `dmxAddress`. */
  lemma RealtimeLacks(r: Realtime)
    ensures var j := RealtimeJson(r);
      && Get(j, "e131Port") == Undefined
      && Get(j, "e131Universe") == Undefined
      && Get(j, "dmxAddress") == Undefined
  {
  }

  /** Re-encoding a document whose `realtime` object is a decoded one. */
  lemma RealtimeResent(doc: Document, r: Realtime)
    requires Failure(doc).None? && SectionOf(doc, "realtime") == RealtimeJson(r)
    ensures FormPairs(doc).Ok?
    ensures var p := FormPairs(doc).value;
      && FirstValue(p, "RD") == CheckboxText(r.receiveUDP)
      && FirstValue(p, "MO") == CheckboxText(r.useMainSegment)
      && FirstValue(p, "DI") == None
      && FirstValue(p, "EP") == None
      && FirstValue(p, "EM") == CheckboxText(r.e131SkipOutOfSequence)
      && FirstValue(p, "EU") == None
      && FirstValue(p, "ES") == CheckboxText(r.e131Multicast)
      && FirstValue(p, "DA") == None
      && FirstValue(p, "XX") == r.dmxSegmentSpacing
      && FirstValue(p, "DM") == r.dmxMode
      && FirstValue(p, "ET") == r.dmxTimeout
      && FirstValue(p, "FB") == CheckboxText(r.forceBrightness)
      && FirstValue(p, "RG") == CheckboxText(r.disableGammaCorrection)
      && FirstValue(p, "WO") == r.ledOffset
  {
    RealtimeFlagFields(r);
    RealtimeTextFields(r);
    RealtimeLacks(r);
    CheckboxResent(doc, 18, "RD", "realtime", "receiveUDP", r.receiveUDP);
    CheckboxResent(doc, 19, "MO", "realtime", "useMainSegment", r.useMainSegment);
    LostResent(doc, 20, "DI", "realtime", "e131Port");
    LostResent(doc, 21, "EP", "realtime", "e131Port");
    CheckboxResent(doc, 22, "EM", "realtime", "e131SkipOutOfSequence", r.e131SkipOutOfSequence);
    LostResent(doc, 23, "EU", "realtime", "e131Universe");
    CheckboxResent(doc, 24, "ES", "realtime", "e131Multicast", r.e131Multicast);
    LostResent(doc, 25, "DA", "realtime", "dmxAddress");
    TextResent(doc, 26, "XX", "realtime", "dmxSegmentSpacing", r.dmxSegmentSpacing);
    TextResent(doc, 28, "DM", "realtime", "dmxMode", r.dmxMode);
    TextResent(doc, 29, "ET", "realtime", "dmxTimeout", r.dmxTimeout);
    CheckboxResent(doc, 30, "FB", "realtime", "forceBrightness", r.forceBrightness);
    CheckboxResent(doc, 31, "RG", "realtime", "disableGammaCorrection", r.disableGammaCorrection);
    TextResent(doc, 32, "WO", "realtime", "ledOffset", r.ledOffset);
  }

  lemma RealtimeRoundTrip(js: string)
    ensures FormPairs(Resaved(js)).Ok?
    ensures var p := FormPairs(Resaved(js)).value;
      && FirstValue(p, "RD") == CheckboxText(ExtractChecked(js, "RD"))
      && FirstValue(p, "MO") == CheckboxText(ExtractChecked(js, "MO"))
      && FirstValue(p, "DI") == None
      && FirstValue(p, "EP") == None
      && FirstValue(p, "EM") == CheckboxText(ExtractChecked(js, "EM"))
      && FirstValue(p, "EU") == None
      && FirstValue(p, "ES") == CheckboxText(ExtractChecked(js, "ES"))
      && FirstValue(p, "DA") == None
      && FirstValue(p, "XX") == ExtractValue(js, "XX")
      && FirstValue(p, "DM") == ExtractValue(js, "DM")
      && FirstValue(p, "ET") == ExtractValue(js, "ET")
      && FirstValue(p, "FB") == CheckboxText(ExtractChecked(js, "FB"))
      && FirstValue(p, "RG") == CheckboxText(ExtractChecked(js, "RG"))
      && FirstValue(p, "WO") == ExtractValue(js, "WO")
  {
    var s := ParseSyncSettings(js);
    assert s.realtime == ParseRealtime(js);
    DecodedDocumentEncodes(s);
    RealtimeResent(ToJson(s), s.realtime);
  }

  /** The `mqtt` object holds each decoded checkbox field the encoder reads, under the name it reads it by. */
  lemma MqttFlagFields(m: Mqtt)
    ensures var j := MqttJson(m);
      && Get(j, "enabled") == BoolJson(m.enabled)
      && Get(j, "buttonPublish") == BoolJson(m.buttonPublish)
  {
  }

  /** The `mqtt` object holds each decoded text field the encoder reads, under the name it reads it by. */
  lemma MqttTextFields(m: Mqtt)
    ensures var j := MqttJson(m);
      && Get(j, "broker") == TextJson(m.broker)
      && Get(j, "port") == TextJson(m.port)
      && Get(j, "username") == TextJson(m.username)
      && Get(j, "password") == TextJson(m.password)
      && Get(j, "clientId") == TextJson(m.clientId)
      && Get(j, "deviceTopic") == TextJson(m.deviceTopic)
      && Get(j, "groupTopic") == TextJson(m.groupTopic)
  {
  }

  /** Re-encoding a document whose `mqtt` object is a decoded one. */
  lemma MqttResent(doc: Document, m: Mqtt)
    requires Failure(doc).None? && SectionOf(doc, "mqtt") == MqttJson(m)
    ensures FormPairs(doc).Ok?
    ensures var p := FormPairs(doc).value;
      && FirstValue(p, "MQ") == CheckboxText(m.enabled)
      && FirstValue(p, "MS") == m.broker
      && FirstValue(p, "MQPORT") == m.port
      && FirstValue(p, "MQUSER") == m.username
      && FirstValue(p, "MQPASS") == m.password
      && FirstValue(p, "MQCID") == m.clientId
      && FirstValue(p, "MD") == m.deviceTopic
      && FirstValue(p, "MG") == m.groupTopic
      && FirstValue(p, "BM") == CheckboxText(m.buttonPublish)
  {
    MqttFlagFields(m);
    MqttTextFields(m);
    CheckboxResent(doc, 35, "MQ", "mqtt", "enabled", m.enabled);
    TextResent(doc, 36, "MS", "mqtt", "broker", m.broker);
    TextResent(doc, 37, "MQPORT", "mqtt", "port", m.port);
    TextResent(doc, 38, "MQUSER", "mqtt", "username", m.username);
    TextResent(doc, 39, "MQPASS", "mqtt", "password", m.password);
    TextResent(doc, 40, "MQCID", "mqtt", "clientId", m.clientId);
    TextResent(doc, 41, "MD", "mqtt", "deviceTopic", m.deviceTopic);
    TextResent(doc, 42, "MG", "mqtt", "groupTopic", m.groupTopic);
    CheckboxResent(doc, 43, "BM", "mqtt", "buttonPublish", m.buttonPublish);
  }

  lemma MqttRoundTrip(js: string)
    ensures FormPairs(Resaved(js)).Ok?
    ensures var p := FormPairs(Resaved(js)).value;
      && FirstValue(p, "MQ") == CheckboxText(ExtractChecked(js, "MQ"))
      && FirstValue(p, "MS") == ExtractValue(js, "MS")
      && FirstValue(p, "MQPORT") == ExtractValue(js, "MQPORT")
      && FirstValue(p, "MQUSER") == ExtractValue(js, "MQUSER")
      && FirstValue(p, "MQPASS") == ExtractValue(js, "MQPASS")
      && FirstValue(p, "MQCID") == ExtractValue(js, "MQCID")
      && FirstValue(p, "MD") == ExtractValue(js, "MD")
      && FirstValue(p, "MG") == ExtractValue(js, "MG")
      && FirstValue(p, "BM") == CheckboxText(ExtractChecked(js, "BM"))
  {
    var s := ParseSyncSettings(js);
    assert s.mqtt == ParseMqtt(js);
    DecodedDocumentEncodes(s);
    MqttResent(ToJson(s), s.mqtt);
  }

  /** The `hue` object holds each decoded checkbox field the encoder reads, under the name it reads it by. */
  lemma HueFlagFields(h: Hue)
    ensures var j := HueJson(h);
      && Get(j, "pollEnabled") == BoolJson(h.pollEnabled)
      && Get(j, "onOff") == BoolJson(h.onOff)
      && Get(j, "brightness") == BoolJson(h.brightness)
      && Get(j, "color") == BoolJson(h.color)
  {
  }

  /** The `hue` object holds each decoded text field the encoder reads, under the name it reads it by. */
  lemma HueTextFields(h: Hue)
    ensures var j := HueJson(h);
      && Get(j, "pollInterval") == TextJson(h.pollInterval)
  {
  }

  /** Re-encoding a document whose `hue` object is a decoded one. */
  lemma HueResent(doc: Document, h: Hue)
    requires Failure(doc).None? && SectionOf(doc, "hue") == HueJson(h)
    ensures FormPairs(doc).Ok?
    ensures var p := FormPairs(doc).value;
      && FirstValue(p, "HI") == h.pollInterval
      && FirstValue(p, "HP") == CheckboxText(h.pollEnabled)
      && FirstValue(p, "HO") == CheckboxText(h.onOff)
      && FirstValue(p, "HB") == CheckboxText(h.brightness)
      && FirstValue(p, "HC") == CheckboxText(h.color)
  {
    HueFlagFields(h);
    HueTextFields(h);
    TextResent(doc, 45, "HI", "hue", "pollInterval", h.pollInterval);
    CheckboxResent(doc, 46, "HP", "hue", "pollEnabled", h.pollEnabled);
    CheckboxResent(doc, 47, "HO", "hue", "onOff", h.onOff);
    CheckboxResent(doc, 48, "HB", "hue", "brightness", h.brightness);
    CheckboxResent(doc, 49, "HC", "hue", "color", h.color);
  }

  lemma HueRoundTrip(js: string)
    ensures FormPairs(Resaved(js)).Ok?
    ensures var p := FormPairs(Resaved(js)).value;
      && FirstValue(p, "HI") == ExtractValue(js, "HI")
      && FirstValue(p, "HP") == CheckboxText(ExtractChecked(js, "HP"))
      && FirstValue(p, "HO") == CheckboxText(ExtractChecked(js, "HO"))
      && FirstValue(p, "HB") == CheckboxText(ExtractChecked(js, "HB"))
      && FirstValue(p, "HC") == CheckboxText(ExtractChecked(js, "HC"))
  {
    var s := ParseSyncSettings(js);
    assert s.hue == ParseHue(js);
    DecodedDocumentEncodes(s);
    HueResent(ToJson(s), s.hue);
  }

  /** H0..H3 carry the four parts of a decoded ip that splits into four. */
  lemma HueOctetsResent(doc: Document, h: Hue, octets: seq<string>, i: nat)
    requires Failure(doc).None? && SectionOf(doc, "hue") == HueJson(h)
    requires h.ip != "" && Split(h.ip, '.') == octets && |octets| == 4 && i < 4
    ensures FormPairs(doc).Ok?
    ensures FirstValue(FormPairs(doc).value, ["H0", "H1", "H2", "H3"][i]) == Some(octets[i])
  {
    assert Get(HueJson(h), "ip") == Str(h.ip);
    HueOctetsSent(doc, i);
  }

  /** The text of octet `i` in the decoded ip is the lookup of H`i`, or `null`. */
  lemma OctetText(js: string, i: nat)
    requires i < 4
    ensures HueOctetTexts(js)[i] == NullText(ExtractValue(js, ["H0", "H1", "H2", "H3"][i]))
  {
    if i == 0 {
    } else if i == 1 {
    } else if i == 2 {
    } else {
    }
  }

  /**
   * `hue.ip` comes back as H0..H3: when no octet lookup contains a `.`, each key carries its own
   * lookup's text, the word `null` for a missing one.
   */
  lemma HueOctetsRoundTrip(js: string, i: nat)
    requires i < 4
    requires forall o, k :: 0 <= o < 4 && 0 <= k < |HueOctetTexts(js)[o]| ==> HueOctetTexts(js)[o][k] != '.'
    ensures FormPairs(Resaved(js)).Ok?
    ensures var key := ["H0", "H1", "H2", "H3"][i];
      FirstValue(FormPairs(Resaved(js)).value, key) == Some(NullText(ExtractValue(js, key)))
  {
    var s := ParseSyncSettings(js);
    HueIpSplitsIntoOctets(js);
    assert s.hue.ip == HueIp(js) && |s.hue.ip| >= 3;
    DecodedDocumentEncodes(s);
    HueOctetsResent(ToJson(s), s.hue, HueOctetTexts(js), i);
    OctetText(js, i);
  }

  /** A script with no assignment is saved with a null ip, which is sent back as four `null` octets. */
  lemma NullIpResent(js: string)
    requires !Includes(js, MARKER)
    ensures FormPairs(Resaved(js)).Ok?
    ensures var p := FormPairs(Resaved(js)).value;
      && FirstValue(p, "H0") == Some("null") && FirstValue(p, "H1") == Some("null")
      && FirstValue(p, "H2") == Some("null") && FirstValue(p, "H3") == Some("null")
  {
    NoMarkerNoMatch(js, "H0");
    NoMarkerNoMatch(js, "H1");
    NoMarkerNoMatch(js, "H2");
    NoMarkerNoMatch(js, "H3");
    HueOctetsRoundTrip(js, 0);
    HueOctetsRoundTrip(js, 1);
    HueOctetsRoundTrip(js, 2);
    HueOctetsRoundTrip(js, 3);
  }
}
