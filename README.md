# WLED sync-settings codec

A Dafny model of the settings codec in `index.js` of a small WLED device manager. The codec serves the
device's "Sync Interfaces" settings page and has three parts:

- **Decoder** (`parseWLEDSyncSettings`). It scrapes the script the device serves for the page. Each field is
  one of two regular-expression lookups on the `d.Sf.<KEY>.` assignments: `extractValue` (a digit run or
  a quoted string after `.value=`) and `extractChecked` (one digit after `.checked=`).
  - The result is a nested document with the sections `udp`, `sync`, `instance`, `realtime`, `mqtt`,
    `hue` and `additional`.
  - `hue.ip` is built from four lookups joined with `.`; a missing octet becomes the text `null`.
- **Encoder** (`convertSettingsToFormData`). It takes a preset: any JSON settings document read from the
  `presets/` directory. It walks a fixed list of 55 wire keys.
  - Each key's value is appended to a `URLSearchParams` unless it is null or undefined. `true` is sent
    as `on`, `false` as `off`.
  - `hue.ip` is split on `.` into H0..H3.
  - The body is serialized as `application/x-www-form-urlencoded`, following the WHATWG URL Standard,
    section 5.2.
- **Apply-preset endpoint.** It encodes a preset and posts it to the device. It then classifies the
  outcome, taking the client error `Invalid character in chunk size` as success.

The program saves decoded documents under `sync-settings/` and never reads them back itself. The `RoundTrip`
module covers the case where such a saved document is copied into `presets/` by hand and applied.

## Modules

| file | module | contents |
|---|---|---|
| `wrappers.dfy` | `Wrappers` | `Option` and `Result` |
| `text.dfy` | `Text` | `includes`, `split` and the search it uses, `join` |
| `scan.dfy` | `Scan` | the two lookups as leftmost-match recognisers |
| `json.dfy` | `Json` | the JSON values a preset holds |
| `decoder.dfy` | `Decoder` | the decoded document as datatypes; its JSON form |
| `form.dfy` | `FormUrlEncoded` | the form serializer and parser, proved inverse |
| `encoder.dfy` | `Encoder` | the wire-key table; `appendIfExists` and the encoder as methods on a `FormParams` object; their specification |
| `encoder_properties.dfy` | `EncoderProperties` | what the encoded form carries, key by key |
| `roundtrip.dfy` | `RoundTrip` | encoding a decoded document |
| `apply.dfy` | `Apply` | the apply-preset endpoint |

### Notes on the model

- **Encoder structure.** The encoder is a method that appends to a `FormParams` object, one
  `appendIfExists` call per key in source order. Its calls are grouped into one helper method per
  settings section, and each helper is proved to extend the pairs to the specification `EmittedUpTo`.
- **Errors.** A missing section makes the source throw a `TypeError`. The model returns it as an error
  value carrying V8's message text.
- **Field-name mismatch.** The encoder reads `udp.primaryPort`, `realtime.e131Port`,
  `realtime.e131Universe` and `realtime.dmxAddress`. The decoder never writes these fields. So a decoded
  document re-sends neither UP, DI, EP, EU nor DA (`RoundTrip.UdpRoundTrip`,
  `RoundTrip.RealtimeRoundTrip`).
- **Constant keys.** Seven keys are always sent as constants, whatever the document holds: G1 `on`,
  R1 `on`, PY `0`, AI empty, AP `0`, HL `2` and BD `10000` (`EncoderProperties.ConstantsAlwaysSent`). The
  decoder scrapes all seven, so a round trip replaces their scraped values with the constants; for example, `d.Sf.PY.value=5` decodes to `"5"` and is re-sent as `PY=0`.
- **Missing comma.** At `index.js:159` the `additional` object literal lacks the comma after
  `bd: extractValue('BD')`, so the file as written does not parse. The model follows the evident intent
  and decodes both `bd` and `ep` (`Decoder.ParseAdditional`).

## Model

| member | source | states |
|---|---|---|
| Text.DigitRun | index.js:58 | `\d+` is greedy: the run it measures is all digits and is followed by a non-digit or the end |
| Text.Includes | index.js:336 | `s.includes(p)` is true exactly when `p` occurs at some index of `s` |
| Text.Split | index.js:284 | `split('.')` gives at least one part; with `Text.JoinSplit` (joining the parts gives back the text) and `Text.SplitJoin` (parts free of the separator come back from their join) this fixes the parts |
| Text.SplitJoin | index.js:284 | splitting on `.` the join of parts that contain no `.` gives back the parts |
| Text.JoinSplit | index.js:284 | joining the parts of a split with the separator gives back the text |
| Scan.ExtractValue | index.js:57-60 | null exactly when no `d.Sf.KEY.value=` is followed by a digit run or a quoted string; otherwise the group at the leftmost such position, quotes removed |
| Scan.ExtractChecked | index.js:62-65 | null exactly when no `d.Sf.KEY.checked=` is followed by a digit; otherwise true exactly when the digit at the leftmost such position is `1`, so false and absent differ |
| Scan.NoMarkerNoMatch | index.js:57-65 | text without `d.Sf.` makes both lookups null for every key |
| Decoder.NoAssignmentsUdp | index.js:68-89 | without assignments every `udp` field is null |
| Decoder.NoAssignmentsSync | index.js:92-103 | without assignments every `sync` field is null |
| Decoder.NoAssignmentsInstance | index.js:106-109 | without assignments every `instance` field is null |
| Decoder.NoAssignmentsRealtime | index.js:112-126 | without assignments every `realtime` field is null |
| Decoder.NoAssignmentsMqtt | index.js:129-139 | without assignments every `mqtt` field is null |
| Decoder.NoAssignmentsHue | index.js:142-150 | without assignments every `hue` field is null except `ip`, which is `null.null.null.null` |
| Decoder.NoAssignmentsAdditional | index.js:153-161 | without assignments every `additional` field is null |
| Decoder.ParseSyncSettings | index.js:53-164 | the decoder builds each field from its own lookup; its behaviour is stated by `Decoder.NoAssignmentsDecodeToNulls`, `Decoder.HueIpJoinsOctets` and the `RoundTrip` lemmas, which give the decoded value of every field-backed key the encoder re-sends in terms of that key's lookup; every other field is one lookup, given by the definition |
| Decoder.ToJson | index.js:184 | the decoded object as the JSON document it is saved as under `sync-settings/`, which is also what the encoder sees if that file is copied into `presets/` and applied (index.js:316-317); `RoundTrip.DecodedDocumentEncodes` states that it has every section the encoder reads, each holding the decoded fields |
| Decoder.NoAssignmentsDecodeToNulls | index.js:53-164 | text without `d.Sf.` decodes to the all-null document, whose `hue.ip` is the non-null string `null.null.null.null` |
| Decoder.HueIpJoinsOctets | index.js:149 | `hue.ip` is the four octet lookups H0..H3, each missing one written `null`, joined with `.` |
| Decoder.HueIpSplitsIntoOctets | index.js:149 | when no octet lookup contains `.`, splitting `hue.ip` on `.` gives back the four octet texts |
| FormUrlEncoded.Utf8 | index.js:294 | a character's UTF-8 encoding is one to four bytes, and an ASCII character is its own code |
| FormUrlEncoded.EncodeComponent | index.js:294 | an encoded name or value is ASCII and holds no `=` or `&` |
| FormUrlEncoded.DecodeComponentOfEncoded | index.js:294 | decoding an encoded name or value gives its UTF-8 bytes |
| FormUrlEncoded.Serialize | index.js:294 | `toString()` joins `name=value` segments with `&`; `FormUrlEncoded.ParseSerialize` states that the body is ASCII and parses back into the pairs |
| FormUrlEncoded.Parse | index.js:294 | the receiving side of the body (the device's form parser), the partner `FormUrlEncoded.ParseSerialize` relates `Serialize` to |
| FormUrlEncoded.ParseSerialize | index.js:294 | the serialized body is ASCII, and parsing it gives back every pair, in order, as UTF-8 |
| Encoder.PositionOfKey | index.js:221-292 | each wire key is appended by exactly one call |
| Encoder.Failure | index.js:221-284 | the `TypeError` the encoder throws, if any: the first missing section it reads, or an ip of `true`; `EncoderProperties.FailsExactly` states when it is some |
| Encoder.FormParams.constructor | index.js:211 | a new `URLSearchParams` holds no pairs |
| Encoder.FormParams.Append | index.js:216 | `append` adds the pair at the end and changes nothing else |
| Encoder.FormParams.ToString | index.js:294 | `toString()` is ASCII text that parses back into the pairs, in order |
| Encoder.AppendIfExists | index.js:214-218 | the pairs grow by the key and its form value, or not at all for null or undefined |
| Encoder.AppendUdp | index.js:221-226 | the UDP calls extend the pairs to those of the first six keys |
| Encoder.AppendSync | index.js:229-238 | the sync calls extend the pairs through UR |
| Encoder.AppendInstance | index.js:241-242 | the instance calls extend the pairs through NB |
| Encoder.AppendRealtime | index.js:245-259 | the realtime calls extend the pairs through WO |
| Encoder.AppendConstants | index.js:262-263 | AI and AP extend the pairs through AP |
| Encoder.AppendMqtt | index.js:266-274 | the MQTT calls extend the pairs through BM |
| Encoder.AppendHue | index.js:278-282 | the Hue calls extend the pairs through HC |
| Encoder.AppendHueIp | index.js:283-289 | the block is splittable exactly when `hue.ip` is not `true`, and then it extends the pairs to those of the first 54 calls (H0..H3 of a truthy ip, nothing for a falsy one) |
| Encoder.ConvertSettingsToFormData | index.js:210-295 | the encoder returns the serialized pairs of all 55 calls, or the `TypeError` of the first missing section or of an ip of `true` |
| EncoderProperties.LookupEmitted | index.js:221-292 | after the first `n` calls, the form value of key `i` is there exactly when `i < n` |
| EncoderProperties.KeysDistinct | index.js:221-292 | two calls append the same key exactly when they are the same call |
| EncoderProperties.KeyLookup | index.js:214-218 | `get` on the form finds each key's form value |
| EncoderProperties.FieldKeySent | index.js:214-218 | a field-backed key is present exactly when its field is neither null nor undefined; `on`/`off` for booleans, strings verbatim |
| EncoderProperties.ConstantsAlwaysSent | index.js:225-292 | G1 `on`, R1 `on`, PY `0`, AI empty, AP `0`, HL `2` and BD `10000`, whatever the document holds |
| EncoderProperties.PortKeysAgree | index.js:247-248 | DI and EP are both absent or both present and equal to `realtime.e131Port` |
| EncoderProperties.HueOctetsSent | index.js:283-289 | H0..H3 are the first four parts of a non-empty string ip split on `.`; a missing part is not sent, and a falsy ip sends none |
| EncoderProperties.EmittedInWireOrder | index.js:221-292 | the pairs of the first `n` calls have distinct keys, in call order, all among the first `n` keys |
| EncoderProperties.FormInWireOrder | index.js:221-292 | the form's keys appear in call order, none twice, each one of the 55 |
| EncoderProperties.UnlistedKeyNeverSent | index.js:221-292 | a key no call appends (H4, G2, ...) is never in the form |
| EncoderProperties.FailsExactly | index.js:221-284 | encoding fails exactly when one of the six sections read is missing or `hue.ip` is `true` |
| EncoderProperties.BodyParsesBack | index.js:294 | a body the encoder returns parses back into its pairs |
| RoundTrip.DecodedDocumentEncodes | index.js:53-164 | a decoded document has every section the encoder reads and a string ip, so it never fails to encode |
| RoundTrip.CheckboxResent | index.js:214-218 | a checkbox key carries its decoded state as `on`/`off`, or is absent when the lookup was null |
| RoundTrip.TextResent | index.js:214-218 | a value key carries its decoded text, or is absent when the lookup was null |
| RoundTrip.LostResent | index.js:214-218 | a key whose field the section lacks is not sent |
| RoundTrip.UdpResent | index.js:221-224 | UP is lost; U2, GS and GR carry the decoded `udp` fields |
| RoundTrip.UdpRoundTrip | index.js:221-224 | re-encoding decoded text: U2, GS and GR carry their own lookups; UP, read as `primaryPort`, is never sent |
| RoundTrip.SyncResent | index.js:229-238 | the sync keys carry the decoded `sync` fields |
| RoundTrip.SyncRoundTrip | index.js:229-238 | re-encoding decoded text: RB..SM carry their checkbox lookups as `on`/`off`, UR its value lookup |
| RoundTrip.InstanceResent | index.js:241-242 | NL and NB carry the decoded `instance` fields |
| RoundTrip.InstanceRoundTrip | index.js:241-242 | re-encoding decoded text: NL and NB carry their checkbox lookups |
| RoundTrip.RealtimeResent | index.js:245-259 | the realtime keys carry the decoded `realtime` fields, except DI, EP, EU and DA, which are lost |
| RoundTrip.RealtimeRoundTrip | index.js:245-259 | re-encoding decoded text: RD, MO, EM, ES, FB, RG, XX, DM, ET and WO carry their own lookups; DI, EP, EU and DA are never sent |
| RoundTrip.MqttResent | index.js:266-274 | the MQTT keys carry the decoded `mqtt` fields |
| RoundTrip.MqttRoundTrip | index.js:266-274 | re-encoding decoded text: MQ..BM carry their own lookups |
| RoundTrip.HueResent | index.js:278-282 | HI, HP, HO, HB and HC carry the decoded `hue` fields |
| RoundTrip.HueRoundTrip | index.js:278-282 | re-encoding decoded text: HI, HP, HO, HB and HC carry their own lookups |
| RoundTrip.HueOctetsResent | index.js:283-289 | H0..H3 carry the four parts of a decoded ip that splits into four |
| RoundTrip.HueOctetsRoundTrip | index.js:283-289 | re-encoding decoded text: when no octet lookup contains `.`, H0..H3 each carry their own lookup's text, `null` for a missing one |
| RoundTrip.NullIpResent | index.js:149 | text without assignments is re-sent with four `null` octets |
| Apply.ClassifyPostError | index.js:336-350 | the chunk-size error is success whether or not there is a response; otherwise a response gives `Failed to apply preset` with its status and data; otherwise (and only then) the error is rethrown |
| Apply.Post | index.js:323-331 | the client accepts exactly a 2xx answer and refuses any other with a status message and the response, or reports a broken exchange with no response; `Apply.StatusMessageIsNotChunkError`, `Apply.SucceedsExactly` and `Apply.FailureStatus` state what the endpoint makes of each |
| Apply.ApplyPreset | index.js:308-359 | one call of the endpoint; `Apply.RequestCarriesForm`, `Apply.SucceedsExactly`, `Apply.FailureStatus` and `Apply.ReplyStatusMatches` state its request and its reply for every preset and device answer |
| Apply.NoChunkError | index.js:336 | text without a capital `I` never holds the chunk-size error |
| Apply.StatusMessageIsNotChunkError | index.js:328-330 | the client's message for a refused status never holds the chunk-size error |
| Apply.RequestCarriesForm | index.js:317-325 | a request is sent exactly when the preset encodes, to `http://<ip>/settings/sync`, as a form, with the encoded body; otherwise the reply is 500 with the encoder's error message |
| Apply.RequestParsesBack | index.js:318-323 | the body the device receives parses back into the encoder's pairs |
| Apply.SucceedsExactly | index.js:322-357 | the reply is a success exactly when the preset encodes and the device answers 2xx or the exchange breaks off with the chunk-size error; a 2xx answer gives `Preset applied successfully` and the chunk-size error gives `Preset likely applied successfully (ignored parsing error)` |
| Apply.FailureStatus | index.js:336-357 | a failure reply is `Failed to apply preset` with a non-2xx status: 500, or a refused device status with the device's body; once the preset encodes, a refused answer gives exactly its status and body, and a broken exchange without the chunk-size error gives exactly 500 with its message |
| Apply.ReplyStatusMatches | index.js:328-357 | the reply's status is 2xx exactly when it reports success |

## Left out

- The Express routes, static files, `app.listen`, mDNS discovery and the `/json/info` probe: HTTP and network I/O.
- Reading the preset file and `JSON.parse`: `Apply.ApplyPreset` takes the parsed document.
- Console logging.
- The HTTP client: what the device does is a parameter, `DeviceAnswer`. The client's refusal message for a non-2xx status is written as `Request failed with status code N`. Redirects count as refused statuses, because the client follows none. Timeouts are not modelled.
- JSON numbers, arrays and objects as field values, and sections that are `null` or not objects: the model's documents hold only undefined, null, boolean and string field values, so truthiness and `appendIfExists` are modelled for those alone. A preset file may hold other values (a number such as `5568` would be sent as the text `5568`); what the encoder does with them is not part of this model.
- A device script that is not a string: `jsCode.match` (index.js:58) would throw on it, while `Decoder.ParseSyncSettings` takes text only.
- A device response body that is not a string, and an error whose `message` is not a string.
- The regular-expression engine: only the two fixed patterns are modelled, as hand-written recognisers.
- The last step of form parsing, decoding the name and value bytes as UTF-8: `FormUrlEncoded.Parse` gives byte sequences, compared with the UTF-8 encoding of the pairs.
- FormUrlEncoded.Utf8: its contract promises only one to four bytes per character and that an ASCII character is its own byte; that the bytes are the standard UTF-8 encoding of a non-ASCII character is fixed by its definition, not by a proved property such as injectivity.
- `Apply.ApplyPreset`: the endpoint's outer `try` is modelled as a function of the document and the device's answer, not as the asynchronous handler.
