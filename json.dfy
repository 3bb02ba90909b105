/**
 * A settings object as the encoder sees it after `JSON.parse` of a preset file: sections, each a
 * JavaScript object whose properties are `null`, booleans or strings. Reading a property that is not
 * there gives `undefined`.
 */
module Json {

  datatype JsValue = Undefined | Null | Bool(b: bool) | Str(s: string)

  /** One section object (`settings.udp`, `settings.hue`, ...). */
  type Section = map<string, JsValue>

  /** The whole settings object: section name to section object. */
  type Document = map<string, Section>

  /** `section.name`: the property's value, `undefined` when the property is absent. */
  function Get(section: Section, name: string): JsValue {
    if name in section then section[name] else Undefined
  }
}
