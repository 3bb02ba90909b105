/**
 * What the encoder promises about the form it builds, stated through `URLSearchParams.get`: which keys
 * are sent, with which values, in which order, and which ones are sent whatever the preset holds.
 */
module EncoderProperties {
  import opened Wrappers
  import opened Text
  import opened Json
  import opened FormUrlEncoded
  import opened Encoder

  /** `URLSearchParams.get(name)`: the value of the first pair named `name`, None (JavaScript `null`) if none. */
  function FirstValue(pairs: seq<(string, string)>, name: string): Option<string>
    decreases |pairs|
  {
    if pairs == [] then None
    else if pairs[0].0 == name then Some(pairs[0].1)
    else FirstValue(pairs[1..], name)
  }

  /** `get` finds nothing exactly when no pair has the name, and otherwise the value of the first that has. */
  lemma {:induction false} FirstValueFinds(pairs: seq<(string, string)>, name: string)
    ensures FirstValue(pairs, name).None? <==> forall j :: 0 <= j < |pairs| ==> pairs[j].0 != name
    ensures FirstValue(pairs, name).Some? ==> exists j :: (0 <= j < |pairs|
      && pairs[j] == (name, FirstValue(pairs, name).value) && forall l :: 0 <= l < j ==> pairs[l].0 != name)
    decreases |pairs|
  {
    if pairs != [] && pairs[0].0 != name {
      FirstValueFinds(pairs[1..], name);
      var r := FirstValue(pairs[1..], name);
      if r.Some? {
        var j :| 0 <= j < |pairs| - 1 && pairs[1..][j] == (name, r.value)
          && forall l :: 0 <= l < j ==> pairs[1..][l].0 != name;
        assert pairs[j + 1] == (name, r.value);
        assert forall l :: 0 < l < j + 1 ==> pairs[l].0 == pairs[1..][l - 1].0;
      }
    }
  }

  lemma {:induction false} FirstValueConcat(a: seq<(string, string)>, b: seq<(string, string)>, name: string)
    ensures FirstValue(a + b, name) == if FirstValue(a, name).Some? then FirstValue(a, name) else FirstValue(b, name)
    decreases |a|
  {
    if a == [] {
      assert a + b == b;
    } else {
      assert (a + b)[1..] == a[1..] + b;
      FirstValueConcat(a[1..], b, name);
    }
  }

  lemma FirstValueAppended(key: string, v: JsValue, name: string)
    ensures FirstValue(Appended(key, v), name) == if key == name then FormValue(v) else None
  {
  }

  /** The first `n` calls send the `i`th call's value under its key, if `i < n`; nothing else uses that key. */
  lemma {:induction false} LookupEmitted(n: nat, doc: Document, i: nat)
    requires n <= KEY_COUNT && i < KEY_COUNT
    ensures FirstValue(EmittedUpTo(n, doc), WireKey(i)) == if i < n then FormValue(ValueOf(i, doc)) else None
  {
    if n > 0 {
      var name, prefix := WireKey(i), EmittedUpTo(n - 1, doc);
      var last := Appended(WireKey(n - 1), ValueOf(n - 1, doc));
      LookupEmitted(n - 1, doc, i);
      FirstValueConcat(prefix, last, name);
      FirstValueAppended(WireKey(n - 1), ValueOf(n - 1, doc), name);
      KeysDistinct(i, n - 1);
    }
  }

  lemma KeysDistinct(a: nat, b: nat)
    requires a < KEY_COUNT && b < KEY_COUNT
    ensures WireKey(a) == WireKey(b) <==> a == b
  {
    PositionOfKey(a);
    PositionOfKey(b);
  }

  /** The form carries every key whose value is neither null nor undefined, with that value; `get` finds it. */
  lemma KeyLookup(doc: Document, i: nat)
    requires Failure(doc).None? && i < KEY_COUNT
    ensures FormPairs(doc).Ok?
    ensures FirstValue(FormPairs(doc).value, WireKey(i)) == FormValue(ValueOf(i, doc))
  {
    LookupEmitted(KEY_COUNT, doc, i);
  }

  /**
   * A field-backed key is present exactly when its field is neither null nor undefined; a boolean is sent
   * as `on` or `off`, a string as it is.
   */
  lemma FieldKeySent(doc: Document, i: nat)
    requires Failure(doc).None? && i < KEY_COUNT && WireSource(i).Field?
    ensures FormPairs(doc).Ok?
    ensures var v := Get(SectionOf(doc, WireSource(i).section), WireSource(i).name);
      var r := FirstValue(FormPairs(doc).value, WireKey(i));
      && (r.Some? <==> !v.Null? && !v.Undefined?)
      && (v.Bool? ==> r == Some(if v.b then "on" else "off"))
      && (v.Str? ==> r == Some(v.s))
  {
    KeyLookup(doc, i);
  }

  /** The seven constant keys are sent whatever the preset holds. */
  lemma ConstantsAlwaysSent(doc: Document)
    requires Failure(doc).None?
    ensures FormPairs(doc).Ok?
    ensures var p := FormPairs(doc).value;
      && FirstValue(p, "G1") == Some("on") && FirstValue(p, "R1") == Some("on")
      && FirstValue(p, "PY") == Some("0") && FirstValue(p, "AI") == Some("")
      && FirstValue(p, "AP") == Some("0") && FirstValue(p, "HL") == Some("2")
      && FirstValue(p, "BD") == Some("10000")
  {
    KeyLookup(doc, 4);
    KeyLookup(doc, 5);
    KeyLookup(doc, 27);
    KeyLookup(doc, 33);
    KeyLookup(doc, 34);
    KeyLookup(doc, 44);
    KeyLookup(doc, 54);
  }

  /** DI and EP both carry `realtime.e131Port`: both present or both absent, and equal. */
  lemma PortKeysAgree(doc: Document)
    requires Failure(doc).None?
    ensures FormPairs(doc).Ok?
    ensures var p := FormPairs(doc).value;
      && FirstValue(p, "DI") == FirstValue(p, "EP")
      && FirstValue(p, "DI") == FormValue(Get(doc["realtime"], "e131Port"))
  {
    KeyLookup(doc, 20);
    KeyLookup(doc, 21);
  }

  /**
   * H0..H3 are the first four parts of a truthy `hue.ip` split on `.`; a missing part is not sent, and
   * a falsy ip sends none of them.
   */
  lemma HueOctetsSent(doc: Document, i: nat)
    requires Failure(doc).None? && i < 4
    ensures FormPairs(doc).Ok?
    ensures var ip := Get(doc["hue"], "ip");
      var parts := if ip.Str? && ip.s != "" then Split(ip.s, '.') else [];
      FirstValue(FormPairs(doc).value, WireKey(50 + i)) == if i < |parts| then Some(parts[i]) else None
    ensures WireKey(50 + i) == ["H0", "H1", "H2", "H3"][i]
  {
    KeyLookup(doc, 50 + i);
  }

  /** Pairs come out in the order of the calls, each key at most once, every key one of the calls' keys. */
  lemma {:induction false} EmittedInWireOrder(n: nat, doc: Document)
    requires n <= KEY_COUNT
    ensures forall j :: 0 <= j < |EmittedUpTo(n, doc)| ==> 0 <= Position(EmittedUpTo(n, doc)[j].0) < n
    ensures forall a, b :: 0 <= a < b < |EmittedUpTo(n, doc)| ==>
      Position(EmittedUpTo(n, doc)[a].0) < Position(EmittedUpTo(n, doc)[b].0)
  {
    if n > 0 {
      EmittedInWireOrder(n - 1, doc);
      PositionOfKey(n - 1);
    }
  }

  /** The form's keys follow the order of the calls: a key never repeats and no other key appears. */
  lemma FormInWireOrder(doc: Document)
    requires Failure(doc).None?
    ensures FormPairs(doc).Ok?
    ensures var p := FormPairs(doc).value;
      && (forall j :: 0 <= j < |p| ==> Position(p[j].0) >= 0)
      && (forall a, b :: 0 <= a < b < |p| ==> Position(p[a].0) < Position(p[b].0))
  {
    EmittedInWireOrder(KEY_COUNT, doc);
  }

  /** A key no call appends (G2, R8, H4, ...) is never in the form. */
  lemma UnlistedKeyNeverSent(doc: Document, name: string)
    requires Failure(doc).None? && Position(name) == -1
    ensures FormPairs(doc).Ok? && FirstValue(FormPairs(doc).value, name).None?
  {
    FormInWireOrder(doc);
    FirstValueFinds(FormPairs(doc).value, name);
  }

  /** The encoder fails exactly when a section is missing or `hue.ip` is `true`. */
  lemma FailsExactly(doc: Document)
    ensures FormBody(doc).Err? <==>
      (exists s :: s in SECTIONS && s !in doc) || ("hue" in doc && Get(doc["hue"], "ip") == Bool(true))
  {
  }

  const SECTIONS: set<string> := {"udp", "sync", "instance", "realtime", "mqtt", "hue"}

  /** The body parses back into the pairs, in order, as UTF-8. */
  lemma BodyParsesBack(doc: Document)
    requires FormBody(doc).Ok?
    ensures FormPairs(doc).Ok? && IsAscii(FormBody(doc).value)
    ensures Parse(AsciiBytes(FormBody(doc).value)) == Utf8Pairs(FormPairs(doc).value)
  {
    ParseSerialize(FormPairs(doc).value);
  }
}
