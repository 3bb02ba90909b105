/**
 * The two lookups the settings decoder performs on the script text served at `/settings/s.js?p=4`:
 * `extractValue(KEY)`, the regular expression `d\.Sf\.KEY\.value=(\d+|"[^"]*")`, and
 * `extractChecked(KEY)`, the regular expression `d\.Sf\.KEY\.checked=(\d)`.
 * Each is written as a recogniser at one position plus a left-to-right search for the leftmost
 * position where the WHOLE pattern matches, which is what `String.prototype.match` returns.
 */
module Scan {
  import opened Wrappers
  import opened Text

  /** The literal text `d.Sf.` every assignment in the script starts with. */
  const MARKER: string := "d.Sf."

  function ValuePrefix(key: string): string { MARKER + key + ".value=" }

  function CheckedPrefix(key: string): string { MARKER + key + ".checked=" }

  /** `v` is what the group `(\d+)` captures at index `j`: a non-empty digit run that cannot be extended. */
  predicate DigitGroup(s: string, j: int, v: string) {
    |v| > 0 && StartsAt(s, j, v) && (forall k :: 0 <= k < |v| ==> IsDigit(v[k]))
      && (j + |v| == |s| || !IsDigit(s[j + |v|]))
  }

  /** `v` is what the group `("[^"]*")` captures at index `j`, once its quotes are removed. */
  predicate QuotedGroup(s: string, j: int, v: string) {
    StartsAt(s, j, "\"" + v + "\"") && forall k :: 0 <= k < |v| ==> v[k] != '"'
  }

  /** The value pattern with prefix `p` matches at index `i` and its group, unquoted, is `v`. */
  predicate ValueGroupAt(s: string, i: int, p: string, v: string) {
    StartsAt(s, i, p) && (DigitGroup(s, i + |p|, v) || QuotedGroup(s, i + |p|, v))
  }

  lemma QuotedGroupAt(s: string, j: int, e: int)
    requires 0 <= j < e < |s| && s[j] == '"' && s[e] == '"'
    requires forall k :: j < k < e ==> s[k] != '"'
    ensures QuotedGroup(s, j, s[j + 1..e])
  {
    var v := s[j + 1..e];
    assert s[j..j + |"\"" + v + "\""|] == "\"" + v + "\"";
  }

  /** What a group at index `j` says about the characters of `s` there. */
  lemma GroupShape(s: string, j: int, v: string)
    ensures DigitGroup(s, j, v) ==> 0 <= j < |s| && IsDigit(s[j])
    ensures QuotedGroup(s, j, v) ==> 0 <= j && j + 1 + |v| < |s| && s[j] == '"' && s[j + 1 + |v|] == '"'
    ensures QuotedGroup(s, j, v) ==> forall k :: j < k < j + 1 + |v| ==> s[k] != '"'
  {
    if DigitGroup(s, j, v) {
      assert s[j] == s[j..j + |v|][0];
    }
    if QuotedGroup(s, j, v) {
      var q := "\"" + v + "\"";
      assert s[j..j + |q|] == q;
      forall k | j < k < j + 1 + |v| ensures s[k] != '"' {
        assert s[k] == q[k - j] == v[k - j - 1];
      }
    }
  }

  /** The value pattern tried at index `i` alone: the digit alternative first, then the quoted one. */
  function ValueMatchAt(s: string, i: nat, p: string): (r: Option<string>)
    ensures r.Some? ==> ValueGroupAt(s, i, p, r.value)
    ensures r.None? ==> forall v :: !ValueGroupAt(s, i, p, v)
  {
    if !StartsAt(s, i, p) then None
    else
      var j := i + |p|;
      var n := DigitRun(s, j);
      if n > 0 then
        assert DigitGroup(s, j, s[j..j + n]);
        Some(s[j..j + n])
      else if j < |s| && s[j] == '"' then
        match Find(s, j + 1, '"')
        case Some(e) =>
          QuotedGroupAt(s, j, e);
          Some(s[j + 1..e])
        case None =>
          assert forall v :: !QuotedGroup(s, j, v) by {
            forall v ensures !QuotedGroup(s, j, v) {
              GroupShape(s, j, v);
            }
          }
          None
      else
        assert forall v :: !DigitGroup(s, j, v) && !QuotedGroup(s, j, v) by {
          forall v ensures !DigitGroup(s, j, v) && !QuotedGroup(s, j, v) {
            GroupShape(s, j, v);
          }
        }
        None
  }

  /** The checked pattern with prefix `p` tried at index `i` alone: the digit `(\d)` it captures. */
  function CheckedMatchAt(s: string, i: nat, p: string): (r: Option<char>)
    ensures r.Some? <==> StartsAt(s, i, p) && i + |p| < |s| && IsDigit(s[i + |p|])
    ensures r.Some? ==> r.value == s[i + |p|]
  {
    if StartsAt(s, i, p) && i + |p| < |s| && IsDigit(s[i + |p|]) then Some(s[i + |p|]) else None
  }

  /** The leftmost index at or after `from` where the value pattern matches, with its group. */
  function LeftmostValue(s: string, p: string, from: nat): (r: Option<(nat, string)>)
    ensures r.None? ==> forall i :: from <= i <= |s| ==> ValueMatchAt(s, i, p).None?
    ensures r.Some? ==> from <= r.value.0 <= |s| && ValueMatchAt(s, r.value.0, p) == Some(r.value.1)
    ensures r.Some? ==> forall i :: from <= i < r.value.0 ==> ValueMatchAt(s, i, p).None?
    decreases |s| + 1 - from
  {
    if from > |s| then None
    else
      match ValueMatchAt(s, from, p)
      case Some(v) => Some((from, v))
      case None => LeftmostValue(s, p, from + 1)
  }

  /** The leftmost index at or after `from` where the checked pattern matches, with its digit. */
  function LeftmostChecked(s: string, p: string, from: nat): (r: Option<(nat, char)>)
    ensures r.None? ==> forall i :: from <= i <= |s| ==> CheckedMatchAt(s, i, p).None?
    ensures r.Some? ==> from <= r.value.0 <= |s| && CheckedMatchAt(s, r.value.0, p) == Some(r.value.1)
    ensures r.Some? ==> forall i :: from <= i < r.value.0 ==> CheckedMatchAt(s, i, p).None?
    decreases |s| + 1 - from
  {
    if from > |s| then None
    else
      match CheckedMatchAt(s, from, p)
      case Some(d) => Some((from, d))
      case None => LeftmostChecked(s, p, from + 1)
  }

  /**
   * `extractValue(key)`: the maximal digit run, or the double-quoted text without its quotes, after the
   * leftmost `d.Sf.KEY.value=` at which one of the two follows; None (JavaScript `null`) when there is none.
   */
  function ExtractValue(s: string, key: string): (r: Option<string>)
    ensures r.None? <==> forall i, v :: 0 <= i <= |s| ==> !ValueGroupAt(s, i, ValuePrefix(key), v)
    ensures r.Some? ==> exists i :: (0 <= i <= |s| && ValueGroupAt(s, i, ValuePrefix(key), r.value)
      && forall k, v :: 0 <= k < i ==> !ValueGroupAt(s, k, ValuePrefix(key), v))
  {
    match LeftmostValue(s, ValuePrefix(key), 0)
    case Some((i, v)) =>
      assert forall k, w :: 0 <= k < i ==> !ValueGroupAt(s, k, ValuePrefix(key), w) by {
        forall k, w | 0 <= k < i ensures !ValueGroupAt(s, k, ValuePrefix(key), w) {
          assert ValueMatchAt(s, k, ValuePrefix(key)).None?;
        }
      }
      Some(v)
    case None =>
      assert forall i, v :: 0 <= i <= |s| ==> !ValueGroupAt(s, i, ValuePrefix(key), v) by {
        forall i, v | 0 <= i <= |s| ensures !ValueGroupAt(s, i, ValuePrefix(key), v) {
          assert ValueMatchAt(s, i, ValuePrefix(key)).None?;
        }
      }
      None
  }

  /**
   * `extractChecked(key)`: Some(true) when the digit after the leftmost `d.Sf.KEY.checked=` followed by a
   * digit is `1`, Some(false) for any other digit, None (JavaScript `null`) when no such text occurs.
   */
  function ExtractChecked(s: string, key: string): (r: Option<bool>)
    ensures r.None? <==> forall i :: 0 <= i <= |s| ==> CheckedMatchAt(s, i, CheckedPrefix(key)).None?
    ensures r.Some? ==> exists i :: (0 <= i <= |s| && StartsAt(s, i, CheckedPrefix(key))
      && i + |CheckedPrefix(key)| < |s| && IsDigit(s[i + |CheckedPrefix(key)|])
      && (r.value <==> s[i + |CheckedPrefix(key)|] == '1')
      && forall k :: 0 <= k < i ==> CheckedMatchAt(s, k, CheckedPrefix(key)).None?)
  {
    match LeftmostChecked(s, CheckedPrefix(key), 0)
    case Some((_, d)) => Some(d == '1')
    case None => None
  }

  /** Without any `d.Sf.` in the text, neither lookup finds anything, whatever the key. */
  lemma {:induction false} NoMarkerNoMatch(s: string, key: string)
    requires !Includes(s, MARKER)
    ensures ExtractValue(s, key).None? && ExtractChecked(s, key).None?
  {
    forall i ensures !StartsAt(s, i, ValuePrefix(key)) && !StartsAt(s, i, CheckedPrefix(key)) {
      PrefixStartsWithMarker(s, i, ValuePrefix(key), key + ".value=");
      PrefixStartsWithMarker(s, i, CheckedPrefix(key), key + ".checked=");
    }
  }

  lemma PrefixStartsWithMarker(s: string, i: int, p: string, rest: string)
    requires p == MARKER + rest
    ensures StartsAt(s, i, p) ==> StartsAt(s, i, MARKER)
  {
    if StartsAt(s, i, p) {
      assert s[i..i + |MARKER|] == s[i..i + |p|][..|MARKER|];
    }
  }
}
