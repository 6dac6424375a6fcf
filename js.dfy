/**
 * JavaScript values and the few string operations the handlers use.
 * Numbers are modelled as integers (no fractions, no infinities); NaN is its own value.
 * Lower-casing covers ASCII letters only.
 */
module Js {
  import opened Wrappers

  /** A value as a handler sees it after `JSON.parse` or in component state. */
  datatype JsValue =
    | Undefined
    | Null
    | Bool(b: bool)
    | Num(n: int)
    | NaN
    | Str(s: string)
    | Arr(items: seq<JsValue>)
    | Obj   // any other object (a Date, a nested record): always truthy

  /** A parsed JSON object: property name to value; an absent key reads as `undefined`. */
  type JsObject = map<string, JsValue>

  /** JavaScript truthiness: `!v` is `!Truthy(v)`. */
  predicate Truthy(v: JsValue) {
    match v
    case Undefined | Null | NaN => false
    case Bool(b) => b
    case Num(n) => n != 0
    case Str(s) => s != ""
    case Arr(_) => true
    case Obj => true
  }

  /** `v || fallback` */
  function Or(v: JsValue, fallback: JsValue): JsValue {
    if Truthy(v) then v else fallback
  }

  /** `v === undefined || v === null`, the test behind `??` */
  predicate IsNullish(v: JsValue) {
    v.Undefined? || v.Null?
  }

  /** `o[k]` */
  function Get(o: JsObject, k: string): JsValue {
    if k in o then o[k] else Undefined
  }

  /** An array of strings, as `JSON.stringify` sends a `string[]`. */
  function StrArray(xs: seq<string>): (r: JsValue)
    ensures r.Arr? && |r.items| == |xs|
    ensures forall i :: 0 <= i < |xs| ==> r.items[i] == Str(xs[i])
  {
    Arr(seq(|xs|, i requires 0 <= i < |xs| => Str(xs[i])))
  }

  /**
   * The first key of `keys`, in order, whose value in `o` is falsy: the loop
   * `for (const field of keys) if (!o[field]) ...` stops there.
   */
  function FirstFalsy(o: JsObject, keys: seq<string>): (r: Option<string>)
    ensures r.None? <==> forall i :: 0 <= i < |keys| ==> Truthy(Get(o, keys[i]))
    ensures r.Some? ==> exists i :: 0 <= i < |keys| && keys[i] == r.value && !Truthy(Get(o, keys[i]))
                                    && forall j :: 0 <= j < i ==> Truthy(Get(o, keys[j]))
  {
    if keys == [] then None
    else if !Truthy(Get(o, keys[0])) then Some(keys[0])
    else
      var rest := FirstFalsy(o, keys[1..]);
      if rest.Some? then
        ghost var i :| 0 <= i < |keys[1..]| && keys[1..][i] == rest.value && !Truthy(Get(o, keys[1..][i]))
                       && forall j :: 0 <= j < i ==> Truthy(Get(o, keys[1..][j]));
        assert keys[i + 1] == rest.value && forall j :: 0 <= j < i + 1 ==> Truthy(Get(o, keys[j])) by {
          forall j | 0 <= j < i + 1 ensures Truthy(Get(o, keys[j])) {
            if j > 0 { assert keys[j] == keys[1..][j - 1]; }
          }
        }
        rest
      else
        assert forall i :: 0 <= i < |keys| ==> Truthy(Get(o, keys[i])) by {
          forall i | 0 <= i < |keys| ensures Truthy(Get(o, keys[i])) {
            if i > 0 { assert keys[i] == keys[1..][i - 1]; }
          }
        }
        rest
  }

  // ---------------------------------------------------------------- strings

  /** The characters `String.prototype.trim` strips that the model knows of. */
  predicate IsWhitespace(c: char) {
    c == ' ' || c == '\t' || c == '\n' || c == '\r' || c == '\U{000B}' || c == '\U{000C}'
    || c == '\U{00A0}' || c == '\U{FEFF}' || c == '\U{2028}' || c == '\U{2029}'
  }

  function TrimStart(s: string): (r: string)
    ensures |r| <= |s| && r == s[|s| - |r|..]
    ensures forall i :: 0 <= i < |s| - |r| ==> IsWhitespace(s[i])
    ensures r == [] || !IsWhitespace(r[0])
  {
    if s == [] || !IsWhitespace(s[0]) then s else TrimStart(s[1..])
  }

  function TrimEnd(s: string): (r: string)
    ensures |r| <= |s| && r == s[..|r|]
    ensures forall i :: |r| <= i < |s| ==> IsWhitespace(s[i])
    ensures r == [] || !IsWhitespace(r[|r| - 1])
  {
    if s == [] || !IsWhitespace(s[|s| - 1]) then s else TrimEnd(s[..|s| - 1])
  }

  /** `s.trim()` */
  function Trim(s: string): string {
    TrimEnd(TrimStart(s))
  }

  /** `!s.trim()` holds exactly when every character of `s` is whitespace. */
  lemma TrimEmptyIffBlank(s: string)
    ensures Trim(s) == [] <==> forall i :: 0 <= i < |s| ==> IsWhitespace(s[i])
  {
    var t := TrimStart(s);
    if t != [] {
      assert t[0] == s[|s| - |t|];
    }
  }

  /** `s.startsWith(p)` */
  predicate StartsWith(s: string, p: string) {
    |p| <= |s| && s[..|p|] == p
  }

  /** `s.includes(sub)` */
  predicate Includes(s: string, sub: string)
    decreases |s|
  {
    StartsWith(s, sub) || (s != [] && Includes(s[1..], sub))
  }

  /** `sub` occurs in `s` starting at index `i`. */
  predicate OccursAt(s: string, sub: string, i: int) {
    0 <= i <= |s| - |sub| && s[i..i + |sub|] == sub
  }

  /** `s.includes(sub)` is true exactly when `sub` occurs in `s` at some position. */
  lemma {:induction false} IncludesIffOccurs(s: string, sub: string)
    ensures Includes(s, sub) <==> exists i :: OccursAt(s, sub, i)
    decreases |s|
  {
    if StartsWith(s, sub) {
      assert OccursAt(s, sub, 0);
    }
    if s != [] {
      IncludesIffOccurs(s[1..], sub);
      if exists i :: OccursAt(s[1..], sub, i) {
        var i :| OccursAt(s[1..], sub, i);
        assert s[i + 1..i + 1 + |sub|] == s[1..][i..i + |sub|];
        assert OccursAt(s, sub, i + 1);
      }
      if exists i :: OccursAt(s, sub, i) {
        var i :| OccursAt(s, sub, i);
        if i > 0 {
          assert s[1..][i - 1..i - 1 + |sub|] == s[i..i + |sub|];
          assert OccursAt(s[1..], sub, i - 1);
        } else {
          assert StartsWith(s, sub);
        }
      }
    } else {
      if exists i :: OccursAt(s, sub, i) {
        var i :| OccursAt(s, sub, i);
        assert StartsWith(s, sub);
      }
    }
  }

  predicate IsUpper(c: char) {
    'A' <= c <= 'Z'
  }

  function LowerChar(c: char): (r: char)
    ensures !IsUpper(r)
    ensures IsUpper(c) ==> r as int == c as int + 32
    ensures !IsUpper(c) ==> r == c
  {
    if IsUpper(c) then (c as int + 32) as char else c
  }

  /** `s.toLowerCase()`, for ASCII letters */
  function ToLower(s: string): (r: string)
    ensures |r| == |s|
    ensures forall i :: 0 <= i < |s| ==> r[i] == LowerChar(s[i])
  {
    seq(|s|, i requires 0 <= i < |s| => LowerChar(s[i]))
  }

  /** `xs.join(sep)` */
  function Join(xs: seq<string>, sep: string): string {
    if xs == [] then ""
    else if |xs| == 1 then xs[0]
    else xs[0] + sep + Join(xs[1..], sep)
  }

  function TotalLength(xs: seq<string>): nat {
    if xs == [] then 0 else |xs[0]| + TotalLength(xs[1..])
  }

  /** The joined string holds every part once and one separator between each neighbouring pair. */
  lemma {:induction false} JoinLength(xs: seq<string>, sep: string)
    ensures xs != [] ==> |Join(xs, sep)| == TotalLength(xs) + (|xs| - 1) * |sep|
    ensures xs == [] ==> Join(xs, sep) == ""
  {
    if |xs| > 1 {
      JoinLength(xs[1..], sep);
    }
  }

  /** Joining starts with the first part followed by the separator, when there is more than one. */
  lemma {:induction false} JoinStartsWithFirst(xs: seq<string>, sep: string)
    requires |xs| >= 2
    ensures StartsWith(Join(xs, sep), xs[0] + sep)
  {
    var j := Join(xs, sep);
    assert j == (xs[0] + sep) + Join(xs[1..], sep);
    assert j[..|xs[0] + sep|] == xs[0] + sep;
  }
}
