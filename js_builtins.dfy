/** The few JavaScript built-ins the dashboard's data rules rely on,
    written out with the semantics ECMAScript gives them:
    `Array.prototype.slice(0, end)`, `String.prototype.trim`,
    `String.prototype.toLowerCase` (on ASCII letters),
    `Array.prototype.join` and `filter(Boolean)` over strings. */
module JsBuiltins {
  import opened Wrappers

  /** The number of elements `slice(0, end)` keeps from a list of length `len`:
      a negative `end` counts back from the end, a large one is clamped. */
  function SliceLength(len: nat, end: int): (n: nat)
    ensures n <= len
    ensures 0 <= end ==> n == (if end < len then end else len)
    ensures end < 0 ==> n == (if len + end > 0 then len + end else 0)
  {
    if end < 0 then (if len + end > 0 then len + end else 0)
    else if end < len then end else len
  }

  /** `s.slice(0, end)`: always a prefix of `s`. */
  function SliceTo<T>(s: seq<T>, end: int): (r: seq<T>)
    ensures |r| == SliceLength(|s|, end)
    ensures forall i :: 0 <= i < |r| ==> r[i] == s[i]
  {
    s[..SliceLength(|s|, end)]
  }

  /** The characters `String.prototype.trim` removes: ECMAScript's
      WhiteSpace (tab, vertical tab, form feed, space, no-break space,
      byte-order mark and the Unicode space separators) and its
      LineTerminators (line feed, carriage return, line and paragraph
      separators). */
  predicate IsWhitespace(c: char) {
    || c == '\t' || c == '\n' || c == '\U{000B}' || c == '\U{000C}' || c == '\r'
    || c == ' ' || c == '\U{00A0}' || c == '\U{1680}'
    || ('\U{2000}' <= c <= '\U{200A}')
    || c == '\U{2028}' || c == '\U{2029}' || c == '\U{202F}' || c == '\U{205F}'
    || c == '\U{3000}' || c == '\U{FEFF}'
  }

  /** Drops leading whitespace: what is dropped is all whitespace and what
      is left is a suffix that starts with a non-whitespace character. */
  function TrimStart(s: string): (r: string)
    ensures |r| <= |s| && r == s[|s| - |r|..]
    ensures forall i :: 0 <= i < |s| - |r| ==> IsWhitespace(s[i])
    ensures r != [] ==> !IsWhitespace(r[0])
  {
    if s != [] && IsWhitespace(s[0]) then TrimStart(s[1..]) else s
  }

  /** Drops trailing whitespace: what is dropped is all whitespace and what
      is left is a prefix that ends with a non-whitespace character. */
  function TrimEnd(s: string): (r: string)
    ensures |r| <= |s| && r == s[..|r|]
    ensures forall i :: |r| <= i < |s| ==> IsWhitespace(s[i])
    ensures r != [] ==> !IsWhitespace(r[|r| - 1])
  {
    if s != [] && IsWhitespace(s[|s| - 1]) then TrimEnd(s[..|s| - 1]) else s
  }

  /** How many characters `TrimStart` removes from the front of `s`. */
  function LeadingWhitespace(s: string): nat {
    |s| - |TrimStart(s)|
  }

  /** `s.trim()`: a contiguous piece of `s` with whitespace on neither end,
      everything before and after it whitespace, empty exactly when `s`
      consists of whitespace only. */
  function Trim(s: string): (r: string)
    ensures |r| <= |s|
    ensures LeadingWhitespace(s) + |r| <= |s|
    ensures r == s[LeadingWhitespace(s)..LeadingWhitespace(s) + |r|]
    ensures forall i :: 0 <= i < LeadingWhitespace(s) ==> IsWhitespace(s[i])
    ensures forall i :: LeadingWhitespace(s) + |r| <= i < |s| ==> IsWhitespace(s[i])
    ensures r != [] ==> !IsWhitespace(r[0]) && !IsWhitespace(r[|r| - 1])
    ensures r == [] <==> forall i :: 0 <= i < |s| ==> IsWhitespace(s[i])
  {
    var t := TrimStart(s);
    var r := TrimEnd(t);
    assert r == s[|s| - |t|..][..|r|];
    assert forall i :: |s| - |t| + |r| <= i < |s| ==> s[i] == t[i - (|s| - |t|)];
    r
  }

  /** `toLowerCase` on one character; only ASCII letters are folded. */
  function LowerChar(c: char): char {
    if 'A' <= c <= 'Z' then (c as int + 32) as char else c
  }

  /** `s.toLowerCase()`, character by character. */
  function ToLower(s: string): (r: string)
    ensures |r| == |s|
    ensures forall i :: 0 <= i < |s| ==> r[i] == LowerChar(s[i])
  {
    seq(|s|, i requires 0 <= i < |s| => LowerChar(s[i]))
  }

  /** `a.toLowerCase() === b.toLowerCase()`. */
  predicate SameIgnoringCase(a: string, b: string): (same: bool)
    ensures same <==> |a| == |b| && forall i :: 0 <= i < |a| ==> LowerChar(a[i]) == LowerChar(b[i])
  {
    ToLower(a) == ToLower(b)
  }

  /** `parts.join(sep)`. */
  function Join(parts: seq<string>, sep: string): (r: string)
    ensures |parts| == 0 ==> r == ""
    ensures |parts| == 1 ==> r == parts[0]
    ensures |parts| > 0 ==> |parts[0]| <= |r| && r[..|parts[0]|] == parts[0]
  {
    if |parts| == 0 then ""
    else if |parts| == 1 then parts[0]
    else parts[0] + sep + Join(parts[1..], sep)
  }

  /** JavaScript truthiness of an optional string: present and non-empty. */
  predicate IsTruthy(p: Option<string>) {
    p.Some? && p.value != ""
  }

  /** `parts.filter(Boolean)`: the truthy parts, in their order, unwrapped. */
  function FilterTruthy(parts: seq<Option<string>>): (r: seq<string>)
    ensures |r| <= |parts|
    ensures forall i :: 0 <= i < |r| ==> r[i] != ""
  {
    if parts == [] then []
    else if IsTruthy(parts[0]) then [parts[0].value] + FilterTruthy(parts[1..])
    else FilterTruthy(parts[1..])
  }

  /** A join of non-empty parts is empty exactly when there are no parts. */
  lemma {:induction false} JoinOfNonEmptyIsEmptyIff(parts: seq<string>, sep: string)
    requires forall i :: 0 <= i < |parts| ==> parts[i] != ""
    ensures Join(parts, sep) == "" <==> parts == []
  {
    if |parts| > 1 {
      assert |parts[0] + sep + Join(parts[1..], sep)| >= |parts[0]| > 0;
    }
  }

  /** `parts.filter(Boolean).join(sep)` is empty exactly when no part is truthy. */
  lemma {:induction false} JoinTruthyEmptyIff(parts: seq<Option<string>>, sep: string)
    ensures Join(FilterTruthy(parts), sep) == "" <==> forall i :: 0 <= i < |parts| ==> !IsTruthy(parts[i])
  {
    JoinOfNonEmptyIsEmptyIff(FilterTruthy(parts), sep);
    FilterTruthyEmptyIff(parts);
  }

  lemma {:induction false} FilterTruthyEmptyIff(parts: seq<Option<string>>)
    ensures FilterTruthy(parts) == [] <==> forall i :: 0 <= i < |parts| ==> !IsTruthy(parts[i])
  {
    if parts != [] {
      FilterTruthyEmptyIff(parts[1..]);
      if !IsTruthy(parts[0]) {
        forall i | 0 <= i < |parts| && FilterTruthy(parts) == [] ensures !IsTruthy(parts[i]) {
          if i > 0 { assert parts[i] == parts[1..][i - 1]; }
        }
      }
    }
  }

  /** A text field of the aggregator's payload, as far as `Number(...)`
      and truthiness tell its values apart: missing, the empty text, a
      numeric text, or any other text. */
  datatype RawField = Undefined | EmptyText | Numeric(v: real) | NonNumeric

  /** JavaScript truthiness of such a field: any non-empty text. */
  predicate IsTruthyField(f: RawField) {
    f.Numeric? || f.NonNumeric?
  }

  /** `Number(f)` followed by `isFinite`: the number, or `None` for NaN.
      The empty text converts to 0. */
  function JsNumber(f: RawField): (r: Option<real>)
    ensures r.None? <==> f.Undefined? || f.NonNumeric?
    ensures f.Numeric? ==> r == Some(f.v)
    ensures f.EmptyText? ==> r == Some(0.0)
  {
    match f
    case Undefined => None
    case EmptyText => Some(0.0)
    case Numeric(v) => Some(v)
    case NonNumeric => None
  }

  /** `[a, b].filter(Boolean).join(sep)`, case by case. */
  lemma JoinTwoTruthy(a: Option<string>, b: Option<string>, sep: string)
    ensures Join(FilterTruthy([a, b]), sep) ==
      if IsTruthy(a) && IsTruthy(b) then a.value + sep + b.value
      else if IsTruthy(a) then a.value
      else if IsTruthy(b) then b.value
      else ""
  {
    var parts := [a, b];
    assert parts[1..] == [b] && parts[1..][1..] == [];
    var tail := FilterTruthy([b]);
    assert tail == if IsTruthy(b) then [b.value] else [];
    var both := FilterTruthy(parts);
    assert both == (if IsTruthy(a) then [a.value] else []) + tail;
    if IsTruthy(a) && IsTruthy(b) {
      assert both == [a.value, b.value] && both[1..] == [b.value];
    }
  }
}
