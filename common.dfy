/** Value types and text helpers shared by the chat client's services. */
module Common {

  datatype Option<+T> = None | Some(value: T)

  datatype Result<+T, +E> = Success(value: T) | Failure(error: E)

  /** What a persisted slot (a defaults entry or a file) turns out to hold
      when it is read back: something of the expected shape, or not. */
  datatype Payload<+T> = Malformed | WellFormed(value: T)

  /** A reading of the wall clock, standing in for `Date()`. */
  type Timestamp = nat

  // ---------------------------------------------------------------------
  // Identifiers

  predicate IsHexDigit(c: char) {
    ('0' <= c <= '9') || ('A' <= c <= 'F') || ('a' <= c <= 'f')
  }

  predicate IsDashPosition(i: int) {
    i == 8 || i == 13 || i == 18 || i == 23
  }

  /** Position `i` of a UUID text holds a dash or a hex digit, as the
      8-4-4-4-12 layout requires. */
  predicate UuidCharAt(s: string, i: nat)
    requires i < |s|
  {
    if IsDashPosition(i) then s[i] == '-' else IsHexDigit(s[i])
  }

  /** The textual form `UUID(uuidString:)` accepts, in either case. */
  predicate IsUuidText(s: string) {
    |s| == 36 && forall i: nat | i < 36 :: UuidCharAt(s, i)
  }

  predicate IsUpperAt(s: string, i: nat)
    requires i < |s|
  {
    !('a' <= s[i] <= 'z')
  }

  predicate HasNoLowerCase(s: string) {
    forall i: nat | i < |s| :: IsUpperAt(s, i)
  }

  /** The form `uuidString` prints: UUID text in upper case. */
  predicate IsCanonicalUuid(s: string) {
    IsUuidText(s) && HasNoLowerCase(s)
  }

  /** A UUID, represented by its `uuidString`. */
  type Uuid = s: string | IsCanonicalUuid(s)
    witness "00000000-0000-0000-0000-000000000000"

  function UpperChar(c: char): char {
    if 'a' <= c <= 'z' then (c as int - 32) as char else c
  }

  function Upper(s: string): (r: string)
    ensures |r| == |s|
    ensures forall i | 0 <= i < |s| :: r[i] == UpperChar(s[i])
  {
    seq(|s|, i requires 0 <= i < |s| => UpperChar(s[i]))
  }

  /** `UUID(uuidString:)`: accepts the 36-character form in either case. */
  function ParseUuid(s: string): (r: Option<Uuid>)
    ensures r.Some? <==> IsUuidText(s)
    ensures r.Some? ==> |r.value| == |s| && forall i | 0 <= i < |s| :: r.value[i] == UpperChar(s[i])
  {
    if IsUuidText(s) then
      var u := Upper(s);
      assert IsUuidText(u) by {
        forall i: nat | i < 36 ensures UuidCharAt(u, i) {
          assert UuidCharAt(s, i);
        }
      }
      assert HasNoLowerCase(u) by {
        forall i: nat | i < |u| ensures IsUpperAt(u, i) {
        }
      }
      Some(u)
    else None
  }

  /** Parsing the text a UUID prints as gives that UUID back. */
  lemma ParseUuidString(u: Uuid)
    ensures ParseUuid(u) == Some(u)
  {
    assert IsUuidText(u);
    var r := ParseUuid(u);
    forall i: nat | i < |u| ensures r.value[i] == u[i] {
      assert IsUpperAt(u, i);
    }
    assert r.value == u;
  }

  // ---------------------------------------------------------------------
  // Text

  /** Unicode White_Space: the members of `.whitespacesAndNewlines`. */
  predicate IsWhitespace(c: char) {
    c == ' ' || c == '\t' || c == '\n' || c == '\r' || c == '\U{000B}' || c == '\U{000C}' ||
    c == '\U{0085}' || c == '\U{00A0}' || c == '\U{1680}' || ('\U{2000}' <= c <= '\U{200A}') ||
    c == '\U{2028}' || c == '\U{2029}' || c == '\U{202F}' || c == '\U{205F}' || c == '\U{3000}'
  }

  predicate IsBlank(s: string) {
    forall i | 0 <= i < |s| :: IsWhitespace(s[i])
  }

  function TrimStart(s: string): (r: string)
    decreases |s|
  {
    if |s| > 0 && IsWhitespace(s[0]) then TrimStart(s[1..]) else s
  }

  function TrimEnd(s: string): (r: string)
    decreases |s|
  {
    if |s| > 0 && IsWhitespace(s[|s| - 1]) then TrimEnd(s[..|s| - 1]) else s
  }

  /** `trimmingCharacters(in: .whitespacesAndNewlines)`. */
  function Trim(s: string): string {
    TrimEnd(TrimStart(s))
  }

  lemma {:induction false} TrimStartEmpty(s: string)
    ensures TrimStart(s) == [] <==> IsBlank(s)
    decreases |s|
  {
    if |s| > 0 && IsWhitespace(s[0]) {
      TrimStartEmpty(s[1..]);
      assert IsBlank(s) <==> IsBlank(s[1..]) by {
        if IsBlank(s[1..]) {
          forall i | 0 <= i < |s| ensures IsWhitespace(s[i]) {
            if i > 0 { assert s[i] == s[1..][i - 1]; }
          }
        }
      }
    }
  }

  /** The send guard: trimming leaves nothing exactly when every character
      is white space or a newline. */
  lemma TrimEmptyIffBlank(s: string)
    ensures Trim(s) == [] <==> IsBlank(s)
  {
    TrimStartEmpty(s);
    TrimStartShape(s);
    var t := TrimStart(s);
    if t != [] {
      assert !IsWhitespace(t[0]);
      TrimEndKeepsNonWhiteHead(t);
    }
  }

  lemma {:induction false} TrimStartShape(s: string)
    ensures TrimStart(s) != [] ==> !IsWhitespace(TrimStart(s)[0])
    decreases |s|
  {
    if |s| > 0 && IsWhitespace(s[0]) {
      TrimStartShape(s[1..]);
    }
  }

  lemma {:induction false} TrimEndKeepsNonWhiteHead(t: string)
    requires t != [] && !IsWhitespace(t[0])
    ensures TrimEnd(t) != []
    decreases |t|
  {
    if IsWhitespace(t[|t| - 1]) {
      TrimEndKeepsNonWhiteHead(t[..|t| - 1]);
    }
  }

  /** ASCII case mapping, standing in for `lowercased()`. */
  function LowerChar(c: char): char {
    if 'A' <= c <= 'Z' then (c as int + 32) as char else c
  }

  function Lower(s: string): (r: string)
    ensures |r| == |s|
    ensures forall i | 0 <= i < |s| :: r[i] == LowerChar(s[i])
  {
    seq(|s|, i requires 0 <= i < |s| => LowerChar(s[i]))
  }

  /** Two strings are equal ignoring case. */
  predicate SameIgnoringCase(a: string, b: string) {
    Lower(a) == Lower(b)
  }

  predicate IsPrefix(p: string, s: string) {
    |p| <= |s| && s[..|p|] == p
  }

  /** `s.contains(sub)`: `sub` occurs somewhere in `s`. */
  predicate Contains(s: string, sub: string)
    decreases |s|
  {
    IsPrefix(sub, s) || (|s| > 0 && Contains(s[1..], sub))
  }

  /** Containing a one-character string is containing that character. */
  lemma {:induction false} ContainsSingle(s: string, c: char)
    ensures Contains(s, [c]) <==> c in s
    decreases |s|
  {
    if |s| > 0 {
      ContainsSingle(s[1..], c);
      assert s == [s[0]] + s[1..];
    }
  }

  /** `joined(separator:)`. */
  function Join(xs: seq<string>, sep: string): string
    decreases |xs|
  {
    if |xs| == 0 then ""
    else if |xs| == 1 then xs[0]
    else xs[0] + sep + Join(xs[1..], sep)
  }
}
