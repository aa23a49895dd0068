/** The few JavaScript built-ins the front-end's rules are written with:
    nullable values, truthiness of strings, `||` defaults, `String.prototype.trim`,
    `endsWith`, `includes`, `toLowerCase`, `toUpperCase`, and the
    `.replace(/\/$/, "")` idiom that drops one trailing slash. */
module Js {

  /** A value that may be `null` or `undefined` in JavaScript. */
  datatype Option<T> = None | Some(value: T)

  /** Truthiness of a value that is a string or absent: `""`, `null` and `undefined` are falsy. */
  predicate Truthy(v: Option<string>) {
    v.Some? && v.value != ""
  }

  /** `a || b` for a possibly absent string `a`. */
  function Or(a: Option<string>, b: string): string {
    if Truthy(a) then a.value else b
  }

  /** `a || b || c` for possibly absent strings. */
  function Or3(a: Option<string>, b: Option<string>, c: string): string {
    if Truthy(a) then a.value else Or(b, c)
  }

  /** Template-literal text of a possibly absent value: `${undefined}` is "undefined". */
  function Show(v: Option<string>): string {
    match v
    case Some(x) => x
    case None => "undefined"
  }

  /** The ECMAScript WhiteSpace and LineTerminator code points, which `trim` removes:
      TAB, LF, VT, FF, CR, SPACE, NBSP, the other Zs characters, LS, PS and the BOM. */
  predicate IsSpace(c: char) {
    || c == '\t' || c == '\n' || c == '\U{B}' || c == '\U{C}' || c == '\r'
    || c == ' ' || c == '\U{A0}' || c == '\U{1680}'
    || ('\U{2000}' <= c <= '\U{200A}')
    || c == '\U{2028}' || c == '\U{2029}' || c == '\U{202F}' || c == '\U{205F}'
    || c == '\U{3000}' || c == '\U{FEFF}'
  }

  function TrimStart(s: string): string {
    if s != [] && IsSpace(s[0]) then TrimStart(s[1..]) else s
  }

  function TrimEnd(s: string): string {
    if s != [] && IsSpace(s[|s| - 1]) then TrimEnd(s[..|s| - 1]) else s
  }

  /** `s.trim()`. */
  function Trim(s: string): string {
    TrimEnd(TrimStart(s))
  }

  /** Every character of `s` is white space (vacuously so for `""`). */
  predicate AllSpace(s: string) {
    forall i :: 0 <= i < |s| ==> IsSpace(s[i])
  }

  /** `!s.trim()`: nothing but white space. */
  predicate Blank(s: string) {
    Trim(s) == ""
  }

  /** `TrimStart` drops a prefix of white space and stops at a non-space character. */
  lemma {:induction false} TrimStartShape(s: string) returns (k: nat)
    ensures k <= |s| && TrimStart(s) == s[k..] && AllSpace(s[..k])
    ensures TrimStart(s) == "" || !IsSpace(TrimStart(s)[0])
  {
    if s != [] && IsSpace(s[0]) {
      var k' := TrimStartShape(s[1..]);
      k := k' + 1;
      assert s[1..][k'..] == s[k..];
      assert s[..k] == [s[0]] + s[1..][..k'];
    } else {
      k := 0;
    }
  }

  /** `TrimEnd` drops a suffix of white space and stops at a non-space character. */
  lemma {:induction false} TrimEndShape(s: string) returns (k: nat)
    ensures k <= |s| && TrimEnd(s) == s[..k] && AllSpace(s[k..])
    ensures TrimEnd(s) == "" || !IsSpace(TrimEnd(s)[|TrimEnd(s)| - 1])
  {
    if s != [] && IsSpace(s[|s| - 1]) {
      var p := s[..|s| - 1];
      k := TrimEndShape(p);
      assert p[..k] == s[..k];
      assert s[k..] == p[k..] + [s[|s| - 1]];
    } else {
      k := |s|;
      assert s[..k] == s;
    }
  }

  /** `trim` keeps a contiguous slice of its input, drops only white space around it,
      and leaves no white space at either end. */
  lemma TrimShape(s: string)
    ensures exists i, j :: 0 <= i <= j <= |s| && Trim(s) == s[i..j] && AllSpace(s[..i]) && AllSpace(s[j..])
    ensures Trim(s) != "" ==> !IsSpace(Trim(s)[0]) && !IsSpace(Trim(s)[|Trim(s)| - 1])
  {
    var i := TrimStartShape(s);
    var t := s[i..];
    var k := TrimEndShape(t);
    assert Trim(s) == s[i..i + k];
    assert s[i + k..] == t[k..];
    if Trim(s) != "" {
      assert Trim(s)[0] == t[0];
    }
  }

  /** A string trims to `""` exactly when it consists of white space only. */
  lemma {:induction false} BlankIffAllSpace(s: string)
    ensures Blank(s) <==> AllSpace(s)
  {
    TrimShape(s);
    if AllSpace(s) {
      TrimStartAllSpace(s);
    }
  }

  lemma {:induction false} TrimStartAllSpace(s: string)
    requires AllSpace(s)
    ensures TrimStart(s) == ""
  {
    if s != [] {
      TrimStartAllSpace(s[1..]);
    }
  }

  /** Trimming twice is trimming once. */
  lemma TrimIdempotent(s: string)
    ensures Trim(Trim(s)) == Trim(s)
  {
    TrimShape(s);
    var t := Trim(s);
    if t != [] {
      assert TrimStart(t) == t;
      assert TrimEnd(t) == t;
    }
  }

  /** The UTF-16 code units one character takes: two beyond U+FFFF (a
      surrogate pair), one otherwise. */
  function Units(c: char): nat {
    if c as int < 0x1_0000 then 1 else 2
  }

  /** `s.length`: JavaScript counts UTF-16 code units, not characters. */
  function Length(s: string): (n: nat)
    ensures |s| <= n <= 2 * |s|
    ensures n == 0 <==> s == []
  {
    if s == [] then 0 else Units(s[0]) + Length(s[1..])
  }

  /** The length of a concatenation is the sum of the lengths. */
  lemma {:induction false} LengthAppend(a: string, b: string)
    ensures Length(a + b) == Length(a) + Length(b)
  {
    if a == [] {
      assert a + b == b;
    } else {
      assert (a + b)[0] == a[0] && (a + b)[1..] == a[1..] + b;
      LengthAppend(a[1..], b);
    }
  }

  /** On text without characters beyond U+FFFF, `length` counts characters. */
  lemma {:induction false} LengthOfBasicPlane(s: string)
    requires forall i :: 0 <= i < |s| ==> s[i] as int < 0x1_0000
    ensures Length(s) == |s|
  {
    if s != [] {
      LengthOfBasicPlane(s[1..]);
    }
  }

  /** One emoji is two code units: "abcd😀" has five characters and length 6. */
  lemma EmojiCountsTwice()
    ensures |"abcd\U{1F600}"| == 5 && Length("abcd\U{1F600}") == 6
  {
    var s := "abcd\U{1F600}";
    assert s[1..][1..][1..][1..][1..] == [];
  }

  predicate StartsWith(s: string, prefix: string) {
    |prefix| <= |s| && s[..|prefix|] == prefix
  }

  predicate EndsWith(s: string, suffix: string) {
    |suffix| <= |s| && s[|s| - |suffix|..] == suffix
  }

  /** `s.includes(sub)`. */
  predicate Contains(s: string, sub: string) {
    StartsWith(s, sub) || (s != [] && Contains(s[1..], sub))
  }

  /** A string contains whatever one of its suffixes contains. */
  lemma {:induction false} ContainsSuffix(s: string, i: nat, sub: string)
    requires i <= |s| && Contains(s[i..], sub)
    ensures Contains(s, sub)
  {
    if i > 0 {
      assert s[1..][i - 1..] == s[i..];
      ContainsSuffix(s[1..], i - 1, sub);
    }
  }

  /** `s.replace(/\/$/, "")`: one trailing slash, if there is one, is dropped. */
  function DropTrailingSlash(s: string): string {
    if EndsWith(s, "/") then s[..|s| - 1] else s
  }

  function LowerChar(c: char): char {
    if 'A' <= c <= 'Z' then (c as int + 32) as char else c
  }

  function UpperChar(c: char): char {
    if 'a' <= c <= 'z' then (c as int - 32) as char else c
  }

  /** `s.toLowerCase()`, on the ASCII letters. */
  function ToLower(s: string): string {
    seq(|s|, i requires 0 <= i < |s| => LowerChar(s[i]))
  }

  /** `s.toUpperCase()`, on the ASCII letters. */
  function ToUpper(s: string): string {
    seq(|s|, i requires 0 <= i < |s| => UpperChar(s[i]))
  }

  /** Lower-casing leaves a string without upper-case ASCII letters as it is. */
  lemma ToLowerKeepsLower(s: string)
    requires forall i :: 0 <= i < |s| ==> !('A' <= s[i] <= 'Z')
    ensures ToLower(s) == s
  {
  }
}
