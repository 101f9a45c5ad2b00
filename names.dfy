/**
 * Text handling of the server: `String.prototype.trim`, the name sanitiser
 * `sanitizeName`, and the room-code normalisation `joinRoom` applies.
 */
module Names {

  /** A field of a client payload: a string, or any other JavaScript value
      (a number, `undefined`, an object, ...). */
  datatype JsValue = JsString(s: string) | NotString

  /** Longest display name kept by `sanitizeName`. */
  const MaxNameLength: nat := 20

  /** The characters `trim` removes: ECMAScript WhiteSpace (TAB, VT, FF, SP,
      NBSP, ZWNBSP and the Space_Separator category) and LineTerminator
      (LF, CR, LS, PS). */
  predicate IsJsWhitespace(c: char) {
    || c == '\t' || c == '\n' || c == '\U{B}' || c == '\U{C}' || c == '\r'
    || c == ' ' || c == '\U{A0}' || c == '\U{1680}'
    || ('\U{2000}' <= c <= '\U{200A}')
    || c == '\U{2028}' || c == '\U{2029}' || c == '\U{202F}' || c == '\U{205F}'
    || c == '\U{3000}' || c == '\U{FEFF}'
  }

  predicate AllWhitespace(s: string) {
    forall i :: 0 <= i < |s| ==> IsJsWhitespace(s[i])
  }

  function Min(a: nat, b: nat): nat { if a <= b then a else b }

  /** Drops the leading whitespace: the result is the suffix of `s` that
      starts at its first non-whitespace character. */
  function TrimStart(s: string): (r: string)
    ensures |r| <= |s|
    ensures AllWhitespace(s[..|s| - |r|])
    ensures r != [] ==> !IsJsWhitespace(r[0])
  {
    if s != [] && IsJsWhitespace(s[0]) then
      var r := TrimStart(s[1..]);
      assert s[1..][..|s| - 1 - |r|] == s[1..|s| - |r|];
      r
    else s
  }

  /** Drops the trailing whitespace: the result is the prefix of `s` that
      ends at its last non-whitespace character. */
  function TrimEnd(s: string): (r: string)
    ensures |r| <= |s|
    ensures AllWhitespace(s[|r|..])
    ensures r != [] ==> !IsJsWhitespace(r[|r| - 1])
  {
    if s != [] && IsJsWhitespace(s[|s| - 1]) then
      var p := s[..|s| - 1];
      var r := TrimEnd(p);
      forall j | 0 <= j < |s| - |r| ensures IsJsWhitespace(s[|r|..][j]) {
        if j < |s| - 1 - |r| { assert s[|r|..][j] == p[|r|..][j]; }
      }
      r
    else s
  }

  /** What `TrimStart` keeps is a suffix of its input. */
  lemma {:induction false} TrimStartIsSuffix(s: string)
    ensures TrimStart(s) == s[|s| - |TrimStart(s)|..]
  {
    if s != [] && IsJsWhitespace(s[0]) {
      TrimStartIsSuffix(s[1..]);
    }
  }

  /** What `TrimEnd` keeps is a prefix of its input. */
  lemma {:induction false} TrimEndIsPrefix(s: string)
    ensures TrimEnd(s) == s[..|TrimEnd(s)|]
  {
    if s != [] && IsJsWhitespace(s[|s| - 1]) {
      TrimEndIsPrefix(s[..|s| - 1]);
    }
  }

  /** `s.trim()`: the slice of `s` between its first and last
      non-whitespace characters, empty exactly when `s` is all whitespace. */
  function Trim(s: string): (r: string)
    ensures |r| <= |s|
    ensures r == [] <==> AllWhitespace(s)
    ensures r != [] ==> !IsJsWhitespace(r[0]) && !IsJsWhitespace(r[|r| - 1])
  {
    TrimFacts(s);
    TrimEnd(TrimStart(s))
  }

  /** Trailing trimming keeps a first character that is not whitespace. */
  lemma TrimEndKeepsHead(t: string)
    requires t != [] ==> !IsJsWhitespace(t[0])
    ensures t != [] ==> TrimEnd(t) != [] && TrimEnd(t)[0] == t[0]
  {
  }

  lemma TrimFacts(s: string)
    ensures TrimEnd(TrimStart(s)) == [] <==> AllWhitespace(s)
    ensures TrimEnd(TrimStart(s)) != [] ==> !IsJsWhitespace(TrimEnd(TrimStart(s))[0])
  {
    var t := TrimStart(s);
    TrimEndKeepsHead(t);
    if TrimEnd(t) == [] {
      assert t == [];
      assert s[..|s|] == s;
    }
  }

  /** `trim` removes only whitespace, and only at the two ends: the result
      is the slice `s[k..k + |Trim(s)|]` with whitespace on both sides. */
  lemma TrimIsSlice(s: string)
    ensures var k := |s| - |TrimStart(s)|;
      && k + |Trim(s)| <= |s|
      && Trim(s) == s[k..k + |Trim(s)|]
      && AllWhitespace(s[..k])
      && AllWhitespace(s[k + |Trim(s)|..])
  {
    var t := TrimStart(s);
    TrimStartIsSuffix(s);
    TrimEndIsPrefix(t);
    SliceAround(s, |s| - |t|, t, Trim(s));
  }

  /** A prefix `r` of the suffix `t` of `s` that starts at `k` is the slice
      of `s` from `k`, and what follows it in `t` is what follows it in `s`;
      so whitespace after `r` in `t` is whitespace after it in `s`. */
  lemma SliceAround(s: string, k: nat, t: string, r: string)
    requires k <= |s| && t == s[k..] && |r| <= |t| && r == t[..|r|]
    requires AllWhitespace(s[..k]) && AllWhitespace(t[|r|..])
    ensures && k + |r| <= |s| && r == s[k..k + |r|]
            && AllWhitespace(s[..k]) && AllWhitespace(s[k + |r|..])
  {
    assert s[k + |r|..] == t[|r|..];
  }

  /** `sanitizeName(name)`: `''` for a non-string, otherwise the trimmed
      string cut to its first `MaxNameLength` characters. */
  function SanitizeName(name: JsValue): (r: string)
    ensures name.NotString? ==> r == ""
    ensures name.JsString? ==> |r| == Min(MaxNameLength, |Trim(name.s)|)
    ensures name.JsString? ==> r == Trim(name.s)[..|r|]
    ensures |r| <= MaxNameLength
    ensures r == "" <==> name.NotString? || AllWhitespace(name.s)
    ensures r != "" ==> !IsJsWhitespace(r[0])
  {
    match name
    case NotString => ""
    case JsString(s) =>
      var t := Trim(s);
      t[..Min(MaxNameLength, |t|)]
  }

  /** JavaScript's `toUpperCase` restricted to ASCII letters. */
  function UpperChar(c: char): (u: char)
    ensures 'a' <= c <= 'z' ==> 'A' <= u <= 'Z' && u as int == c as int - 32
    ensures !('a' <= c <= 'z') ==> u == c
  {
    if 'a' <= c <= 'z' then (c as int - 32) as char else c
  }

  function ToUpperAscii(s: string): (r: string)
    ensures |r| == |s|
    ensures forall i :: 0 <= i < |s| ==> r[i] == UpperChar(s[i])
  {
    if s == [] then [] else [UpperChar(s[0])] + ToUpperAscii(s[1..])
  }

  /** The code `joinRoom` looks up: `roomId.trim().toUpperCase()` for a
      string, `''` for anything else. It is as long as the trimmed string,
      character for character its upper-cased version, holds no lower-case
      ASCII letter, is empty exactly when there is no string or it is blank,
      and neither of its ends is whitespace. */
  function NormalizeCode(roomId: JsValue): (code: string)
    ensures roomId.NotString? ==> code == ""
    ensures roomId.JsString? ==> |code| == |Trim(roomId.s)|
    ensures roomId.JsString? ==> forall i :: 0 <= i < |code| ==> code[i] == UpperChar(Trim(roomId.s)[i])
    ensures forall i :: 0 <= i < |code| ==> !('a' <= code[i] <= 'z')
    ensures code == "" <==> roomId.NotString? || AllWhitespace(roomId.s)
    ensures code != "" ==> !IsJsWhitespace(code[0]) && !IsJsWhitespace(code[|code| - 1])
  {
    match roomId
    case NotString => ""
    case JsString(s) =>
      var t := Trim(s);
      var code := ToUpperAscii(t);
      if t == [] then code
      else
        UpperCharPlain(t[0]);
        UpperCharPlain(t[|t| - 1]);
        code
  }

  /** Upper-casing neither makes nor unmakes whitespace. */
  lemma UpperCharPlain(c: char)
    ensures IsJsWhitespace(UpperChar(c)) == IsJsWhitespace(c)
  {
  }

  /** Trimming twice trims nothing more. */
  lemma {:induction false} TrimIdempotent(s: string)
    ensures Trim(Trim(s)) == Trim(s)
  {
    var t := Trim(s);
    if t != [] {
      assert !IsJsWhitespace(t[0]);
      assert TrimStart(t) == t;
      assert !IsJsWhitespace(t[|t| - 1]);
      assert TrimEnd(t) == t;
    } else {
      assert TrimStart(t) == t;
    }
  }

  /** Leading whitespace before a non-whitespace character is exactly what
      `TrimStart` drops. */
  lemma {:induction false} TrimStartSkips(pre: string, rest: string)
    requires AllWhitespace(pre)
    requires rest != [] && !IsJsWhitespace(rest[0])
    ensures TrimStart(pre + rest) == rest
  {
    if pre != [] {
      assert (pre + rest)[1..] == pre[1..] + rest;
      TrimStartSkips(pre[1..], rest);
    } else {
      assert pre + rest == rest;
    }
  }

  /** Trailing whitespace after a non-whitespace character is exactly what
      `TrimEnd` drops. */
  lemma {:induction false} TrimEndSkips(rest: string, post: string)
    requires AllWhitespace(post)
    requires rest != [] && !IsJsWhitespace(rest[|rest| - 1])
    ensures TrimEnd(rest + post) == rest
  {
    if post != [] {
      var p := post[..|post| - 1];
      assert (rest + post)[..|rest + post| - 1] == rest + p;
      TrimEndSkips(rest, p);
    } else {
      assert rest + post == rest;
    }
  }

  /** A string without whitespace at either end is left alone by `trim`. */
  lemma TrimUntrimmed(s: string)
    requires s != [] ==> !IsJsWhitespace(s[0]) && !IsJsWhitespace(s[|s| - 1])
    ensures Trim(s) == s
  {
    assert TrimStart(s) == s;
    assert TrimEnd(s) == s;
  }

  /** Upper-casing a string that has no lower-case ASCII letter changes
      nothing. */
  lemma ToUpperNoLower(s: string)
    requires forall i :: 0 <= i < |s| ==> !('a' <= s[i] <= 'z')
    ensures ToUpperAscii(s) == s
  {
  }
}
