/** Small shared vocabulary: optional values, failures and the whitespace trim of ECMAScript strings. */
module Basics {

  datatype Option<+T> = None | Some(value: T)

  datatype Result<+T> = Ok(value: T) | Err

  function Max(a: int, b: int): (m: int)
    ensures m >= a && m >= b && (m == a || m == b)
  {
    if a < b then b else a
  }

  function MaxReal(a: real, b: real): (m: real)
    ensures m >= a && m >= b && (m == a || m == b)
  {
    if a < b then b else a
  }

  /** The code points that `String.prototype.trim` strips (ECMA-262, WhiteSpace and LineTerminator). */
  predicate IsWhiteSpace(c: char) {
    var n := c as int;
    || 0x09 <= n <= 0x0D || n == 0x20 || n == 0xA0 || n == 0x1680
    || 0x2000 <= n <= 0x200A || n == 0x2028 || n == 0x2029 || n == 0x202F
    || n == 0x205F || n == 0x3000 || n == 0xFEFF
  }

  /** The same characters, one by one. */
  const STRIPPED :=
    "\t\n\U{B}\U{C}\r \U{A0}\U{1680}\U{2000}\U{2001}\U{2002}\U{2003}\U{2004}\U{2005}\U{2006}\U{2007}\U{2008}"
    + "\U{2009}\U{200A}\U{2028}\U{2029}\U{202F}\U{205F}\U{3000}\U{FEFF}"

  lemma WhiteSpaceIs(c: char)
    ensures IsWhiteSpace(c) <==> c in STRIPPED
  {
    var n := c as int;
    if 0x2000 <= n <= 0x200A {
      assert c == STRIPPED[n - 0x2000 + 8];
    }
    if 0x09 <= n <= 0x0D {
      assert c == STRIPPED[n - 0x09];
    }
  }

  function TrimStart(s: string): string {
    if s != "" && IsWhiteSpace(s[0]) then TrimStart(s[1..]) else s
  }

  function TrimEnd(s: string): string {
    if s != "" && IsWhiteSpace(s[|s| - 1]) then TrimEnd(s[..|s| - 1]) else s
  }

  function Trim(s: string): string {
    TrimEnd(TrimStart(s))
  }

  lemma {:induction false} TrimStartIs(s: string)
    ensures var r := TrimStart(s);
            && |r| <= |s| && r == s[|s| - |r|..] && (forall k | 0 <= k < |s| - |r| :: IsWhiteSpace(s[k]))
            && (r != "" ==> !IsWhiteSpace(r[0]))
    decreases |s|
  {
    if s != "" && IsWhiteSpace(s[0]) {
      TrimStartIs(s[1..]);
    }
  }

  lemma {:induction false} TrimEndIs(s: string)
    ensures var r := TrimEnd(s);
            && |r| <= |s| && r == s[..|r|] && (forall k | |r| <= k < |s| :: IsWhiteSpace(s[k]))
            && (r != "" ==> !IsWhiteSpace(r[|r| - 1]))
    decreases |s|
  {
    if s != "" && IsWhiteSpace(s[|s| - 1]) {
      TrimEndIs(s[..|s| - 1]);
    }
  }

  /** Trimming takes off white space only, at both ends, and all of it. */
  lemma TrimIsTheMiddle(s: string) returns (from: nat, to: nat)
    ensures from <= to <= |s| && Trim(s) == s[from..to]
    ensures forall k | 0 <= k < from || to <= k < |s| :: IsWhiteSpace(s[k])
    ensures from < to ==> !IsWhiteSpace(s[from]) && !IsWhiteSpace(s[to - 1])
  {
    TrimStartIs(s);
    TrimEndIs(TrimStart(s));
    from, to := |s| - |TrimStart(s)|, |s| - |TrimStart(s)| + |Trim(s)|;
  }
}
