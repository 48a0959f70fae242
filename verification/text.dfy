/** The JavaScript string built-ins the chat logic relies on: `includes`,
    `toLowerCase` and `trim`.  A Dafny `string` is a sequence of Unicode
    scalar values, not of the UTF-16 code units JavaScript strings hold. */
module Text {

  datatype Option<+T> = None | Some(value: T)

  // ---------------------------------------------------------------------
  // includes
  // ---------------------------------------------------------------------

  /** `s.includes(p)`: p occurs somewhere in s as a contiguous block. */
  predicate Contains(s: string, p: string)
    decreases |s|
  {
    |p| <= |s| && (s[..|p|] == p || Contains(s[1..], p))
  }

  /** p occurs in s starting at index i. */
  predicate OccursAt(s: string, p: string, i: nat)
  {
    i + |p| <= |s| && s[i..i + |p|] == p
  }

  /** An occurrence at any index is found by `Contains`. */
  lemma {:induction false} ContainsAt(s: string, p: string, i: nat)
    requires OccursAt(s, p, i)
    ensures Contains(s, p)
    decreases i
  {
    if i > 0 {
      assert s[1..][i - 1..i - 1 + |p|] == s[i..i + |p|];
      ContainsAt(s[1..], p, i - 1);
    }
  }

  /** Conversely, whenever `Contains` holds there is an index where p occurs. */
  lemma {:induction false} ContainsWitness(s: string, p: string) returns (i: nat)
    requires Contains(s, p)
    ensures OccursAt(s, p, i)
    decreases |s|
  {
    if s[..|p|] == p {
      i := 0;
    } else {
      var j := ContainsWitness(s[1..], p);
      assert s[1..][j..j + |p|] == s[j + 1..j + 1 + |p|];
      i := j + 1;
    }
  }

  /** `Contains` is exactly "occurs at some index". */
  lemma ContainsIff(s: string, p: string)
    ensures Contains(s, p) <==> exists i: nat :: OccursAt(s, p, i)
  {
    if Contains(s, p) {
      var i := ContainsWitness(s, p);
    }
    if exists i: nat :: OccursAt(s, p, i) {
      var i: nat :| OccursAt(s, p, i);
      ContainsAt(s, p, i);
    }
  }

  /** A text avoids two phrases exactly when neither occurs at any index. */
  lemma AvoidsBothIff(s: string, p: string, q: string)
    ensures (!Contains(s, p) && !Contains(s, q)) <==>
            (forall i: nat :: !OccursAt(s, p, i)) && (forall i: nat :: !OccursAt(s, q, i))
  {
    ContainsIff(s, p);
    ContainsIff(s, q);
  }

  /** A phrase contains its tail: "weekend combo" contains "combo". */
  lemma ContainsTail(a: string, b: string)
    ensures Contains(a + b, b)
  {
    assert (a + b)[|a|..|a| + |b|] == b;
    ContainsAt(a + b, b, |a|);
  }

  /** A phrase contains its head: "hawa mahal" contains "hawa". */
  lemma ContainsHead(a: string, b: string)
    ensures Contains(a + b, a)
  {
    assert (a + b)[0..|a|] == a;
    ContainsAt(a + b, a, 0);
  }

  /** Containment is transitive: a text that contains a phrase contains every
      part of the phrase. */
  lemma ContainsTrans(s: string, p: string, q: string)
    requires Contains(s, p) && Contains(p, q)
    ensures Contains(s, q)
  {
    var i := ContainsWitness(s, p);
    var j := ContainsWitness(p, q);
    forall k | 0 <= k < |q|
      ensures s[i + j + k] == q[k]
    {
      assert s[i..i + |p|][j + k] == p[j..j + |q|][k];
    }
    ContainsAt(s, q, i + j);
  }

  /** Every character of an occurring phrase occurs in the text. */
  lemma ContainsChar(s: string, p: string, k: nat)
    requires Contains(s, p) && k < |p|
    ensures p[k] in s
  {
    var i := ContainsWitness(s, p);
    assert s[i + k] == p[k];
  }

  /** A phrase whose first character starts no candidate position of the
      text does not occur in it. */
  lemma FirstCharAbsent(s: string, p: string)
    requires p != [] && forall i :: 0 <= i <= |s| - |p| ==> s[i] != p[0]
    ensures !Contains(s, p)
  {
    if Contains(s, p) {
      var i := ContainsWitness(s, p);
    }
  }

  // ---------------------------------------------------------------------
  // toLowerCase (ASCII letters)
  // ---------------------------------------------------------------------

  predicate IsUpper(c: char) { 'A' <= c <= 'Z' }

  function LowerChar(c: char): (r: char)
    ensures IsUpper(c) ==> r as int == c as int + 32 && 'a' <= r <= 'z'
    ensures !IsUpper(c) ==> r == c
  {
    if IsUpper(c) then (c as int + 32) as char else c
  }

  /** `s.toLowerCase()`: same length, every character mapped by `LowerChar`. */
  function ToLower(s: string): (r: string)
    ensures |r| == |s|
    ensures forall i :: 0 <= i < |s| ==> r[i] == LowerChar(s[i])
  {
    if s == [] then [] else [LowerChar(s[0])] + ToLower(s[1..])
  }

  /** Lower-casing twice is lower-casing once. */
  lemma ToLowerIdempotent(s: string)
    ensures ToLower(ToLower(s)) == ToLower(s)
  {
    var t := ToLower(s);
    forall i | 0 <= i < |s|
      ensures ToLower(t)[i] == t[i]
    {
      assert !IsUpper(t[i]);
    }
  }

  // ---------------------------------------------------------------------
  // trim
  // ---------------------------------------------------------------------

  /** The characters `String.prototype.trim` removes: the ECMAScript
      WhiteSpace and LineTerminator code points. */
  predicate IsSpace(c: char)
  {
    c == '\t' || c == '\n' || c == '\U{000B}' || c == '\U{000C}' || c == '\r' ||
    c == ' ' || c == '\U{00A0}' || c == '\U{1680}' || ('\U{2000}' <= c <= '\U{200A}') ||
    c == '\U{2028}' || c == '\U{2029}' || c == '\U{202F}' || c == '\U{205F}' ||
    c == '\U{3000}' || c == '\U{FEFF}'
  }

  predicate AllSpace(s: string)
  {
    forall k :: 0 <= k < |s| ==> IsSpace(s[k])
  }

  /** Drops leading white space: the result is the suffix of s that starts at
      its first non-space character. */
  function TrimStart(s: string): (r: string)
    ensures |r| <= |s| && r == s[|s| - |r|..]
    ensures AllSpace(s[..|s| - |r|])
    ensures r == [] || !IsSpace(r[0])
  {
    if s != [] && IsSpace(s[0]) then TrimStart(s[1..]) else s
  }

  /** Drops trailing white space: the result is the prefix of s that ends at
      its last non-space character. */
  function TrimEnd(s: string): (r: string)
    ensures |r| <= |s| && r == s[..|r|]
    ensures AllSpace(s[|r|..])
    ensures r == [] || !IsSpace(r[|r| - 1])
  {
    if s != [] && IsSpace(s[|s| - 1]) then TrimEnd(s[..|s| - 1]) else s
  }

  /** `s.trim()`: a contiguous block of s with no white space at either end,
      everything around it being white space; empty exactly when s is all
      white space. */
  function Trim(s: string): (r: string)
    ensures exists i, j :: 0 <= i <= j <= |s| && r == s[i..j] && AllSpace(s[..i]) && AllSpace(s[j..])
    ensures r == [] || (!IsSpace(r[0]) && !IsSpace(r[|r| - 1]))
    ensures r == [] <==> AllSpace(s)
  {
    var a := TrimStart(s);
    var r := TrimEnd(a);
    var i := |s| - |a|;
    assert r == s[i..i + |r|];
    assert s[i + |r|..] == a[|r|..];
    r
  }
}
