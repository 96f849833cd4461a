/** String primitives the page script relies on: `String.prototype.toLowerCase`
    (ASCII letters only), `String.prototype.trim` (the ECMAScript whitespace and
    line-terminator set) and `String.prototype.includes` (substring test). */
module Text {

  predicate IsAsciiUpper(c: char) {
    'A' <= c <= 'Z'
  }

  /** Lower-case mapping of one character; only 'A'..'Z' are mapped. */
  function LowerChar(c: char): char {
    if IsAsciiUpper(c) then (c as int + 32) as char else c
  }

  /** `s.toLowerCase()`, restricted to ASCII letters. */
  function Lower(s: string): (r: string)
    ensures |r| == |s|
    ensures forall i :: 0 <= i < |r| ==> !IsAsciiUpper(r[i])
    ensures forall i :: 0 <= i < |s| ==>
              if IsAsciiUpper(s[i]) then r[i] as int == s[i] as int + 32 else r[i] == s[i]
  {
    seq(|s|, i requires 0 <= i < |s| => LowerChar(s[i]))
  }

  /** ECMAScript WhiteSpace and LineTerminator code points, the set `trim` removes. */
  predicate IsWhitespace(c: char) {
    // LineTerminator: LF, CR, LS, PS
    c == '\n' || c == '\r' || c == '\U{2028}' || c == '\U{2029}' ||
    // WhiteSpace: TAB, VT, FF, ZWNBSP
    c == '\t' || c == '\U{000B}' || c == '\U{000C}' || c == '\U{FEFF}' ||
    // WhiteSpace: the space separators (Unicode category Zs)
    c == ' ' || c == '\U{00A0}' || c == '\U{1680}' || ('\U{2000}' <= c <= '\U{200A}') ||
    c == '\U{202F}' || c == '\U{205F}' || c == '\U{3000}'
  }

  predicate AllWhitespace(s: string) {
    forall i :: 0 <= i < |s| ==> IsWhitespace(s[i])
  }

  /** Drops the leading whitespace of `s`. */
  function TrimStart(s: string): (r: string)
    ensures |r| <= |s| && r == s[|s| - |r|..]
    ensures AllWhitespace(s[..|s| - |r|])
    ensures r == [] || !IsWhitespace(r[0])
  {
    if s != [] && IsWhitespace(s[0]) then TrimStart(s[1..]) else s
  }

  /** Drops the trailing whitespace of `s`. */
  function TrimEnd(s: string): (r: string)
    ensures |r| <= |s| && r == s[..|r|]
    ensures AllWhitespace(s[|r|..])
    ensures r == [] || !IsWhitespace(r[|r| - 1])
  {
    if s != [] && IsWhitespace(s[|s| - 1]) then TrimEnd(s[..|s| - 1]) else s
  }

  /** `r` sits in `s` at offset `k` with only whitespace around it. */
  predicate Surrounds(s: string, r: string, k: int) {
    0 <= k && k + |r| <= |s| && s[k..k + |r|] == r &&
    AllWhitespace(s[..k]) && AllWhitespace(s[k + |r|..])
  }

  /** Taking a prefix `r` of the suffix `t` of `s` that starts at `k` leaves `r`
      surrounded by what was dropped on either side. */
  lemma SliceOfSuffix(s: string, t: string, r: string, k: int)
    requires 0 <= k <= |s| && t == s[k..] && |r| <= |t| && r == t[..|r|]
    requires AllWhitespace(s[..k]) && AllWhitespace(t[|r|..])
    ensures Surrounds(s, r, k)
  {
    assert s[k..k + |r|] == r;
    assert s[k + |r|..] == t[|r|..];
  }

  /** Trimming the end of the trimmed start leaves a slice with whitespace on
      both sides. */
  lemma TrimSlices(s: string)
    ensures Surrounds(s, TrimEnd(TrimStart(s)), |s| - |TrimStart(s)|)
  {
    var t := TrimStart(s);
    SliceOfSuffix(s, t, TrimEnd(t), |s| - |t|);
  }

  /** `s.trim()`: `s` without its leading and trailing whitespace. */
  function Trim(s: string): (r: string)
    ensures Surrounds(s, r, |s| - |TrimStart(s)|)
    ensures r == [] || (!IsWhitespace(r[0]) && !IsWhitespace(r[|r| - 1]))
  {
    TrimSlices(s);
    var r := TrimEnd(TrimStart(s));
    assert r != [] ==> r[0] == TrimStart(s)[0];
    r
  }

  /** The trimmed value is empty exactly when the value is whitespace only. */
  lemma TrimEmptyIff(s: string)
    ensures Trim(s) == [] <==> AllWhitespace(s)
  {
    var t := TrimStart(s);
    var r := Trim(s);
    var k := |s| - |t|;
    if r == [] {
      assert t == [] by {
        assert t[|r|..] == t;
      }
      assert s[..k] == s;
    } else {
      assert s[k] == r[0];
    }
  }

  /** `t` occurs in `s` at index `i`. */
  predicate OccursAt(s: string, t: string, i: int) {
    0 <= i && i + |t| <= |s| && s[i..i + |t|] == t
  }

  /** `s.includes(t)`, searched from the left. */
  function Includes(s: string, t: string): (r: bool)
    ensures r <==> exists i :: OccursAt(s, t, i)
    decreases |s|
  {
    if |t| > |s| then
      false
    else if s[..|t|] == t then
      assert OccursAt(s, t, 0);
      true
    else
      var r := Includes(s[1..], t);
      assert forall i :: OccursAt(s, t, i) ==> i > 0 && OccursAt(s[1..], t, i - 1) by {
        forall i | OccursAt(s, t, i) ensures i > 0 && OccursAt(s[1..], t, i - 1) {
          assert s[1..][i - 1..i - 1 + |t|] == s[i..i + |t|];
        }
      }
      assert forall j :: OccursAt(s[1..], t, j) ==> OccursAt(s, t, j + 1) by {
        forall j | OccursAt(s[1..], t, j) ensures OccursAt(s, t, j + 1) {
          assert s[1..][j..j + |t|] == s[j + 1..j + 1 + |t|];
        }
      }
      r
  }

  /** Every string includes the empty string: an empty query matches everything. */
  lemma IncludesEmpty(s: string)
    ensures Includes(s, "")
  {
    assert OccursAt(s, "", 0);
  }

  /** A substring of a substring is a substring. */
  lemma IncludesTransitive(s: string, m: string, t: string)
    requires Includes(s, m) && Includes(m, t)
    ensures Includes(s, t)
  {
    var i :| OccursAt(s, m, i);
    var j :| OccursAt(m, t, j);
    forall x | 0 <= x < |t| ensures s[i + j + x] == t[x] {
      assert s[i + j + x] == m[j + x];
    }
    assert s[i + j..i + j + |t|] == t;
    assert OccursAt(s, t, i + j);
  }

  /** `t` does not occur in `s` when the adjacent pair `t[k], t[k + 1]` never
      occurs in `s`. */
  lemma PairAbsent(s: string, t: string, k: nat)
    requires k + 1 < |t|
    requires forall i :: 0 <= i < |s| - 1 ==> !(s[i] == t[k] && s[i + 1] == t[k + 1])
    ensures !Includes(s, t)
  {
  }

  /** Lower-casing keeps every occurrence, lower-cased. */
  lemma LowerKeepsOccurrence(s: string, t: string, k: int)
    requires OccursAt(s, t, k)
    ensures OccursAt(Lower(s), Lower(t), k)
  {
    assert Lower(s)[k..k + |t|] == Lower(s[k..k + |t|]);
  }

  lemma LowerTail(s: string)
    requires s != []
    ensures Lower(s)[1..] == Lower(s[1..])
  {
  }

  lemma LowerFront(s: string)
    requires s != []
    ensures Lower(s)[..|s| - 1] == Lower(s[..|s| - 1])
  {
  }

  /** Lower-casing changes no character's membership in the whitespace set. */
  lemma LowerCharWhitespace(c: char)
    ensures IsWhitespace(LowerChar(c)) == IsWhitespace(c)
  {
  }

  lemma {:induction false} TrimStartLower(s: string)
    ensures TrimStart(Lower(s)) == Lower(TrimStart(s))
    decreases |s|
  {
    if s != [] {
      assert Lower(s)[0] == LowerChar(s[0]);
      LowerCharWhitespace(s[0]);
      if IsWhitespace(s[0]) {
        LowerTail(s);
        TrimStartLower(s[1..]);
      }
    }
  }

  lemma {:induction false} TrimEndLower(s: string)
    ensures TrimEnd(Lower(s)) == Lower(TrimEnd(s))
    decreases |s|
  {
    if s != [] {
      assert Lower(s)[|s| - 1] == LowerChar(s[|s| - 1]);
      LowerCharWhitespace(s[|s| - 1]);
      if IsWhitespace(s[|s| - 1]) {
        LowerFront(s);
        TrimEndLower(s[..|s| - 1]);
      }
    }
  }

  /** Trimming and lower-casing commute, so `value.trim().toLowerCase()` does not
      depend on the order of the two steps. */
  lemma LowerTrimCommute(s: string)
    ensures Lower(Trim(s)) == Trim(Lower(s))
  {
    TrimStartLower(s);
    TrimEndLower(TrimStart(s));
  }

  /** Trimming twice is trimming once. */
  lemma TrimIdempotent(s: string)
    ensures Trim(Trim(s)) == Trim(s)
  {
  }
}
