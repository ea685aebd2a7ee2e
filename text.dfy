/** String primitives the components rely on: `\s`, `toLowerCase`, `includes`,
    `split(' ')[0]` and `trim()`. Strings are sequences of UTF-16 code units
    (`char`). */
module Text {

  /** The characters JavaScript counts as white space in `\s`, `trim()` and
      `parseFloat` (WhiteSpace and LineTerminator). */
  predicate IsSpace(c: char) {
    c == ' ' || c == '\t' || c == '\n' || c == '\r' || c == '\U{B}' || c == '\U{C}'
    || c == '\U{A0}' || c == '\U{1680}' || ('\U{2000}' <= c <= '\U{200A}')
    || c == '\U{2028}' || c == '\U{2029}' || c == '\U{202F}' || c == '\U{205F}'
    || c == '\U{3000}' || c == '\U{FEFF}'
  }

  predicate IsDigit(c: char) {
    '0' <= c <= '9'
  }

  /** A character `\w` matches (and `\b` looks at): ASCII letters, digits and `_`. */
  predicate IsWordChar(c: char) {
    ('a' <= c <= 'z') || ('A' <= c <= 'Z') || IsDigit(c) || c == '_'
  }

  predicate IsUpper(c: char) {
    ('A' <= c <= 'Z') || ('\U{C0}' <= c <= '\U{DE}' && c != '\U{D7}')
  }

  /** `toLowerCase` on one code unit, for ASCII and the Latin-1 capitals
      (`É` becomes `é`); other scripts are left unchanged. */
  function LowerChar(c: char): (r: char)
    ensures !IsUpper(r)
    ensures IsUpper(c) ==> r as int == c as int + 32
    ensures !IsUpper(c) ==> r == c
  {
    if IsUpper(c) then (c as int + 32) as char else c
  }

  /** `s.toLowerCase()`. */
  function Lower(s: string): (r: string)
    ensures |r| == |s|
    ensures forall k :: 0 <= k < |s| ==> r[k] == LowerChar(s[k])
  {
    seq(|s|, k requires 0 <= k < |s| => LowerChar(s[k]))
  }

  /** Lowering twice changes nothing, so a lowered name matches itself. */
  lemma LowerIdempotent(s: string)
    ensures Lower(Lower(s)) == Lower(s)
  {
  }

  /** `w` occurs in `s` starting at index `i`. */
  predicate Occurs(s: string, w: string, i: int) {
    0 <= i && i + |w| <= |s| && s[i..i + |w|] == w
  }

  /** `s.includes(w)`: some occurrence of `w` in `s`, searched left to right. */
  function Includes(s: string, w: string): (b: bool)
    ensures b <==> exists i :: Occurs(s, w, i)
    decreases |s|
  {
    if |w| > |s| then false
    else if s[..|w|] == w then (assert Occurs(s, w, 0); true)
    else
      var b := Includes(s[1..], w);
      assert forall i :: Occurs(s[1..], w, i) <==> Occurs(s, w, i + 1) by {
        forall i ensures Occurs(s[1..], w, i) <==> Occurs(s, w, i + 1) {
          if 0 <= i && i + 1 + |w| <= |s| {
            assert s[1..][i..i + |w|] == s[i + 1..i + 1 + |w|];
          }
        }
      }
      assert !Occurs(s, w, 0);
      assert (exists i :: Occurs(s, w, i)) ==> exists i :: Occurs(s[1..], w, i) by {
        if exists i :: Occurs(s, w, i) {
          var i :| Occurs(s, w, i);
          assert i != 0;
          assert Occurs(s[1..], w, i - 1);
        }
      }
      b
  }

  /** The empty string is included in every string. */
  lemma IncludesEmpty(s: string)
    ensures Includes(s, "")
  {
    assert Occurs(s, "", 0);
  }

  /** Inclusion is transitive: a string containing `w` contains every part of `w`. */
  lemma IncludesTransitive(s: string, w: string, v: string)
    requires Includes(s, w) && Includes(w, v)
    ensures Includes(s, v)
  {
    var i :| Occurs(s, w, i);
    var j :| Occurs(w, v, j);
    assert w == s[i..i + |w|];
    assert v == s[i + j..i + j + |v|] by {
      forall k | 0 <= k < |v| ensures v[k] == s[i + j + k] {
        assert v[k] == w[j + k];
      }
    }
    assert Occurs(s, v, i + j);
  }

  /** `s.split(' ')[0]`: everything before the first plain space. */
  function FirstToken(s: string): (t: string)
    ensures t <= s
    ensures ' ' !in t
    ensures |t| < |s| ==> s[|t|] == ' '
  {
    if s == [] || s[0] == ' ' then "" else [s[0]] + FirstToken(s[1..])
  }

  /** `!s.trim()`: the string is empty once white space is removed. */
  predicate IsBlank(s: string) {
    forall k :: 0 <= k < |s| ==> IsSpace(s[k])
  }

  /** Length of the run of characters satisfying `p` that starts at `j`. */
  function Run(t: string, j: nat, p: char -> bool): (n: nat)
    requires j <= |t|
    ensures j + n <= |t|
    ensures forall k :: j <= k < j + n ==> p(t[k])
    ensures j + n == |t| || !p(t[j + n])
    decreases |t| - j
  {
    if j == |t| || !p(t[j]) then 0 else 1 + Run(t, j + 1, p)
  }

  /** Length of the white-space run at `j` (how far `\s*` can reach). */
  function SpaceRun(t: string, j: nat): (n: nat)
    requires j <= |t|
    ensures j + n <= |t|
    ensures forall k :: j <= k < j + n ==> IsSpace(t[k])
    ensures j + n == |t| || !IsSpace(t[j + n])
  {
    Run(t, j, IsSpace)
  }

  /** Length of the digit run at `j` (how far `\d+` can reach). */
  function DigitRun(t: string, j: nat): (n: nat)
    requires j <= |t|
    ensures j + n <= |t|
    ensures forall k :: j <= k < j + n ==> IsDigit(t[k])
    ensures j + n == |t| || !IsDigit(t[j + n])
  {
    Run(t, j, IsDigit)
  }

  /** A run is as long as any stretch of matching characters from its start. */
  lemma RunMaximal(t: string, j: nat, p: char -> bool, m: nat)
    requires j + m <= |t|
    requires forall k :: j <= k < j + m ==> p(t[k])
    ensures m <= Run(t, j, p)
  {
    var n := Run(t, j, p);
    if n < m {
      assert false;
    }
  }
}
