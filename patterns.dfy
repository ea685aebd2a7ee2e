/** The quantity regular expressions, as an explicit backtracking matcher.

    Both components search a text for `(\d+(?:\.\d+)?)` followed by a tail
    that ends in the food's name. A JavaScript regex search tries start
    positions left to right; at a start it tries the number's lengths in
    backtracking order (the longest digit run with the longest fraction
    first, the fraction shrinking, then the bare digit run shrinking), and the
    first length whose tail matches wins. The tail's own choices only decide
    whether it matches, so the captured number is the longest token at the
    leftmost start whose tail matches. Case-insensitive matching is modelled
    by matching the lowered text against the lowered name. */
module Patterns {
  import opened Js
  import opened Seqs
  import opened Text
  import opened Numbers

  /** One element of the part of a pattern that follows the number. */
  datatype Item =
    | Spaces(min: nat)              // `\s*` (min 0) or `\s+` (min 1)
    | OptWord(words: seq<string>)   // `(?:w1|w2|...)?`
    | OptDe                         // `(?:de\s+)?`
    | Word(w: string)               // the food's name, literally

  /** `w` occurs in `t` at `j`. */
  predicate Lit(t: string, j: nat, w: string) {
    j + |w| <= |t| && t[j..j + |w|] == w
  }

  /** Whether `items` match `t` from index `j` onwards (anything may follow). */
  function Matches(items: seq<Item>, t: string, j: nat): bool
    decreases |items|, 0, 0
  {
    if j > |t| then false
    else if items == [] then true
    else match items[0]
      case Spaces(m) =>
        MatchesBetween(items[1..], t, j + m, j + SpaceRun(t, j))
      case OptWord(ws) =>
        Matches(items[1..], t, j)
        || exists w :: w in ws && Lit(t, j, w) && Matches(items[1..], t, j + |w|)
      case OptDe =>
        Matches(items[1..], t, j)
        || (Lit(t, j, "de") && MatchesBetween(items[1..], t, j + 3, j + 2 + SpaceRun(t, j + 2)))
      case Word(w) =>
        Lit(t, j, w) && Matches(items[1..], t, j + |w|)
  }

  /** Whether `items` match from some index between `lo` and `hi`: the choice
      of how much white space `\s*` or `\s+` consumes. */
  function MatchesBetween(items: seq<Item>, t: string, lo: nat, hi: nat): (b: bool)
    ensures b <==> exists q :: lo <= q <= hi && Matches(items, t, q)
    decreases |items|, 1, hi - lo + 1
  {
    if lo > hi then false
    else if Matches(items, t, lo) then
      assert lo <= lo <= hi && Matches(items, t, lo);
      true
    else
      var b := MatchesBetween(items, t, lo + 1, hi);
      assert (exists q :: lo <= q <= hi && Matches(items, t, q)) ==> b by {
        if exists q :: lo <= q <= hi && Matches(items, t, q) {
          var q :| lo <= q <= hi && Matches(items, t, q);
          assert q != lo;
        }
      }
      assert b ==> exists q :: lo <= q <= hi && Matches(items, t, q) by {
        if b {
          var q :| lo + 1 <= q <= hi && Matches(items, t, q);
          assert lo <= q;
        }
      }
      b
  }

  // ---------------------------------------------------------------------
  // One item at a time: how a match is built, and how it fails.

  lemma WordTaken(w: string, rest: seq<Item>, t: string, j: nat)
    requires Lit(t, j, w) && Matches(rest, t, j + |w|)
    ensures Matches([Word(w)] + rest, t, j)
  {
    assert ([Word(w)] + rest)[1..] == rest;
  }

  lemma WordMissed(w: string, rest: seq<Item>, t: string, j: nat)
    requires !Lit(t, j, w)
    ensures !Matches([Word(w)] + rest, t, j)
  {
  }

  lemma SpacesTaken(rest: seq<Item>, t: string, j: nat, q: nat)
    requires j <= |t| && j <= q <= j + SpaceRun(t, j) && Matches(rest, t, q)
    ensures Matches([Spaces(0)] + rest, t, j)
  {
    assert ([Spaces(0)] + rest)[1..] == rest;
  }

  lemma SpacesMissed(rest: seq<Item>, t: string, j: nat)
    requires j <= |t| && forall q :: j <= q <= j + SpaceRun(t, j) ==> !Matches(rest, t, q)
    ensures !Matches([Spaces(0)] + rest, t, j)
  {
    assert ([Spaces(0)] + rest)[1..] == rest;
  }

  lemma UnitTaken(ws: seq<string>, w: string, rest: seq<Item>, t: string, j: nat)
    requires w in ws && Lit(t, j, w) && Matches(rest, t, j + |w|)
    ensures Matches([OptWord(ws)] + rest, t, j)
  {
    assert ([OptWord(ws)] + rest)[1..] == rest;
  }

  lemma UnitSkipped(ws: seq<string>, rest: seq<Item>, t: string, j: nat)
    requires Matches(rest, t, j)
    ensures Matches([OptWord(ws)] + rest, t, j)
  {
    assert ([OptWord(ws)] + rest)[1..] == rest;
  }

  lemma UnitMissed(ws: seq<string>, rest: seq<Item>, t: string, j: nat)
    requires !Matches(rest, t, j) && forall w :: w in ws ==> !Lit(t, j, w)
    ensures !Matches([OptWord(ws)] + rest, t, j)
  {
    assert ([OptWord(ws)] + rest)[1..] == rest;
  }

  lemma DeTaken(rest: seq<Item>, t: string, j: nat, q: nat)
    requires Lit(t, j, "de") && j + 3 <= q <= j + 2 + SpaceRun(t, j + 2) && Matches(rest, t, q)
    ensures Matches([OptDe] + rest, t, j)
  {
    assert ([OptDe] + rest)[1..] == rest;
  }

  lemma DeMissed(rest: seq<Item>, t: string, j: nat)
    requires !Matches(rest, t, j) && !Lit(t, j, "de")
    ensures !Matches([OptDe] + rest, t, j)
  {
    assert ([OptDe] + rest)[1..] == rest;
  }

  /** The chat's tail, item by item. */
  lemma ChatTailItems(name: string)
    ensures ChatTail(name) == [Spaces(0)] + ([OptWord(ChatUnits)] + ([Spaces(0)] + ([OptDe] + ([Word(name)] + []))))
  {
  }

  /** The assistant's tail, item by item. */
  lemma AssistantTailItems(name: string)
    ensures AssistantTail(name) == [Spaces(0)] + ([OptWord(AssistantUnits)] + ([Spaces(0)] + ([Word(name)] + [])))
  {
  }

  /** The unit words of the chat: `g|gramos?|gr|ml|mililitros?`. */
  const ChatUnits: seq<string> := ["g", "gramos", "gramo", "gr", "ml", "mililitros", "mililitro"]

  /** The unit words of the assistant: `g|gramos?|gr`. */
  const AssistantUnits: seq<string> := ["g", "gramos", "gramo", "gr"]

  /** `\s*(?:g|gramos?|gr|ml|mililitros?)?\s*(?:de\s+)?name`. */
  function ChatTail(name: string): seq<Item> {
    [Spaces(0), OptWord(ChatUnits), Spaces(0), OptDe, Word(name)]
  }

  /** `\s*(?:g|gramos?|gr)?\s*name`. */
  function AssistantTail(name: string): seq<Item> {
    [Spaces(0), OptWord(AssistantUnits), Spaces(0), Word(name)]
  }

  /** `\s+name`, the second, simpler pattern of both components. */
  function SimpleTail(name: string): seq<Item> {
    [Spaces(1), Word(name)]
  }

  // ---------------------------------------------------------------------
  // The number group `(\d+(?:\.\d+)?)`.

  /** `s` is a whole match of `\d+(?:\.\d+)?`. */
  predicate IsNumberToken(s: string) {
    (|s| >= 1 && AllDigits(s))
    || exists p :: 1 <= p && p + 1 < |s| && AllDigits(s[..p]) && s[p] == '.' && AllDigits(s[p + 1..])
  }

  /** Every character of a number token is a digit or its point. */
  lemma TokenChars(w: string, k: nat)
    requires k < |w|
    ensures IsNumberToken(w) ==> IsDigit(w[k]) || w[k] == '.'
  {
    if IsNumberToken(w) && !AllDigits(w) {
      var p :| 1 <= p && p + 1 < |w| && AllDigits(w[..p]) && w[p] == '.' && AllDigits(w[p + 1..]);
      if k < p {
        assert w[..p][k] == w[k];
      } else if k > p {
        assert w[p + 1..][k - p - 1] == w[k];
      }
    }
  }

  /** The second character of a number token is a digit or its point. */
  lemma TokenSecondChar(w: string)
    requires |w| >= 2
    ensures IsNumberToken(w) ==> IsDigit(w[1]) || w[1] == '.'
  {
    if IsNumberToken(w) && !AllDigits(w) {
      var p :| 1 <= p && p + 1 < |w| && AllDigits(w[..p]) && w[p] == '.' && AllDigits(w[p + 1..]);
      if p > 1 {
        assert w[..p][1] == w[1];
      }
    }
  }

  /** The ends of the tokens the number group can match at `i`, in the order
      the engine tries them: digits with the longest fraction first, then
      shorter fractions, then ever shorter digit runs. */
  function NumberEnds(t: string, i: nat): (ends: seq<nat>)
    requires i < |t| && IsDigit(t[i])
    ensures forall a, b :: 0 <= a < b < |ends| ==> ends[a] > ends[b]
    ensures forall a :: 0 <= a < |ends| ==> i < ends[a] <= |t|
  {
    var r := DigitRun(t, i);
    var f := if i + r < |t| && t[i + r] == '.' then DigitRun(t, i + r + 1) else 0;
    seq(f, a requires 0 <= a < f => i + r + 1 + f - a) + seq(r, a requires 0 <= a < r => i + r - a)
  }

  lemma DigitsSlice(t: string, i: nat, e: nat)
    requires i <= e <= |t|
    requires forall k :: i <= k < e ==> IsDigit(t[k])
    ensures AllDigits(t[i..e])
  {
  }

  /** Every candidate end delimits a number token... */
  lemma {:induction false} NumberEndsAreTokens(t: string, i: nat, e: nat)
    requires i < |t| && IsDigit(t[i])
    requires e in NumberEnds(t, i)
    ensures IsNumberToken(t[i..e])
  {
    var r := DigitRun(t, i);
    var s := t[i..e];
    if e <= i + r {
      DigitsSlice(t, i, e);
    } else {
      var p := r;
      assert t[i + r] == '.';
      assert s[..p] == t[i..i + r];
      DigitsSlice(t, i, i + r);
      assert s[p + 1..] == t[i + r + 1..e];
      DigitsSlice(t, i + r + 1, e);
      assert 1 <= p && p + 1 < |s| && AllDigits(s[..p]) && s[p] == '.' && AllDigits(s[p + 1..]);
    }
  }

  /** ...and every number token starting at `i` ends at a candidate end. */
  lemma TokensAreNumberEnds(t: string, i: nat, e: nat)
    requires i < |t| && IsDigit(t[i])
    requires i < e <= |t| && IsNumberToken(t[i..e])
    ensures e in NumberEnds(t, i)
  {
    var s := t[i..e];
    if AllDigits(s) {
      IntegerEnd(t, i, e);
    } else {
      var p :| 1 <= p && p + 1 < |s| && AllDigits(s[..p]) && s[p] == '.' && AllDigits(s[p + 1..]);
      FractionEnd(t, i, e, p);
    }
  }

  lemma IntegerEnd(t: string, i: nat, e: nat)
    requires i < |t| && IsDigit(t[i])
    requires i < e <= |t| && AllDigits(t[i..e])
    ensures e in NumberEnds(t, i)
  {
    var r := DigitRun(t, i);
    var ends := NumberEnds(t, i);
    var f := if i + r < |t| && t[i + r] == '.' then DigitRun(t, i + r + 1) else 0;
    SliceDigits(t, i, e);
    RunMaximal(t, i, IsDigit, e - i);
    assert ends[f + (r - (e - i))] == e;
  }

  lemma FractionEnd(t: string, i: nat, e: nat, p: nat)
    requires i < |t| && IsDigit(t[i])
    requires i < e <= |t|
    requires var s := t[i..e];
      1 <= p && p + 1 < |s| && AllDigits(s[..p]) && s[p] == '.' && AllDigits(s[p + 1..])
    ensures e in NumberEnds(t, i)
  {
    assert t[i..e][..p] == t[i..i + p];
    assert t[i..e][p + 1..] == t[i + p + 1..e];
    SliceDigits(t, i, i + p);
    SliceDigits(t, i + p + 1, e);
    RunExact(t, i, IsDigit, p);
    FractionEndAt(t, i, e, p);
  }

  lemma FractionEndAt(t: string, i: nat, e: nat, p: nat)
    requires i < |t| && IsDigit(t[i])
    requires i + p + 1 < e <= |t| && DigitRun(t, i) == p && t[i + p] == '.'
    requires forall k :: i + p + 1 <= k < e ==> IsDigit(t[k])
    ensures e in NumberEnds(t, i)
  {
    var ends := NumberEnds(t, i);
    var f := DigitRun(t, i + p + 1);
    RunMaximal(t, i + p + 1, IsDigit, e - (i + p + 1));
    assert ends[f - (e - (i + p + 1))] == e;
  }

  /** Every character of a slice of digits is a digit. */
  lemma SliceDigits(t: string, lo: nat, hi: nat)
    requires lo <= hi <= |t| && AllDigits(t[lo..hi])
    ensures forall k :: lo <= k < hi ==> IsDigit(t[k])
  {
    forall k | lo <= k < hi ensures IsDigit(t[k]) {
      assert t[k] == t[lo..hi][k - lo];
    }
  }

  /** The value `parseFloat` gives a number token. */
  function TokenValue(s: string): (v: real)
    requires IsNumberToken(s)
    ensures ParseFloat(s) == Num(v)
  {
    TokenParses(s);
    ParseFloat(s).v
  }

  lemma PointTokenParses(s: string, p: nat)
    requires 1 <= p && p + 1 < |s| && AllDigits(s[..p]) && s[p] == '.' && AllDigits(s[p + 1..])
    ensures ParseUnsigned(s).Num?
  {
    var a, b := s[..p], s[p + 1..];
    assert s == a + "." + b;
    ParseDigitsPointDigits(a, b);
  }

  lemma TokenParses(s: string)
    requires IsNumberToken(s)
    ensures ParseFloat(s).Num?
  {
    ParseFloatDigitLed(s);
    if AllDigits(s) {
      ParseDigits(s);
    } else {
      var p :| 1 <= p && p + 1 < |s| && AllDigits(s[..p]) && s[p] == '.' && AllDigits(s[p + 1..]);
      PointTokenParses(s, p);
    }
  }

  // ---------------------------------------------------------------------
  // The search.

  /** The whole pattern matches with its number starting at `i`. */
  predicate MatchAt(t: string, i: nat, tail: seq<Item>) {
    i < |t| && IsDigit(t[i]) && exists e :: e in NumberEnds(t, i) && Matches(tail, t, e)
  }

  /** The first candidate end at `i` whose tail matches: the longest token
      that lets the whole pattern match. */
  function FirstEnd(t: string, i: nat, tail: seq<Item>): Option<nat>
    requires i < |t| && IsDigit(t[i])
  {
    Find(NumberEnds(t, i), TailMatchesAt(t, tail))
  }

  /** The test `FirstEnd` applies to each candidate end. */
  function TailMatchesAt(t: string, tail: seq<Item>): nat -> bool {
    (e: nat) => Matches(tail, t, e)
  }

  lemma FirstEndSpec(t: string, i: nat, tail: seq<Item>)
    requires i < |t| && IsDigit(t[i])
    ensures var r := FirstEnd(t, i, tail);
      && (r.None? <==> !MatchAt(t, i, tail))
      && (r.Some? ==> r.value in NumberEnds(t, i) && Matches(tail, t, r.value))
      && (r.Some? ==> forall e :: e in NumberEnds(t, i) && e > r.value ==> !Matches(tail, t, e))
  {
    var ends := NumberEnds(t, i);
    FindInDescending(ends, TailMatchesAt(t, tail));
    if FirstEnd(t, i, tail).None? {
      assert forall e :: e in ends ==> !Matches(tail, t, e);
    }
  }

  /** In a strictly decreasing sequence, nothing larger than the first hit
      is a hit. */
  lemma FindInDescending(s: seq<nat>, p: nat -> bool)
    requires forall a, b :: 0 <= a < b < |s| ==> s[a] > s[b]
    ensures var r := Find(s, p); r.Some? ==> forall e :: e in s && e > r.value ==> !p(e)
  {
    var r := Find(s, p);
    if r.Some? {
      var a :| 0 <= a < |s| && s[a] == r.value && forall k :: 0 <= k < a ==> !p(s[k]);
      forall b | 0 <= b < |s| && s[b] > s[a] ensures !p(s[b]) {
        assert s[a] > s[b] || b <= a;
      }
    }
  }

  /** The regex search from index `i`: the leftmost start at which the
      pattern matches, with the end of the captured number. */
  function Search(t: string, i: nat, tail: seq<Item>): Option<(nat, nat)>
    requires i <= |t|
    decreases |t| - i
  {
    if i == |t| then None
    else if IsDigit(t[i]) && FirstEnd(t, i, tail).Some? then Some((i, FirstEnd(t, i, tail).value))
    else Search(t, i + 1, tail)
  }

  /** The search finds nothing exactly when the pattern matches at no start. */
  lemma {:induction false} SearchNone(t: string, i: nat, tail: seq<Item>)
    requires i <= |t|
    ensures Search(t, i, tail).None? <==> forall s :: i <= s < |t| ==> !MatchAt(t, s, tail)
    decreases |t| - i
  {
    if i < |t| {
      if IsDigit(t[i]) {
        FirstEndSpec(t, i, tail);
      }
      if !(IsDigit(t[i]) && FirstEnd(t, i, tail).Some?) {
        assert !MatchAt(t, i, tail);
        assert Search(t, i, tail) == Search(t, i + 1, tail);
        SearchNone(t, i + 1, tail);
      } else {
        assert Search(t, i, tail) == Some((i, FirstEnd(t, i, tail).value));
      }
    }
  }

  /** What the search finds is a start where the pattern matches, with the
      end `FirstEnd` picks there. */
  lemma {:induction false} SearchFound(t: string, i: nat, tail: seq<Item>)
    requires i <= |t|
    ensures var r := Search(t, i, tail);
      r.Some? ==> i <= r.value.0 < |t| && MatchAt(t, r.value.0, tail) && FirstEnd(t, r.value.0, tail) == Some(r.value.1)
    decreases |t| - i
  {
    if i < |t| {
      if IsDigit(t[i]) {
        FirstEndSpec(t, i, tail);
      }
      if !(IsDigit(t[i]) && FirstEnd(t, i, tail).Some?) {
        assert !MatchAt(t, i, tail);
        assert Search(t, i, tail) == Search(t, i + 1, tail);
        SearchFound(t, i + 1, tail);
      } else {
        assert Search(t, i, tail) == Some((i, FirstEnd(t, i, tail).value));
      }
    }
  }

  /** No earlier start matches than the one the search finds. */
  lemma {:induction false} SearchLeftmost(t: string, i: nat, tail: seq<Item>)
    requires i <= |t|
    ensures var r := Search(t, i, tail);
      r.Some? ==> forall s' :: i <= s' < r.value.0 ==> !MatchAt(t, s', tail)
    decreases |t| - i
  {
    if i < |t| {
      if IsDigit(t[i]) {
        FirstEndSpec(t, i, tail);
      }
      if !(IsDigit(t[i]) && FirstEnd(t, i, tail).Some?) {
        assert !MatchAt(t, i, tail);
        assert Search(t, i, tail) == Search(t, i + 1, tail);
        SearchLeftmost(t, i + 1, tail);
        SearchFound(t, i + 1, tail);
      } else {
        assert Search(t, i, tail) == Some((i, FirstEnd(t, i, tail).value));
      }
    }
  }

  /** The three facts together: the regex search semantics. */
  lemma SearchSpec(t: string, i: nat, tail: seq<Item>)
    requires i <= |t|
    ensures var r := Search(t, i, tail);
      && (r.None? <==> forall s :: i <= s < |t| ==> !MatchAt(t, s, tail))
      && (r.Some? ==> i <= r.value.0 < |t| && MatchAt(t, r.value.0, tail))
      && (r.Some? ==> FirstEnd(t, r.value.0, tail) == Some(r.value.1))
      && (r.Some? ==> forall s' :: i <= s' < r.value.0 ==> !MatchAt(t, s', tail))
  {
    SearchNone(t, i, tail);
    SearchFound(t, i, tail);
    SearchLeftmost(t, i, tail);
  }

  /** `parseFloat(match[1])` of the search, if the pattern matches. */
  function Extract(t: string, tail: seq<Item>): Option<real> {
    match Search(t, 0, tail)
    case None => None
    case Some((s, e)) =>
      SearchSpec(t, 0, tail);
      FirstEndSpec(t, s, tail);
      NumberEndsAreTokens(t, s, e);
      Some(TokenValue(t[s..e]))
  }

  /** The pattern reads nothing exactly when it matches at no start. */
  lemma ExtractNone(t: string, tail: seq<Item>)
    ensures Extract(t, tail).None? <==> forall s :: 0 <= s < |t| ==> !MatchAt(t, s, tail)
  {
    SearchSpec(t, 0, tail);
  }

  /** What `Extract` returns is the value of the longest number token, at the
      leftmost start where the pattern matches, whose tail matches. */
  lemma ExtractSpec(t: string, tail: seq<Item>, s: nat, e: nat)
    requires s < e <= |t| && IsNumberToken(t[s..e]) && Matches(tail, t, e)
    requires forall s' :: 0 <= s' < s ==> !MatchAt(t, s', tail)
    requires forall e' :: s < e' <= |t| && e' > e && IsNumberToken(t[s..e']) ==> !Matches(tail, t, e')
    ensures Extract(t, tail) == Some(TokenValue(t[s..e]))
  {
    assert IsDigit(t[s]) by {
      if !AllDigits(t[s..e]) {
        var p :| 1 <= p && p + 1 < |t[s..e]| && AllDigits(t[s..e][..p]) && t[s..e][p] == '.' && AllDigits(t[s..e][p + 1..]);
        assert t[s] == t[s..e][..p][0];
      } else {
        assert t[s] == t[s..e][0];
      }
    }
    TokensAreNumberEnds(t, s, e);
    assert MatchAt(t, s, tail);
    SearchSpec(t, 0, tail);
    var r := Search(t, 0, tail);
    var (s1, e1) := r.value;
    assert s1 == s;
    FirstEndSpec(t, s, tail);
    var fe := FirstEnd(t, s, tail).value;
    NumberEndsAreTokens(t, s, fe);
    assert e <= fe;
    assert fe <= e;
  }

  // ---------------------------------------------------------------------
  // Relations between the patterns.

  /** A match of the simple tail is a match of the full chat tail. */
  lemma SimpleImpliesChat(name: string, t: string, e: nat)
    requires Matches(SimpleTail(name), t, e)
    ensures Matches(ChatTail(name), t, e)
  {
    var simple, full := SimpleTail(name), ChatTail(name);
    var q :| e + 1 <= q <= e + SpaceRun(t, e) && Matches(simple[1..], t, q);
    assert full[4..] == simple[1..];
    assert Matches(full[3..], t, q);
    assert Matches(full[2..], t, q);
    assert Matches(full[1..], t, q);
  }

  /** A match of the simple tail is a match of the assistant's tail. */
  lemma SimpleImpliesAssistant(name: string, t: string, e: nat)
    requires Matches(SimpleTail(name), t, e)
    ensures Matches(AssistantTail(name), t, e)
  {
    var simple, full := SimpleTail(name), AssistantTail(name);
    var q :| e + 1 <= q <= e + SpaceRun(t, e) && Matches(simple[1..], t, q);
    assert full[3..] == simple[1..];
    assert Matches(full[2..], t, q);
    assert Matches(full[1..], t, q);
  }

  /** Wherever the simple pattern matches, so does the chat's. */
  lemma SimpleMatchAtChat(name: string, t: string, s: nat)
    ensures MatchAt(t, s, SimpleTail(name)) ==> MatchAt(t, s, ChatTail(name))
  {
    if MatchAt(t, s, SimpleTail(name)) {
      var e :| e in NumberEnds(t, s) && Matches(SimpleTail(name), t, e);
      SimpleImpliesChat(name, t, e);
    }
  }

  /** Wherever the simple pattern matches, so does the assistant's. */
  lemma SimpleMatchAtAssistant(name: string, t: string, s: nat)
    ensures MatchAt(t, s, SimpleTail(name)) ==> MatchAt(t, s, AssistantTail(name))
  {
    if MatchAt(t, s, SimpleTail(name)) {
      var e :| e in NumberEnds(t, s) && Matches(SimpleTail(name), t, e);
      SimpleImpliesAssistant(name, t, e);
    }
  }

  /** The second pattern never decides a quantity in the chat: it is only tried
      when the first one fails, and then it fails too. */
  lemma SimpleNeverDecidesChat(name: string, t: string)
    requires Extract(t, ChatTail(name)).None?
    ensures Extract(t, SimpleTail(name)).None?
  {
    ExtractNone(t, ChatTail(name));
    forall s | 0 <= s < |t| ensures !MatchAt(t, s, SimpleTail(name)) {
      SimpleMatchAtChat(name, t, s);
    }
    ExtractNone(t, SimpleTail(name));
  }

  /** Likewise for the assistant's fallback pattern. */
  lemma SimpleNeverDecidesAssistant(name: string, t: string)
    requires Extract(t, AssistantTail(name)).None?
    ensures Extract(t, SimpleTail(name)).None?
  {
    ExtractNone(t, AssistantTail(name));
    forall s | 0 <= s < |t| ensures !MatchAt(t, s, SimpleTail(name)) {
      SimpleMatchAtAssistant(name, t, s);
    }
    ExtractNone(t, SimpleTail(name));
  }

  /** Items that end with a word match only where that word occurs later on. */
  lemma {:induction false} MatchesFindsWord(items: seq<Item>, w: string, t: string, j: nat)
    requires Matches(items + [Word(w)], t, j)
    ensures exists p :: j <= p && Occurs(t, w, p)
    decreases |items|
  {
    var all := items + [Word(w)];
    if items == [] {
      assert Occurs(t, w, j);
    } else {
      assert all[1..] == items[1..] + [Word(w)];
      match items[0]
      case Spaces(m) =>
        var q :| j + m <= q <= j + SpaceRun(t, j) && Matches(all[1..], t, q);
        MatchesFindsWord(items[1..], w, t, q);
      case OptWord(ws) =>
        if Matches(all[1..], t, j) {
          MatchesFindsWord(items[1..], w, t, j);
        } else {
          var u :| u in ws && Lit(t, j, u) && Matches(all[1..], t, j + |u|);
          MatchesFindsWord(items[1..], w, t, j + |u|);
        }
      case OptDe =>
        if Matches(all[1..], t, j) {
          MatchesFindsWord(items[1..], w, t, j);
        } else {
          var q :| j + 3 <= q <= j + 2 + SpaceRun(t, j + 2) && Matches(all[1..], t, q);
          MatchesFindsWord(items[1..], w, t, q);
        }
      case Word(v) =>
        MatchesFindsWord(items[1..], w, t, j + |v|);
    }
  }

  /** Wherever the chat's pattern matches, the text contains the name. */
  lemma ChatMatchHasName(name: string, t: string, s: nat)
    ensures MatchAt(t, s, ChatTail(name)) ==> Includes(t, name)
  {
    if MatchAt(t, s, ChatTail(name)) {
      var e :| e in NumberEnds(t, s) && Matches(ChatTail(name), t, e);
      var front := [Spaces(0), OptWord(ChatUnits), Spaces(0), OptDe];
      assert ChatTail(name) == front + [Word(name)];
      MatchesFindsWord(front, name, t, e);
    }
  }

  /** The chat's pattern only matches a text that contains the name, so a
      food recognised by another rule keeps the default quantity. */
  lemma ChatNeedsName(name: string, t: string)
    requires !Includes(t, name)
    ensures Extract(t, ChatTail(name)).None?
  {
    forall s | 0 <= s < |t| ensures !MatchAt(t, s, ChatTail(name)) {
      ChatMatchHasName(name, t, s);
    }
    ExtractNone(t, ChatTail(name));
  }

  // ---------------------------------------------------------------------
  // `\b(g|gramos?|gr|ml|mililitros?)\b`.

  /** A unit word stands alone at `p`: the characters around it are not word
      characters (or it touches the ends of the text). */
  predicate UnitWordAt(t: string, p: nat, units: seq<string>) {
    exists w :: w in units && Lit(t, p, w)
      && (p == 0 || !IsWordChar(t[p - 1]))
      && (p + |w| == |t| || !IsWordChar(t[p + |w|]))
  }

  /** The text contains a standalone unit word. */
  predicate HasUnitWord(t: string) {
    exists p :: 0 <= p < |t| && UnitWordAt(t, p, ChatUnits)
  }

  /** A unit glued to the digits before it (`100g`) is not a standalone word. */
  lemma GluedUnitIsNotWord(t: string, p: nat)
    requires 0 < p <= |t| && IsDigit(t[p - 1])
    ensures !UnitWordAt(t, p, ChatUnits)
  {
  }
}
