/** String helpers that the views rely on: Python's `str.strip()` and
    `str.split()`, Django's case-insensitive `iexact` and `icontains` lookups,
    and the truthiness test the views apply to request values. */
module Text {

  /** Python's `str.isspace`: tab, newline, vertical tab, form feed and
      carriage return, the four information separators, space, next line,
      no-break space, and the other Unicode space and separator characters. */
  predicate IsSpace(c: char) {
    ('\U{0009}' <= c <= '\U{000D}') || ('\U{001C}' <= c <= '\U{0020}')
    || c == '\U{0085}' || c == '\U{00A0}' || c == '\U{1680}'
    || ('\U{2000}' <= c <= '\U{200A}') || c == '\U{2028}' || c == '\U{2029}'
    || c == '\U{202F}' || c == '\U{205F}' || c == '\U{3000}'
  }

  /** Truthiness of a request string (`positive_value_exists` on a string):
      taken here as "not empty". */
  predicate Positive(s: string) {
    |s| > 0
  }

  function Lower(c: char): (r: char)
    ensures 'A' <= c <= 'Z' ==> 'a' <= r <= 'z'
    ensures !('A' <= c <= 'Z') ==> r == c
  {
    if 'A' <= c <= 'Z' then (c as int + 32) as char else c
  }

  function LowerString(s: string): (r: string)
    ensures |r| == |s|
    ensures forall i :: 0 <= i < |s| ==> r[i] == Lower(s[i])
  {
    seq(|s|, i requires 0 <= i < |s| => Lower(s[i]))
  }

  /** Django `field__iexact=value`. */
  predicate IEquals(a: string, b: string) {
    LowerString(a) == LowerString(b)
  }

  /** `needle` occurs in `hay` starting at index `k`. */
  predicate OccursAt(needle: string, hay: string, k: int) {
    0 <= k && k + |needle| <= |hay| && hay[k..k + |needle|] == needle
  }

  /** Django `field__icontains=needle`: a case-insensitive substring test. */
  predicate IContains(hay: string, needle: string) {
    exists k :: 0 <= k <= |hay| - |needle| && OccursAt(LowerString(needle), LowerString(hay), k)
  }

  /** Django `field__startswith=prefix` (case-sensitive). */
  predicate StartsWith(s: string, prefix: string) {
    |prefix| <= |s| && s[..|prefix|] == prefix
  }

  lemma IContainsEmpty(hay: string)
    ensures IContains(hay, "")
  {
    assert OccursAt(LowerString(""), LowerString(hay), 0);
  }

  /** A case-insensitively equal pair contains each other. */
  lemma IEqualsContains(a: string, b: string)
    requires IEquals(a, b)
    ensures IContains(a, b) && IContains(b, a)
  {
    assert |a| == |b|;
    assert LowerString(a)[0..|a|] == LowerString(a);
    assert OccursAt(LowerString(b), LowerString(a), 0);
    assert OccursAt(LowerString(a), LowerString(b), 0);
  }

  // ---------------------------------------------------------------- strip

  function TrimLeft(s: string): (r: string)
    ensures |r| <= |s| && r == s[|s| - |r|..]
    ensures r == [] || !IsSpace(r[0])
    ensures forall i :: 0 <= i < |s| - |r| ==> IsSpace(s[i])
  {
    if s == [] || !IsSpace(s[0]) then s else TrimLeft(s[1..])
  }

  /** Python `s.strip()`: drops whitespace at the front, then at the back,
      until the value neither starts nor ends with whitespace. */
  function Strip(s: string): (r: string)
    ensures |r| <= |s|
    ensures r == [] || (!IsSpace(r[0]) && !IsSpace(r[|r| - 1]))
    decreases |s|
  {
    if s != [] && IsSpace(s[0]) then Strip(s[1..])
    else if s != [] && IsSpace(s[|s| - 1]) then Strip(s[..|s| - 1])
    else s
  }

  /** Where `Strip(s)` starts within `s`. */
  function StripOffset(s: string): nat
    decreases |s|
  {
    if s != [] && IsSpace(s[0]) then 1 + StripOffset(s[1..])
    else if s != [] && IsSpace(s[|s| - 1]) then StripOffset(s[..|s| - 1])
    else 0
  }

  /** The stripped value is a piece of the original, and what lies before
      and after it is whitespace. */
  lemma {:induction false} StripIsInfix(s: string)
    ensures OccursAt(Strip(s), s, StripOffset(s))
    ensures forall i :: 0 <= i < StripOffset(s) ==> IsSpace(s[i])
    ensures forall i :: StripOffset(s) + |Strip(s)| <= i < |s| ==> IsSpace(s[i])
    decreases |s|, 1
  {
    if s != [] && IsSpace(s[0]) {
      StripFrontIsInfix(s);
    } else if s != [] && IsSpace(s[|s| - 1]) {
      StripBackIsInfix(s);
    } else {
      assert s[0..|s|] == s;
    }
  }

  /** `StripIsInfix` when the value starts with whitespace. */
  lemma {:induction false} StripFrontIsInfix(s: string)
    requires s != [] && IsSpace(s[0])
    ensures OccursAt(Strip(s), s, StripOffset(s))
    ensures forall i :: 0 <= i < StripOffset(s) ==> IsSpace(s[i])
    ensures forall i :: StripOffset(s) + |Strip(s)| <= i < |s| ==> IsSpace(s[i])
    decreases |s|, 0
  {
    var t := s[1..];
    var r, k := Strip(t), StripOffset(t) + 1;
    StripIsInfix(t);
    assert OccursAt(r, s, k) by {
      assert s[k..k + |r|] == t[k - 1..k - 1 + |r|];
    }
    forall i | 0 < i < |s| ensures s[i] == t[i - 1] { }
  }

  /** `StripIsInfix` when the value ends, but does not start, with
      whitespace. */
  lemma {:induction false} StripBackIsInfix(s: string)
    requires s != [] && !IsSpace(s[0]) && IsSpace(s[|s| - 1])
    ensures OccursAt(Strip(s), s, StripOffset(s))
    ensures forall i :: 0 <= i < StripOffset(s) ==> IsSpace(s[i])
    ensures forall i :: StripOffset(s) + |Strip(s)| <= i < |s| ==> IsSpace(s[i])
    decreases |s|, 0
  {
    var t := s[..|s| - 1];
    var r, k := Strip(t), StripOffset(t);
    StripIsInfix(t);
    assert OccursAt(r, s, k) by {
      assert s[k..k + |r|] == t[k..k + |r|];
    }
    forall i | 0 <= i < |s| - 1 ensures s[i] == t[i] { }
  }

  /** A value without surrounding whitespace is kept as it is. */
  lemma StripNoop(s: string)
    requires s == [] || (!IsSpace(s[0]) && !IsSpace(s[|s| - 1]))
    ensures Strip(s) == s
  {
  }

  /** Stripping twice is stripping once. */
  lemma StripIdempotent(s: string)
    ensures Strip(Strip(s)) == Strip(s)
  {
    StripNoop(Strip(s));
  }

  /** Only all-whitespace values strip to the empty string. */
  lemma {:induction false} StripEmptyIff(s: string)
    ensures Strip(s) == [] <==> forall i :: 0 <= i < |s| ==> IsSpace(s[i])
    decreases |s|
  {
    if s != [] && IsSpace(s[0]) {
      StripEmptyIff(s[1..]);
      assert forall i :: 0 <= i < |s| - 1 ==> s[1..][i] == s[i + 1];
    } else if s != [] && IsSpace(s[|s| - 1]) {
      StripEmptyIff(s[..|s| - 1]);
      assert forall i :: 0 <= i < |s| - 1 ==> s[..|s| - 1][i] == s[i];
    }
  }

  // ---------------------------------------------------------------- split

  /** The first whitespace-free run of `s` (s must not start with whitespace). */
  function FirstWord(s: string): (w: string)
    ensures |w| <= |s| && w == s[..|w|]
    ensures forall i :: 0 <= i < |w| ==> !IsSpace(w[i])
    ensures |w| == |s| || IsSpace(s[|w|])
  {
    if s == [] || IsSpace(s[0]) then [] else [s[0]] + FirstWord(s[1..])
  }

  /** Python `s.split()` with no separator: the maximal runs of
      non-whitespace characters, in order. */
  function Words(s: string): (ws: seq<string>)
    decreases |s|
  {
    var t := TrimLeft(s);
    if t == [] then []
    else
      var w := FirstWord(t);
      [w] + Words(t[|w|..])
  }

  /** A non-empty run of non-whitespace characters. */
  predicate IsWord(w: string) {
    |w| > 0 && forall i :: 0 <= i < |w| ==> !IsSpace(w[i])
  }

  /** Every word that `split()` yields is non-empty and holds no whitespace. */
  lemma {:induction false} WordsAreWords(s: string)
    ensures forall w :: w in Words(s) ==> IsWord(w)
    decreases |s|
  {
    var t := TrimLeft(s);
    if t != [] {
      var w := FirstWord(t);
      WordsAreWords(t[|w|..]);
      assert Words(s) == [w] + Words(t[|w|..]);
    }
  }

  /** `split()` yields no word exactly when the value is all whitespace. */
  lemma {:induction false} WordsEmptyIff(s: string)
    ensures Words(s) == [] <==> forall i :: 0 <= i < |s| ==> IsSpace(s[i])
  {
    var t := TrimLeft(s);
    if t != [] {
      assert !IsSpace(s[|s| - |t|]);
    }
  }

  /** Leading whitespace is skipped one character at a time. */
  lemma TrimLeftSkips(s: string)
    requires s != [] && IsSpace(s[0])
    ensures TrimLeft(s) == TrimLeft(s[1..])
  {
  }

  /** A value that does not start with whitespace is already trimmed. */
  lemma TrimLeftKeeps(s: string)
    requires s == [] || !IsSpace(s[0])
    ensures TrimLeft(s) == s
  {
  }

  lemma TakeOfTail(s: string, k: nat)
    requires 0 < k <= |s|
    ensures s[..k][1..] == s[1..][..k - 1] && s[..k][0] == s[0]
  {
  }

  /** The first word stops at or before any whitespace character. */
  lemma {:induction false} FirstWordBeforeSpace(t: string, m: nat)
    requires m < |t| && IsSpace(t[m])
    ensures |FirstWord(t)| <= m
  {
    var w := FirstWord(t);
    if m < |w| {
      assert false;
    }
  }

  /** A whitespace-free value is its own first word. */
  lemma {:induction false} FirstWordWhole(w: string)
    requires forall i :: 0 <= i < |w| ==> !IsSpace(w[i])
    ensures FirstWord(w) == w
    decreases |w|
  {
    if w != [] {
      assert !IsSpace(w[0]);
      assert forall i :: 0 <= i < |w| - 1 ==> w[1..][i] == w[i + 1];
      FirstWordWhole(w[1..]);
    }
  }

  /** A single word splits into itself. */
  lemma WordsOfWord(w: string)
    requires IsWord(w)
    ensures Words(w) == [w]
  {
    TrimLeftKeeps(w);
    FirstWordWhole(w);
    var rest := w[|w|..];
    assert rest == [];
    assert Words(rest) == [];
    WordsTake(w);
  }

  /** `split()` skips a leading whitespace character. */
  lemma WordsSkip(s: string)
    requires s != [] && IsSpace(s[0])
    ensures Words(s) == Words(s[1..])
  {
    TrimLeftSkips(s);
  }

  /** `split()` of a value that starts with a word takes that word off the
      front. */
  lemma WordsTake(s: string)
    requires s != [] && !IsSpace(s[0])
    ensures Words(s) == [FirstWord(s)] + Words(s[|FirstWord(s)|..])
  {
    TrimLeftKeeps(s);
  }

  /** Cutting a value at a whitespace character cuts its word list in two:
      the words before the cut and the words after it. */
  lemma {:induction false} WordsSplitAtSpace(s: string, k: nat)
    requires k < |s| && IsSpace(s[k])
    ensures Words(s) == Words(s[..k]) + Words(s[k..])
    decreases |s|, 1
  {
    if k == 0 {
      assert s[..0] == [];
      assert s[0..] == s;
    } else if IsSpace(s[0]) {
      SplitAfterSpace(s, k);
    } else {
      SplitAfterWord(s, k);
    }
  }

  /** `WordsSplitAtSpace` when the value starts with whitespace. */
  lemma {:induction false} SplitAfterSpace(s: string, k: nat)
    requires 0 < k < |s| && IsSpace(s[k]) && IsSpace(s[0])
    ensures Words(s) == Words(s[..k]) + Words(s[k..])
    decreases |s|, 0
  {
    var s1 := s[1..];
    var p := s[..k];
    TakeOfTail(s, k);
    WordsSkip(s);
    WordsSkip(p);
    WordsSplitAtSpace(s1, k - 1);
    assert s1[k - 1..] == s[k..];
  }

  /** `WordsSplitAtSpace` when the value starts with a word. */
  lemma {:induction false} SplitAfterWord(s: string, k: nat)
    requires k < |s| && IsSpace(s[k]) && !IsSpace(s[0])
    ensures Words(s) == Words(s[..k]) + Words(s[k..])
    decreases |s|, 0
  {
    var w := FirstWord(s);
    FirstWordBeforeSpace(s, k);
    var rest := s[|w|..];
    var j := k - |w|;
    assert |w| > 0;
    assert s == w + rest;
    assert s[..k] == w + rest[..j];
    assert rest[j..] == s[k..];
    var p, before, after := s[..k], rest[..j], rest[j..];
    WordsAfterWord(w, rest);
    WordsAfterWord(w, before);
    WordsSplitAtSpace(rest, j);
    JoinAfterWord(Words(s), Words(p), Words(rest), w, Words(before), Words(after));
  }

  lemma JoinAfterWord(ws: seq<string>, wp: seq<string>, wr: seq<string>, w: string, a: seq<string>, b: seq<string>)
    requires ws == [w] + wr && wp == [w] + a && wr == a + b
    ensures ws == wp + b
  {
  }

  /** A word followed by whitespace, or by nothing, is the first word that
      `split()` yields. */
  lemma WordsAfterWord(w: string, rest: string)
    requires IsWord(w) && (rest == [] || IsSpace(rest[0]))
    ensures Words(w + rest) == [w] + Words(rest)
  {
    var s := w + rest;
    FirstWordOfConcat(w, rest);
    WordsTake(s);
    assert s[|w|..] == rest;
  }

  lemma {:induction false} FirstWordOfConcat(w: string, rest: string)
    requires forall i :: 0 <= i < |w| ==> !IsSpace(w[i])
    requires rest == [] || IsSpace(rest[0])
    ensures FirstWord(w + rest) == w
    decreases |w|
  {
    if w == [] {
      assert w + rest == rest;
    } else {
      assert (w + rest)[0] == w[0];
      assert (w + rest)[1..] == w[1..] + rest;
      assert forall i :: 0 <= i < |w| - 1 ==> w[1..][i] == w[i + 1];
      FirstWordOfConcat(w[1..], rest);
    }
  }


  /** Python `" ".join(ws)`. */
  function Join(ws: seq<string>): string
  {
    if ws == [] then [] else if |ws| == 1 then ws[0] else ws[0] + " " + Join(ws[1..])
  }

  /** `split()` undoes `" ".join(...)` on a list of words. */
  lemma {:induction false} WordsOfJoin(ws: seq<string>)
    requires forall i :: 0 <= i < |ws| ==> IsWord(ws[i])
    ensures Words(Join(ws)) == ws
    decreases |ws|, 1
  {
    if ws == [] {
      assert Words([]) == [];
    } else if |ws| == 1 {
      WordsOfWord(ws[0]);
    } else {
      WordsOfJoinStep(ws);
    }
  }

  /** `WordsOfJoin` for two or more words. */
  lemma {:induction false} WordsOfJoinStep(ws: seq<string>)
    requires |ws| >= 2 && forall i :: 0 <= i < |ws| ==> IsWord(ws[i])
    ensures Words(Join(ws)) == ws
    decreases |ws|, 0
  {
    var w, more := ws[0], ws[1..];
    var rest := " " + Join(more);
    assert Words(rest) == more by {
      JoinHead(ws);
      WordsSkip(rest);
      WordsOfJoin(more);
    }
    assert Words(Join(ws)) == [w] + Words(rest) by {
      JoinHead(ws);
      WordsAfterWord(w, rest);
    }
    assert ws == [w] + more;
  }

  lemma JoinHead(ws: seq<string>)
    requires |ws| >= 2
    ensures Join(ws) == ws[0] + (" " + Join(ws[1..]))
    ensures (" " + Join(ws[1..]))[1..] == Join(ws[1..])
  {
  }
}
