/** Strings as the client manipulates them: JavaScript's `trim()`, `split(/\s+/)`
    and the "first letters of the first two words" initials that three components
    compute from a user name. Letter case is Unicode- and locale-dependent, so
    upper-casing is a parameter `upper` of the functions that need it. */
module Text {

  /** The characters that `String.prototype.trim` and the regular-expression class
      `\s` treat as white space: ECMA-262's WhiteSpace and LineTerminator sets. */
  predicate IsSpace(c: char) {
    || c == ' ' || c == '\t' || c == '\n' || c == '\r' || c == '\U{000B}' || c == '\U{000C}'
    || c == '\U{00A0}' || c == '\U{1680}' || ('\U{2000}' <= c <= '\U{200A}')
    || c == '\U{2028}' || c == '\U{2029}' || c == '\U{202F}' || c == '\U{205F}'
    || c == '\U{3000}' || c == '\U{FEFF}'
  }

  /** Every character is white space (the empty string included). */
  predicate Blank(s: string) {
    forall i :: 0 <= i < |s| ==> IsSpace(s[i])
  }

  /** No character is white space. */
  predicate SpaceFree(s: string) {
    forall i :: 0 <= i < |s| ==> !IsSpace(s[i])
  }

  /** Length of the longest blank prefix. */
  function LeadLen(s: string): (n: nat)
    ensures n <= |s|
    ensures forall k :: 0 <= k < n ==> IsSpace(s[k])
    ensures n < |s| ==> !IsSpace(s[n])
  {
    if s == [] || !IsSpace(s[0]) then 0 else LeadLen(s[1..]) + 1
  }

  /** Length of the longest blank suffix. */
  function TrailLen(s: string): (n: nat)
    ensures n <= |s|
    ensures forall k :: |s| - n <= k < |s| ==> IsSpace(s[k])
    ensures n < |s| ==> !IsSpace(s[|s| - n - 1])
  {
    if s == [] || !IsSpace(s[|s| - 1]) then 0 else TrailLen(s[..|s| - 1]) + 1
  }

  /** `s.trim()`: `s` without its blank prefix and its blank suffix. The result is
      the slice of `s` that starts at `LeadLen(s)`, is empty exactly when `s` is
      blank, and otherwise starts and ends with a non-space character. */
  function Trim(s: string): (r: string)
    ensures LeadLen(s) + |r| <= |s| && r == s[LeadLen(s)..LeadLen(s) + |r|]
    ensures forall k :: LeadLen(s) + |r| <= k < |s| ==> IsSpace(s[k])
    ensures r == [] <==> Blank(s)
    ensures r != [] ==> !IsSpace(r[0]) && !IsSpace(r[|r| - 1])
  {
    var i := LeadLen(s);
    var t := s[i..];
    var r := t[..|t| - TrailLen(t)];
    assert forall k :: i + |r| <= k < |s| ==> s[k] == t[k - i];
    r
  }

  /** Trimming twice is trimming once. */
  lemma TrimIdempotent(s: string)
    ensures Trim(Trim(s)) == Trim(s)
  {
    var r := Trim(s);
    if r != [] {
      assert LeadLen(r) == 0 && TrailLen(r) == 0;
      assert r[0..] == r;
    }
  }

  /** Index of the first white-space character of `s`, or `|s|` when there is none. */
  function FirstSpace(s: string): (i: nat)
    ensures i <= |s|
    ensures forall k :: 0 <= k < i ==> !IsSpace(s[k])
    ensures i < |s| ==> IsSpace(s[i])
  {
    if s == [] || IsSpace(s[0]) then 0 else FirstSpace(s[1..]) + 1
  }

  /** `t.split(/\s+/)`: the pieces of `t` between maximal runs of white space. A
      leading or trailing run yields an empty piece, and `"".split(/\s+/)` is `[""]`. */
  function SplitWs(t: string): (pieces: seq<string>)
    ensures |pieces| >= 1
    decreases |t|
  {
    var i := FirstSpace(t);
    if i == |t| then [t]
    else
      var rest := t[i..];
      var n := LeadLen(rest);
      assert n >= 1;
      [t[..i]] + SplitWs(rest[n..])
  }

  /** `.slice(0, 2)` on the list of pieces. */
  function TakeTwo(pieces: seq<string>): seq<string> {
    if |pieces| <= 2 then pieces else pieces[..2]
  }

  /** `.map(x => x[0]?.toUpperCase()).join('')`: the upper-cased first character of
      every piece; an empty piece maps to `undefined`, which `join` renders as "". */
  function HeadsJoined(pieces: seq<string>, upper: char -> char): string {
    if pieces == [] then []
    else (if pieces[0] == [] then [] else [upper(pieces[0][0])]) + HeadsJoined(pieces[1..], upper)
  }

  /** `name.trim().split(/\s+/).slice(0, 2).map(x => x[0]?.toUpperCase()).join('')`,
      the chain the three initials helpers share. */
  function InitialsOf(name: string, upper: char -> char): string {
    HeadsJoined(TakeTwo(SplitWs(Trim(name))), upper)
  }

  // ---------------------------------------------------------------------------
  // An independent description of the same chain: the characters that start a word.

  /** The characters of `s` that start a word, in order. `afterSpace` says whether
      the character before `s` was white space (or `s` starts the string). */
  function WordStartsFrom(s: string, afterSpace: bool): seq<char> {
    if s == [] then []
    else (if afterSpace && !IsSpace(s[0]) then [s[0]] else []) + WordStartsFrom(s[1..], IsSpace(s[0]))
  }

  /** The first character of every word of `s`, in order. */
  function WordStarts(s: string): seq<char> {
    WordStartsFrom(s, true)
  }

  function MapChars(s: seq<char>, upper: char -> char): (r: seq<char>)
    ensures |r| == |s| && forall k :: 0 <= k < |s| ==> r[k] == upper(s[k])
  {
    if s == [] then [] else [upper(s[0])] + MapChars(s[1..], upper)
  }

  function Min(a: int, b: int): int { if a <= b then a else b }

  /** The first character of every piece. */
  function Firsts(pieces: seq<string>): seq<char>
    requires forall k :: 0 <= k < |pieces| ==> pieces[k] != []
  {
    if pieces == [] then [] else [pieces[0][0]] + Firsts(pieces[1..])
  }

  lemma {:induction false} WordStartsAppend(a: string, b: string, f: bool)
    ensures WordStartsFrom(a + b, f)
         == WordStartsFrom(a, f) + WordStartsFrom(b, if a == [] then f else IsSpace(a[|a| - 1]))
    decreases |a|
  {
    if a == [] {
      assert a + b == b;
    } else {
      assert (a + b)[1..] == a[1..] + b;
      WordStartsAppend(a[1..], b, IsSpace(a[0]));
      if |a| > 1 { assert a[1..][|a[1..]| - 1] == a[|a| - 1]; }
      var head := if f && !IsSpace(a[0]) then [a[0]] else [];
      AppendAssoc(head, WordStartsFrom(a[1..], IsSpace(a[0])),
                  WordStartsFrom(b, if a == [] then f else IsSpace(a[|a| - 1])));
    }
  }

  /** Concatenation is associative; stated once so that proofs about logs and
      word lists need not rediscover it element by element. */
  lemma AppendAssoc<T>(a: seq<T>, b: seq<T>, c: seq<T>)
    ensures a + b + c == a + (b + c)
  {
  }

  lemma {:induction false} WordStartsOfBlank(s: string, f: bool)
    requires Blank(s)
    ensures WordStartsFrom(s, f) == []
    decreases |s|
  {
    if s != [] { WordStartsOfBlank(s[1..], IsSpace(s[0])); }
  }

  lemma {:induction false} WordStartsOfSpaceFree(s: string)
    requires SpaceFree(s)
    ensures WordStartsFrom(s, false) == []
    decreases |s|
  {
    if s != [] { WordStartsOfSpaceFree(s[1..]); }
  }

  /** A blank prefix, however long, only leaves the "after a space" flag set. */
  lemma WordStartsAfterBlank(p: string, b: string, f: bool)
    requires Blank(p) && p != []
    ensures WordStartsFrom(p + b, f) == WordStartsFrom(b, true)
  {
    WordStartsAppend(p, b, f);
    WordStartsOfBlank(p, f);
  }

  /** Trimming does not change which characters start words. */
  lemma WordStartsOfTrim(s: string)
    ensures WordStarts(Trim(s)) == WordStarts(s)
  {
    var i := LeadLen(s);
    var r := Trim(s);
    var q := s[i + |r|..];
    assert s == s[..i] + (r + q);
    WordStartsAppend(r, q, true);
    WordStartsOfBlank(q, if r == [] then true else IsSpace(r[|r| - 1]));
    assert WordStarts(r) + [] == WordStarts(r);
    assert WordStarts(r + q) == WordStarts(r);
    if i > 0 {
      WordStartsAfterBlank(s[..i], r + q, true);
    } else {
      assert s == r + q;
    }
  }

  /** A word followed by white space contributes exactly its first character. */
  lemma WordStartsOfLeadingWord(t: string, i: nat)
    requires 1 <= i < |t| && IsSpace(t[i])
    requires forall k :: 0 <= k < i ==> !IsSpace(t[k])
    ensures WordStarts(t) == [t[0]] + WordStartsFrom(t[i..], false)
  {
    assert t == t[..i] + t[i..];
    WordStartsAppend(t[..i], t[i..], true);
    assert t[..i] == [t[0]] + t[1..i];
    WordStartsOfSpaceFree(t[1..i]);
  }

  /** The run of white space that follows a word sets the flag again. */
  lemma WordStartsAfterRun(rest: string, n: nat)
    requires 1 <= n <= |rest|
    requires forall k :: 0 <= k < n ==> IsSpace(rest[k])
    ensures WordStartsFrom(rest, false) == WordStarts(rest[n..])
  {
    assert rest == rest[..n] + rest[n..];
    WordStartsAfterBlank(rest[..n], rest[n..], false);
  }

  /** One step of `split(/\s+/)` on a string that has white space after its first word. */
  lemma SplitStep(t: string)
    requires FirstSpace(t) < |t|
    ensures var rest := t[FirstSpace(t)..];
            SplitWs(t) == [t[..FirstSpace(t)]] + SplitWs(rest[LeadLen(rest)..])
  {
  }

  /** On a trimmed non-empty string, `split(/\s+/)` yields only non-empty pieces,
      and their first characters are exactly the word starts. */
  lemma {:induction false} SplitFirsts(t: string)
    requires t != [] && !IsSpace(t[0]) && !IsSpace(t[|t| - 1])
    ensures forall k :: 0 <= k < |SplitWs(t)| ==> SplitWs(t)[k] != []
    ensures Firsts(SplitWs(t)) == WordStarts(t)
    decreases |t|
  {
    var i := FirstSpace(t);
    if i == |t| {
      assert t == [t[0]] + t[1..];
      WordStartsOfSpaceFree(t[1..]);
    } else {
      var rest := t[i..];
      var n := LeadLen(rest);
      var tail := rest[n..];
      assert rest[|rest| - 1] == t[|t| - 1];
      assert n < |rest|;
      assert tail[|tail| - 1] == t[|t| - 1];
      SplitFirsts(tail);
      SplitFirstsStep(t, i, tail);
    }
  }

  /** The step of `SplitFirsts`: a leading word, a run of white space, then `tail`. */
  lemma SplitFirstsStep(t: string, i: nat, tail: string)
    requires 1 <= i < |t| && i == FirstSpace(t)
    requires tail == t[i..][LeadLen(t[i..])..]
    requires forall k :: 0 <= k < |SplitWs(tail)| ==> SplitWs(tail)[k] != []
    requires Firsts(SplitWs(tail)) == WordStarts(tail)
    ensures forall k :: 0 <= k < |SplitWs(t)| ==> SplitWs(t)[k] != []
    ensures Firsts(SplitWs(t)) == WordStarts(t)
  {
    var rest := t[i..];
    SplitStep(t);
    WordStartsOfLeadingWord(t, i);
    WordStartsAfterRun(rest, LeadLen(rest));
    var ps := SplitWs(t);
    assert ps == [t[..i]] + SplitWs(tail);
    assert ps[0] == t[..i] && ps[1..] == SplitWs(tail);
    assert Firsts(ps) == [t[0]] + Firsts(SplitWs(tail));
  }

  lemma {:induction false} HeadsOfNonEmpty(pieces: seq<string>, upper: char -> char)
    requires forall k :: 0 <= k < |pieces| ==> pieces[k] != []
    ensures HeadsJoined(pieces, upper) == MapChars(Firsts(pieces), upper)
    decreases |pieces|
  {
    if pieces != [] { HeadsOfNonEmpty(pieces[1..], upper); }
  }

  /** The initials chain, described without splitting: the upper-cased first
      characters of the first two words of `name` (none when it is blank). */
  lemma InitialsAreWordStarts(name: string, upper: char -> char)
    ensures var w := WordStarts(name);
            InitialsOf(name, upper) == MapChars(w, upper)[..Min(2, |w|)]
  {
    WordStartsOfTrim(name);
    if Trim(name) == [] {
      InitialsOfBlank(name, upper);
    } else {
      InitialsOfWords(Trim(name), upper);
    }
  }

  /** A blank name has no word starts and no initials. */
  lemma InitialsOfBlank(name: string, upper: char -> char)
    requires Trim(name) == []
    ensures InitialsOf(name, upper) == [] && WordStarts(Trim(name)) == []
  {
    WordStartsOfBlank(name, true);
    assert SplitWs(Trim(name)) == [[]];
    assert HeadsJoined([[]], upper) == [];
  }

  /** On a trimmed non-empty string the chain keeps the first two word starts. */
  lemma InitialsOfWords(t: string, upper: char -> char)
    requires t != [] && !IsSpace(t[0]) && !IsSpace(t[|t| - 1])
    ensures var w := WordStarts(t);
            HeadsJoined(TakeTwo(SplitWs(t)), upper) == MapChars(w, upper)[..Min(2, |w|)]
  {
    var ps := SplitWs(t);
    SplitFirsts(t);
    FirstsTakeTwo(ps);
    HeadsOfNonEmpty(TakeTwo(ps), upper);
    var w := Firsts(ps);
    MapCharsPrefix(w, Min(2, |w|), upper);
  }

  /** Keeping the first two pieces keeps the first two first characters. */
  lemma FirstsTakeTwo(pieces: seq<string>)
    requires forall k :: 0 <= k < |pieces| ==> pieces[k] != []
    ensures forall k :: 0 <= k < |TakeTwo(pieces)| ==> TakeTwo(pieces)[k] != []
    ensures |Firsts(pieces)| == |pieces|
    ensures Firsts(TakeTwo(pieces)) == Firsts(pieces)[..Min(2, |pieces|)]
  {
    FirstsLength(pieces);
    if |pieces| > 2 {
      FirstsPrefix(pieces, 2);
    }
  }

  lemma MapCharsPrefix(s: seq<char>, n: nat, upper: char -> char)
    requires n <= |s|
    ensures MapChars(s[..n], upper) == MapChars(s, upper)[..n]
  {
  }

  lemma {:induction false} FirstsPrefix(pieces: seq<string>, n: nat)
    requires n <= |pieces|
    requires forall k :: 0 <= k < |pieces| ==> pieces[k] != []
    ensures |Firsts(pieces)| == |pieces|
    ensures Firsts(pieces[..n]) == Firsts(pieces)[..n]
    decreases n
  {
    FirstsLength(pieces);
    if n > 0 {
      FirstsPrefix(pieces[1..], n - 1);
      assert pieces[..n][1..] == pieces[1..][..n - 1];
    }
  }

  lemma {:induction false} FirstsLength(pieces: seq<string>)
    requires forall k :: 0 <= k < |pieces| ==> pieces[k] != []
    ensures |Firsts(pieces)| == |pieces|
    decreases |pieces|
  {
    if pieces != [] { FirstsLength(pieces[1..]); }
  }

  /** Consequences the pages rely on: at most two characters, none exactly when the
      name is blank, and the first is the upper-cased first non-space character. */
  lemma InitialsShape(name: string, upper: char -> char)
    ensures |InitialsOf(name, upper)| <= 2
    ensures InitialsOf(name, upper) == [] <==> Blank(name)
    ensures !Blank(name) ==> InitialsOf(name, upper)[0] == upper(name[LeadLen(name)])
  {
    InitialsAreWordStarts(name, upper);
    WordStartsOfTrim(name);
    var t := Trim(name);
    if Blank(name) {
      WordStartsOfBlank(name, true);
    } else {
      assert t == [t[0]] + t[1..];
      assert t[0] == name[LeadLen(name)];
    }
  }
}
