/** The string searches the library uses, with what they find. */
module Text {
  import opened Base

  const CRLF: string := "\r\n"

  /** `String.index_from_opt`: the first `c` at or after `start`. */
  function IndexFrom(s: string, c: char, start: nat): (r: Option<nat>)
    requires start <= |s|
    ensures r.Some? ==> start <= r.value < |s| && s[r.value] == c && c !in s[start..r.value]
    ensures r.None? ==> c !in s[start..]
    decreases |s| - start
  {
    if start == |s| then None
    else if s[start] == c then Some(start)
    else IndexFrom(s, c, start + 1)
  }

  function IndexOf(s: string, c: char): (r: Option<nat>)
    ensures r.Some? ==> r.value < |s| && s[r.value] == c && c !in s[..r.value]
    ensures r.None? ==> c !in s
  {
    var r := IndexFrom(s, c, 0);
    assert s[0..] == s;
    assert r.Some? ==> s[0..r.value] == s[..r.value];
    r
  }

  lemma IndexIs(s: string, c: char, i: nat)
    requires i < |s| && s[i] == c && c !in s[..i]
    ensures IndexOf(s, c) == Some(i)
  {
    assert s[i] in s;
  }

  lemma IndexAfter(w: string, c: char, rest: string)
    requires c !in w
    ensures IndexOf(w + [c] + rest, c) == Some(|w|)
  {
    var s := w + [c] + rest;
    assert s[..|w|] == w;
    IndexIs(s, c, |w|);
  }

  /** `String.split_on_char`. */
  function Split(s: string, sep: char): (r: seq<string>)
    ensures |r| > 0
    ensures forall w <- r :: sep !in w
    decreases |s|
  {
    match IndexOf(s, sep)
    case None => [s]
    case Some(i) => [s[..i]] + Split(s[i + 1..], sep)
  }

  function Join(words: seq<string>, sep: char): string
    requires |words| > 0
  {
    if |words| == 1 then words[0] else words[0] + [sep] + Join(words[1..], sep)
  }

  lemma SplitCons(w: string, sep: char, rest: string)
    requires sep !in w
    ensures Split(w + [sep] + rest, sep) == [w] + Split(rest, sep)
  {
    IndexAfter(w, sep, rest);
    var s := w + [sep] + rest;
    assert s[..|w|] == w && s[|w| + 1..] == rest;
  }

  lemma SplitOne(w: string, sep: char)
    requires sep !in w
    ensures Split(w, sep) == [w]
  {
  }

  lemma {:induction false} JoinSplit(s: string, sep: char)
    ensures Join(Split(s, sep), sep) == s
    decreases |s|
  {
    match IndexOf(s, sep)
    case None =>
    case Some(i) =>
      JoinSplit(s[i + 1..], sep);
      var r := Split(s, sep);
      assert r[1..] == Split(s[i + 1..], sep);
      assert s == s[..i] + [sep] + s[i + 1..];
  }

  lemma {:induction false} SplitJoin(words: seq<string>, sep: char)
    requires |words| > 0 && forall w <- words :: sep !in w
    ensures Split(Join(words, sep), sep) == words
  {
    if |words| == 1 {
      SplitOne(words[0], sep);
    } else {
      SplitJoin(words[1..], sep);
      SplitCons(words[0], sep, Join(words[1..], sep));
    }
  }

  predicate CrlfAt(s: string, i: nat) {
    i + 1 < |s| && s[i] == '\r' && s[i + 1] == '\n'
  }

  /** The first CRLF at or after `start`. */
  function FindCrlf(s: string, start: nat): (r: Option<nat>)
    ensures r.Some? ==> start <= r.value && CrlfAt(s, r.value)
    ensures r.Some? ==> forall j :: start <= j < r.value ==> !CrlfAt(s, j)
    ensures r.None? ==> forall j :: start <= j ==> !CrlfAt(s, j)
    decreases |s| - start
  {
    if start + 1 >= |s| then None
    else if CrlfAt(s, start) then Some(start)
    else FindCrlf(s, start + 1)
  }

  lemma CrlfIs(s: string, start: nat, i: nat)
    requires start <= i && CrlfAt(s, i) && '\r' !in s[start..i]
    ensures FindCrlf(s, start) == Some(i)
  {
    forall j | start <= j < i ensures !CrlfAt(s, j) {
      assert s[start..i][j - start] == s[j];
    }
  }

  lemma Assoc<T>(a: seq<T>, b: seq<T>, c: seq<T>)
    ensures (a + b) + c == a + (b + c)
  {
  }

  /** What follows position `p` starts with `a`. */
  lemma SuffixSplit(s: string, p: nat, a: string, b: string)
    requires p <= |s| && s[p..] == a + b
    ensures p + |a| <= |s| && s[p..p + |a|] == a && s[p + |a|..] == b
  {
    assert s[p..p + |a|] == s[p..][..|a|];
    assert s[p + |a|..] == s[p..][|a|..];
  }

  /** A line free of CR ends at the CRLF that follows it. */
  lemma LineAt(s: string, p: nat, line: string, after: string)
    requires p <= |s| && s[p..] == line + (CRLF + after) && '\r' !in line
    ensures p + |line| + 2 <= |s|
    ensures FindCrlf(s, p) == Some(p + |line|) && s[p..p + |line|] == line && s[p + |line| + 2..] == after
  {
    SuffixSplit(s, p, line, CRLF + after);
    var i := p + |line|;
    SuffixSplit(s, i, CRLF, after);
    assert s[i..i + 2][0] == s[i] && s[i..i + 2][1] == s[i + 1];
    CrlfIs(s, p, i);
  }

  method FindCrlfFrom(value: string, start: nat) returns (found: Option<nat>)
    ensures found == FindCrlf(value, start)
  {
    var position := start;
    found := None;
    while found.None? && position + 1 < |value|
      invariant start <= position
      invariant found.None? ==> FindCrlf(value, start) == FindCrlf(value, position)
      invariant found.Some? ==> found == FindCrlf(value, start)
      decreases found.None?, |value| - position
    {
      if value[position] == '\r' && value[position + 1] == '\n' {
        found := Some(position);
      } else {
        position := position + 1;
      }
    }
  }

  predicate LineBreak(s: string) {
    '\r' in s || '\n' in s
  }

  method ContainsLineBreak(value: string) returns (found: bool)
    ensures found == LineBreak(value)
  {
    found := false;
    var position := 0;
    while !found && position < |value|
      invariant 0 <= position <= |value|
      invariant found == LineBreak(value[..position])
    {
      assert value[..position + 1] == value[..position] + [value[position]];
      if value[position] == '\r' || value[position] == '\n' {
        found := true;
      }
      position := position + 1;
    }
    assert value[..|value|] == value;
    if found {
      assert forall c <- value[..position] :: c in value;
    }
  }

  /** Character `i` breaks the line; a final CR may still become a CRLF. */
  predicate BreakAt(s: string, i: nat) {
    i < |s| && (s[i] == '\n' || (s[i] == '\r' && i + 1 < |s|))
  }

  predicate InternalBreak(s: string) {
    exists i | 0 <= i < |s| :: BreakAt(s, i)
  }

  method ContainsInternalLineBreak(value: string) returns (found: bool)
    ensures found == InternalBreak(value)
  {
    found := false;
    var position := 0;
    var last := |value| - 1;
    while !found && position <= last
      invariant 0 <= position <= |value|
      invariant found ==> InternalBreak(value)
      invariant !found ==> forall i: nat :: i < position ==> !BreakAt(value, i)
    {
      var trailingCarriageReturn := position == last && value[position] == '\r';
      if !trailingCarriageReturn && (value[position] == '\r' || value[position] == '\n') {
        assert BreakAt(value, position);
        found := true;
      }
      position := position + 1;
    }
  }

  function Lower(c: char): char {
    if 'A' <= c <= 'Z' then c + 32 as char else c
  }

  /** `String.lowercase_ascii`. */
  function Lowercase(s: string): (r: string)
    ensures |r| == |s|
  {
    seq(|s|, i requires 0 <= i < |s| => Lower(s[i]))
  }

  function Flatten(slices: seq<string>): string {
    if slices == [] then "" else slices[0] + Flatten(slices[1..])
  }

  lemma {:induction false} FlattenAppend(a: seq<string>, b: seq<string>)
    ensures Flatten(a + b) == Flatten(a) + Flatten(b)
  {
    if a == [] {
      assert a + b == b;
    } else {
      assert (a + b)[1..] == a[1..] + b;
      FlattenAppend(a[1..], b);
    }
  }

  const UPPER: string := "ABCDEFGHIJKLMNOPQRSTUVWXYZ"
  const LOWER: string := "abcdefghijklmnopqrstuvwxyz"

  lemma Alphabet(k: nat)
    requires k < 26
    ensures |UPPER| == |LOWER| == 26 && UPPER[k] as int == 65 + k && LOWER[k] as int == 97 + k
  {
  }

  /** Each capital letter becomes the small one and every other character stays. */
  lemma LowercaseExactly(s: string, i: nat)
    requires i < |s|
    ensures forall k :: 0 <= k < 26 && s[i] == UPPER[k] ==> Lowercase(s)[i] == LOWER[k]
    ensures s[i] !in UPPER ==> Lowercase(s)[i] == s[i]
  {
    forall k | 0 <= k < 26 && s[i] == UPPER[k] ensures Lowercase(s)[i] == LOWER[k] {
      Alphabet(k);
    }
    if 'A' <= s[i] <= 'Z' {
      Alphabet(s[i] as int - 65);
    }
  }
}
