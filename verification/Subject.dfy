/** Publish subjects and subscription filters (lib/subject.ml). */
module Subject {
  import opened Base
  import opened Text

  datatype SubjectError =
    | Empty
    | EmptyToken(position: nat)
    | InvalidCharacter(position: nat, character: char)
    | WildcardNotAllowed(position: nat, token: string)
    | WildcardMustBeToken(position: nat)
    | WildcardNotTerminal(position: nat)

  predicate Forbidden(c: char) {
    c as int <= 32 || c as int == 127
  }

  predicate Wildcard(c: char) {
    c == '*' || c == '>'
  }

  // ---- What the two loops compute: the first error in reading order ----

  function CharError(filter: bool, final: bool, token: string, start: nat, k: nat): Option<SubjectError>
    requires k < |token|
  {
    var c := token[k];
    if Forbidden(c) then Some(InvalidCharacter(start + k, c))
    else if !Wildcard(c) then None
    else if !filter then Some(WildcardNotAllowed(start + k, token))
    else if |token| != 1 then Some(WildcardMustBeToken(start + k))
    else if c == '>' && !final then Some(WildcardNotTerminal(start + k))
    else None
  }

  function TokenErrorFrom(filter: bool, final: bool, token: string, start: nat, k: nat): (r: Option<SubjectError>)
    requires k <= |token|
    ensures r.None? <==> forall i :: k <= i < |token| ==> CharError(filter, final, token, start, i).None?
    decreases |token| - k
  {
    if k == |token| then None
    else match CharError(filter, final, token, start, k)
      case Some(e) => Some(e)
      case None => TokenErrorFrom(filter, final, token, start, k + 1)
  }

  function TokenError(filter: bool, final: bool, token: string, start: nat): Option<SubjectError> {
    if token == "" then Some(EmptyToken(start)) else TokenErrorFrom(filter, final, token, start, 0)
  }

  function TokensError(filter: bool, tokens: seq<string>, start: nat): Option<SubjectError> {
    if tokens == [] then None
    else match TokenError(filter, |tokens| == 1, tokens[0], start)
      case Some(e) => Some(e)
      case None => TokensError(filter, tokens[1..], start + |tokens[0]| + 1)
  }

  function Validate(filter: bool, s: string): Result<string, SubjectError> {
    if s == "" then Error(Empty)
    else match TokensError(filter, Split(s, '.'), 0)
      case Some(e) => Error(e)
      case None => Ok(s)
  }

  // ---- The loops ----

  method ValidateToken(filter: bool, final: bool, subject: string, start: nat, stop: nat)
    returns (failure: Option<SubjectError>)
    requires start <= stop <= |subject|
    ensures failure == TokenError(filter, final, subject[start..stop], start)
  {
    if start == stop {
      return Some(EmptyToken(start));
    }
    ghost var token := subject[start..stop];
    failure := None;
    for position := start to stop
      invariant failure.Some? ==> failure == TokenErrorFrom(filter, final, token, start, 0)
      invariant failure.None? ==> TokenErrorFrom(filter, final, token, start, 0)
                                  == TokenErrorFrom(filter, final, token, start, position - start)
    {
      if failure.None? {
        var character := subject[position];
        assert token[position - start] == character;
        if Forbidden(character) {
          failure := Some(InvalidCharacter(position, character));
        } else if character == '*' || character == '>' {
          if !filter {
            failure := Some(WildcardNotAllowed(position, subject[start..stop]));
          } else if stop - start != 1 {
            failure := Some(WildcardMustBeToken(position));
          } else if character == '>' && !final {
            failure := Some(WildcardNotTerminal(position));
          }
        }
      }
    }
  }

  /** The first error at or after a token boundary. */
  function ErrorFrom(filter: bool, subject: string, tokenStart: nat): Option<SubjectError>
    requires tokenStart <= |subject|
  {
    TokensError(filter, Split(subject[tokenStart..], '.'), tokenStart)
  }

  lemma TokenAtSeparator(filter: bool, subject: string, start: nat, stop: nat)
    requires start <= stop < |subject| && subject[stop] == '.' && '.' !in subject[start..stop]
    ensures ErrorFrom(filter, subject, start) ==
            var e := TokenError(filter, false, subject[start..stop], start);
            if e.Some? then e else ErrorFrom(filter, subject, stop + 1)
  {
    assert subject[start..] == subject[start..stop] + ['.'] + subject[stop + 1..];
    SplitCons(subject[start..stop], '.', subject[stop + 1..]);
  }

  lemma TokenAtEnd(filter: bool, subject: string, start: nat)
    requires start <= |subject| && '.' !in subject[start..]
    ensures ErrorFrom(filter, subject, start) == TokenError(filter, true, subject[start..], start)
  {
    var tokens := Split(subject[start..], '.');
    SplitOne(subject[start..], '.');
    assert TokensError(filter, tokens[1..], start + |tokens[0]| + 1).None?;
  }

  method ValidateSubject(filter: bool, subject: string) returns (result: Result<string, SubjectError>)
    ensures result == Validate(filter, subject)
  {
    if |subject| == 0 {
      return Error(Empty);
    }
    var failure: Option<SubjectError> := None;
    var tokenStart: nat := 0;
    ghost var total := ErrorFrom(filter, subject, 0);
    assert subject[0..] == subject;
    for position := 0 to |subject| + 1
      invariant failure.Some? ==> failure == total
      invariant failure.None? && position <= |subject| ==>
          tokenStart <= position && '.' !in subject[tokenStart..position]
          && total == ErrorFrom(filter, subject, tokenStart)
      invariant failure.None? && position == |subject| + 1 ==> total == None
    {
      if failure.None? {
        var atEnd := position == |subject|;
        var atSeparator := !atEnd && subject[position] == '.';
        if atEnd || atSeparator {
          if atEnd {
            assert subject[tokenStart..position] == subject[tokenStart..];
            TokenAtEnd(filter, subject, tokenStart);
          } else {
            TokenAtSeparator(filter, subject, tokenStart, position);
          }
          var error := ValidateToken(filter, atEnd, subject, tokenStart, position);
          if error.None? {
            tokenStart := position + 1;
          } else {
            failure := error;
          }
        } else {
          assert subject[tokenStart..position + 1] == subject[tokenStart..position] + [subject[position]];
        }
      }
    }
    return if failure.Some? then Error(failure.value) else Ok(subject);
  }

  // ---- The grammar ----

  predicate Plain(token: string) {
    forall c <- token :: !Wildcard(c)
  }

  predicate GoodToken(filter: bool, final: bool, token: string) {
    && token != ""
    && (forall c <- token :: !Forbidden(c))
    && (Plain(token) || (filter && (token == "*" || (token == ">" && final))))
  }

  predicate Grammar(filter: bool, s: string) {
    var tokens := Split(s, '.');
    forall i :: 0 <= i < |tokens| ==> GoodToken(filter, i == |tokens| - 1, tokens[i])
  }

  lemma TokenErrorExact(filter: bool, final: bool, token: string, start: nat)
    ensures TokenError(filter, final, token, start).None? <==> GoodToken(filter, final, token)
  {
    if token != "" {
      if TokenErrorFrom(filter, final, token, start, 0).None? {
        forall i | 0 <= i < |token| ensures !Forbidden(token[i]) {
          assert CharError(filter, final, token, start, i).None?;
        }
        if !Plain(token) {
          var i :| 0 <= i < |token| && Wildcard(token[i]);
          assert CharError(filter, final, token, start, i).None?;
          assert token == [token[i]];
        }
      } else {
        var k :| 0 <= k < |token| && CharError(filter, final, token, start, k).Some?;
        assert token[k] in token;
      }
    }
  }

  lemma {:induction false} TokensErrorExact(filter: bool, tokens: seq<string>, start: nat)
    ensures TokensError(filter, tokens, start).None? <==>
            forall i :: 0 <= i < |tokens| ==> GoodToken(filter, i == |tokens| - 1, tokens[i])
  {
    if tokens != [] {
      TokenErrorExact(filter, |tokens| == 1, tokens[0], start);
      var rest := tokens[1..];
      TokensErrorExact(filter, rest, start + |tokens[0]| + 1);
      assert forall i :: 0 <= i < |rest| ==> rest[i] == tokens[i + 1];
      assert forall i :: 1 <= i < |tokens| ==> tokens[i] == rest[i - 1];
    }
  }

  /** The nested loops accept exactly the dot-separated grammar. */
  lemma ValidateExact(filter: bool, s: string)
    ensures Validate(filter, s).Ok? <==> Grammar(filter, s)
    ensures Validate(filter, s).Ok? ==> Validate(filter, s).value == s
  {
    TokensErrorExact(filter, Split(s, '.'), 0);
    if s == "" {
      assert Split(s, '.')[0] == "";
    }
  }

  lemma {:induction false} SplitChars(s: string, sep: char, c: char)
    requires c in s && c != sep
    ensures exists w <- Split(s, sep) :: c in w
    decreases |s|
  {
    match IndexOf(s, sep)
    case None =>
      assert Split(s, sep)[0] == s;
    case Some(i) =>
      var words := Split(s, sep);
      var rest := s[i + 1..];
      assert words[0] == s[..i] && words[1..] == Split(rest, sep);
      var k :| 0 <= k < |s| && s[k] == c;
      if k < i {
        assert s[..i][k] == c;
        assert words[0] in words;
      } else {
        assert rest[k - i - 1] == c;
        SplitChars(rest, sep, c);
        var w :| w in words[1..] && c in w;
        assert w in words;
      }
  }

  lemma {:induction false} SplitWithin(s: string, sep: char, w: string, c: char)
    requires w in Split(s, sep) && c in w
    ensures c in s
    decreases |s|
  {
    match IndexOf(s, sep)
    case None =>
    case Some(i) =>
      if w == s[..i] {
        assert c in s[..i];
      } else {
        SplitWithin(s[i + 1..], sep, w, c);
      }
  }

  /** Every publish subject is a filter, and a filter without wildcard characters is a subject. */
  lemma SubjectsAmongFilters(s: string)
    ensures Validate(false, s).Ok? <==> Validate(true, s).Ok? && Plain(s)
  {
    ValidateExact(false, s);
    ValidateExact(true, s);
    var tokens := Split(s, '.');
    if Grammar(false, s) {
      forall c | c in s ensures !Wildcard(c) {
        if c != '.' {
          SplitChars(s, '.', c);
          var w :| w in tokens && c in w;
          var i :| 0 <= i < |tokens| && tokens[i] == w;
          assert GoodToken(false, i == |tokens| - 1, tokens[i]);
        }
      }
    }
    if Plain(s) {
      forall i, c | 0 <= i < |tokens| && c in tokens[i] ensures !Wildcard(c) {
        SplitWithin(s, '.', tokens[i], c);
      }
    }
  }

  // ---- The validated types ----

  type Subject = s: string | Validate(false, s).Ok? witness "a"
  type Filter = s: string | Validate(true, s).Ok? witness "a"

  function OfString(s: string): Result<Subject, SubjectError> {
    match Validate(false, s)
    case Ok(_) => Ok(s)
    case Error(e) => Error(e)
  }

  function FilterOfString(s: string): Result<Filter, SubjectError> {
    match Validate(true, s)
    case Ok(_) => Ok(s)
    case Error(e) => Error(e)
  }

  /** A token is made of printable characters other than spaces; a wildcard stands alone, in a filter, `>` at the end. */
  lemma TokenExactly(filter: bool, final: bool, token: string)
    ensures GoodToken(filter, final, token) <==>
            && token != "" && (forall c <- token :: c > ' ' && c as int != 0x7F)
            && (('*' !in token && '>' !in token) || (filter && token == "*") || (filter && final && token == ">"))
  {
    assert Plain(token) <==> '*' !in token && '>' !in token;
  }

  /** A valid name is non-empty and free of the characters that separate or end a control line. */
  lemma NameChars(filter: bool, s: string)
    requires Validate(filter, s).Ok?
    ensures s != "" && ' ' !in s && '\r' !in s && '\n' !in s
  {
    ValidateExact(filter, s);
    forall c | c in s && c != '.' ensures !Forbidden(c) {
      SplitChars(s, '.', c);
      var w :| w in Split(s, '.') && c in w;
      var tokens := Split(s, '.');
      var i :| 0 <= i < |tokens| && tokens[i] == w;
      assert GoodToken(filter, i == |tokens| - 1, tokens[i]);
    }
  }
}
