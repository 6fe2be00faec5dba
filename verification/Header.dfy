/** The ordered header multimap (lib/header.ml); entries are stored newest first. */
module Header {
  import opened Base
  import opened Text

  datatype Entry = Entry(name: string, value: string)

  datatype HeaderError =
    | EmptyName
    | InvalidNameCharacter(position: nat, character: char)
    | InvalidValueCharacter(position: nat, character: char)

  predicate BadNameChar(c: char) {
    c as int <= 32 || c as int == 127 || c == ':'
  }

  predicate BadValueChar(c: char) {
    c as int < 32 || c as int == 127
  }

  predicate GoodName(name: string) {
    name != "" && forall c <- name :: !BadNameChar(c)
  }

  predicate GoodValue(value: string) {
    forall c <- value :: !BadValueChar(c)
  }

  predicate GoodEntry(e: Entry) {
    GoodName(e.name) && GoodValue(e.value)
  }

  type Headers = entries: seq<Entry> | forall e <- entries :: GoodEntry(e)

  /** The error an entry is rejected with: the first offending character, the name before the value. */
  ghost predicate EntryError(e: Entry, error: HeaderError) {
    match error
    case EmptyName => e.name == ""
    case InvalidNameCharacter(p, c) =>
      p < |e.name| && e.name[p] == c && BadNameChar(c) && forall i :: 0 <= i < p ==> !BadNameChar(e.name[i])
    case InvalidValueCharacter(p, c) =>
      GoodName(e.name) && p < |e.value| && e.value[p] == c && BadValueChar(c)
      && forall i :: 0 <= i < p ==> !BadValueChar(e.value[i])
  }

  function NameErrorFrom(name: string, k: nat): (r: Option<HeaderError>)
    requires k <= |name|
    ensures r.None? <==> forall i :: k <= i < |name| ==> !BadNameChar(name[i])
    ensures r.Some? ==> r.value.InvalidNameCharacter? && k <= r.value.position < |name|
                        && name[r.value.position] == r.value.character && BadNameChar(r.value.character)
                        && forall i :: k <= i < r.value.position ==> !BadNameChar(name[i])
    decreases |name| - k
  {
    if k == |name| then None
    else if BadNameChar(name[k]) then Some(InvalidNameCharacter(k, name[k]))
    else NameErrorFrom(name, k + 1)
  }

  function ValueErrorFrom(value: string, k: nat): (r: Option<HeaderError>)
    requires k <= |value|
    ensures r.None? <==> forall i :: k <= i < |value| ==> !BadValueChar(value[i])
    ensures r.Some? ==> r.value.InvalidValueCharacter? && k <= r.value.position < |value|
                        && value[r.value.position] == r.value.character && BadValueChar(r.value.character)
                        && forall i :: k <= i < r.value.position ==> !BadValueChar(value[i])
    decreases |value| - k
  {
    if k == |value| then None
    else if BadValueChar(value[k]) then Some(InvalidValueCharacter(k, value[k]))
    else ValueErrorFrom(value, k + 1)
  }

  function NameError(name: string): Option<HeaderError> {
    if name == "" then Some(EmptyName) else NameErrorFrom(name, 0)
  }

  function ValidateEntry(e: Entry): (r: Option<HeaderError>)
    ensures r.None? <==> GoodEntry(e)
    ensures r.Some? ==> EntryError(e, r.value)
  {
    match NameError(e.name)
    case Some(error) => Some(error)
    case None => ValueErrorFrom(e.value, 0)
  }

  method ValidateName(name: string) returns (failure: Option<HeaderError>)
    ensures failure == NameError(name)
  {
    if |name| == 0 {
      return Some(EmptyName);
    }
    failure := None;
    for position := 0 to |name|
      invariant if failure.Some? then failure == NameErrorFrom(name, 0)
                else NameErrorFrom(name, 0) == NameErrorFrom(name, position)
    {
      if failure.None? {
        var character := name[position];
        if BadNameChar(character) {
          failure := Some(InvalidNameCharacter(position, character));
        }
      }
    }
  }

  method ValidateValue(value: string) returns (failure: Option<HeaderError>)
    ensures failure == ValueErrorFrom(value, 0)
  {
    failure := None;
    for position := 0 to |value|
      invariant if failure.Some? then failure == ValueErrorFrom(value, 0)
                else ValueErrorFrom(value, 0) == ValueErrorFrom(value, position)
    {
      if failure.None? {
        var character := value[position];
        if BadValueChar(character) {
          failure := Some(InvalidValueCharacter(position, character));
        }
      }
    }
  }

  function Add(headers: Headers, e: Entry): Result<Headers, HeaderError> {
    match ValidateEntry(e)
    case Some(error) => Error(error)
    case None => Ok([e] + headers)
  }

  /** The fold of `of_list`, from an accumulated header list. */
  function AddAll(headers: Headers, entries: seq<Entry>): Result<Headers, HeaderError>
    decreases entries
  {
    if entries == [] then Ok(headers)
    else match Add(headers, entries[0])
      case Error(error) => Error(error)
      case Ok(more) => AddAll(more, entries[1..])
  }

  function OfList(entries: seq<Entry>): Result<Headers, HeaderError> {
    AddAll([], entries)
  }

  function ToList(headers: Headers): seq<Entry> {
    Reverse(headers)
  }

  lemma {:induction false} AddAllExact(headers: Headers, entries: seq<Entry>)
    ensures AddAll(headers, entries).Ok? <==> forall e <- entries :: GoodEntry(e)
    ensures AddAll(headers, entries).Ok? ==> AddAll(headers, entries).value == Reverse(entries) + headers
    ensures AddAll(headers, entries).Error? ==>
              exists i :: 0 <= i < |entries| && EntryError(entries[i], AddAll(headers, entries).error)
                          && forall j :: 0 <= j < i ==> GoodEntry(entries[j])
    decreases entries
  {
    if entries != [] {
      var e, rest := entries[0], entries[1..];
      assert entries == [e] + rest;
      match Add(headers, e) {
        case Error(error) =>
          assert EntryError(entries[0], error);
        case Ok(more) =>
          AddAllExact(more, rest);
          assert Reverse(entries) + headers == Reverse(rest) + more;
          if AddAll(more, rest).Error? {
            var i :| 0 <= i < |rest| && EntryError(rest[i], AddAll(more, rest).error)
                     && forall j :: 0 <= j < i ==> GoodEntry(rest[j]);
            assert EntryError(entries[i + 1], AddAll(headers, entries).error);
            forall j | 0 <= j < i + 1 ensures GoodEntry(entries[j]) {
              assert j > 0 ==> entries[j] == rest[j - 1];
            }
          }
      }
    }
  }

  /** `of_list` accepts exactly the valid entry lists, keeps their wire order, and reports the first bad entry. */
  lemma OfListExact(entries: seq<Entry>)
    ensures OfList(entries).Ok? <==> forall e <- entries :: GoodEntry(e)
    ensures OfList(entries).Ok? ==> ToList(OfList(entries).value) == entries
    ensures OfList(entries).Error? ==>
              exists i :: 0 <= i < |entries| && EntryError(entries[i], OfList(entries).error)
                          && forall j :: 0 <= j < i ==> GoodEntry(entries[j])
  {
    AddAllExact([], entries);
    if OfList(entries).Ok? {
      assert Reverse(Reverse(entries)) == entries;
      assert Reverse(entries) + [] == Reverse(entries);
    }
  }

  /** Names are made of printable characters other than spaces and colons, values of all but control characters. */
  lemma OfListAccepts(entries: seq<Entry>)
    ensures OfList(entries).Ok? <==>
            forall e <- entries ::
              && e.name != "" && (forall c <- e.name :: c > ' ' && c != ':' && c as int != 0x7F)
              && forall c <- e.value :: c >= ' ' && c as int != 0x7F
  {
    AddAllExact([], entries);
  }

  lemma OfListToList(headers: Headers)
    ensures OfList(ToList(headers)) == Ok(headers)
  {
    AddAllExact([], ToList(headers));
    assert Reverse(Reverse(headers)) + [] == headers;
  }

  /** The values stored under a name, ignoring ASCII case, in the order of `entries`. */
  function ValuesOf(name: string, entries: seq<Entry>): seq<string> {
    if entries == [] then []
    else (if Lowercase(entries[0].name) == Lowercase(name) then [entries[0].value] else [])
         + ValuesOf(name, entries[1..])
  }

  lemma {:induction false} ValuesOfAppend(name: string, a: seq<Entry>, b: seq<Entry>)
    ensures ValuesOf(name, a + b) == ValuesOf(name, a) + ValuesOf(name, b)
  {
    if a == [] {
      assert a + b == b;
    } else {
      assert (a + b)[1..] == a[1..] + b;
      ValuesOfAppend(name, a[1..], b);
    }
  }

  /** Lookup walks the newest-first list and still answers in wire order. */
  method FindAll(name: string, headers: Headers) returns (values: seq<string>)
    ensures values == ValuesOf(name, ToList(headers))
  {
    var wanted := Lowercase(name);
    values := [];
    for i := 0 to |headers|
      invariant values == ValuesOf(name, Reverse(headers[..i]))
    {
      ghost var before := Reverse(headers[..i]);
      assert Reverse(headers[..i + 1]) == [headers[i]] + before;
      ValuesOfAppend(name, [headers[i]], before);
      if wanted == Lowercase(headers[i].name) {
        values := [headers[i].value] + values;
      }
    }
    assert headers[..|headers|] == headers;
  }
}
