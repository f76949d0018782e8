/**
  The name splitter both scripts share: the full name is split on the space
  character, the first piece is the first name, and the remaining pieces,
  re-joined with a space, are the last name. `String.prototype.split` with a
  one-character separator cuts at every occurrence of that exact character
  (no whitespace folding), so "Jane  Doe" splits into ["Jane", "", "Doe"] and
  gives the last name " Doe".
 */
module NameSplit {

  datatype PersonName = PersonName(firstName: string, lastName: string)

  /** `s.split(sep)` for a one-character separator: never empty; "" gives [""]. */
  function Split(s: string, sep: char): (parts: seq<string>)
    ensures |parts| >= 1
  {
    if s == [] then [""]
    else
      var rest := Split(s[1..], sep);
      if s[0] == sep then [""] + rest
      else [[s[0]] + rest[0]] + rest[1..]
  }

  /** `parts.join(sep)`: [] gives "". */
  function Join(parts: seq<string>, sep: char): string {
    if |parts| == 0 then ""
    else if |parts| == 1 then parts[0]
    else parts[0] + [sep] + Join(parts[1..], sep)
  }

  /** Prepending a non-separator character to a split extends its first piece. */
  lemma JoinExtendFirst(c: char, rest: seq<string>, sep: char)
    requires |rest| >= 1
    ensures Join([[c] + rest[0]] + rest[1..], sep) == [c] + Join(rest, sep)
  {
    var parts := [[c] + rest[0]] + rest[1..];
    assert parts[1..] == rest[1..];
  }

  /** Joining the pieces of a split with the same separator gives back the string. */
  lemma {:induction false} JoinSplit(s: string, sep: char)
    ensures Join(Split(s, sep), sep) == s
  {
    if s != [] {
      var rest := Split(s[1..], sep);
      JoinSplit(s[1..], sep);
      if s[0] == sep {
        var parts := [""] + rest;
        assert parts[1..] == rest;
        assert Join(parts, sep) == "" + [sep] + Join(rest, sep);
      } else {
        JoinExtendFirst(s[0], rest, sep);
      }
      assert [s[0]] + s[1..] == s;
    }
  }

  /** No piece of a split contains the separator. */
  lemma {:induction false} SplitPiecesExcludeSeparator(s: string, sep: char)
    ensures forall k :: 0 <= k < |Split(s, sep)| ==> sep !in Split(s, sep)[k]
  {
    if s != [] {
      SplitPiecesExcludeSeparator(s[1..], sep);
      var rest := Split(s[1..], sep);
      if s[0] != sep {
        assert sep !in rest[0];
        assert sep !in [s[0]] + rest[0];
        var parts := [[s[0]] + rest[0]] + rest[1..];
        forall k | 0 <= k < |parts| ensures sep !in parts[k] {
          if k > 0 { assert parts[k] == rest[k]; }
        }
      } else {
        var parts := [""] + rest;
        forall k | 0 <= k < |parts| ensures sep !in parts[k] {
          if k > 0 { assert parts[k] == rest[k - 1]; }
        }
      }
    }
  }

  /** A split yields more than one piece exactly when the separator occurs. */
  lemma {:induction false} SplitManyPiecesIffSeparator(s: string, sep: char)
    ensures |Split(s, sep)| > 1 <==> sep in s
  {
    if s != [] {
      SplitManyPiecesIffSeparator(s[1..], sep);
      assert s == [s[0]] + s[1..];
      assert sep in s <==> s[0] == sep || sep in s[1..];
    }
  }

  /**
    First and last name of a full name. The first name is the text before the
    first space and carries no space; when the name has a space, first name,
    one space and last name give back the name; when it has none, the whole
    name is the first name and the last name is empty.
   */
  function SplitName(name: string): (r: PersonName)
    ensures ' ' !in r.firstName
    ensures ' ' in name ==> r.firstName + " " + r.lastName == name
    ensures ' ' !in name ==> r.firstName == name && r.lastName == ""
  {
    var parts := Split(name, ' ');
    JoinSplit(name, ' ');
    SplitPiecesExcludeSeparator(name, ' ');
    SplitManyPiecesIffSeparator(name, ' ');
    // `x || ''` leaves a string unchanged: '' is the only falsy string.
    PersonName(parts[0], Join(parts[1..], ' '))
  }

  /**
    The contract of SplitName determines its result: any split of a name into a
    space-free first part, one space and a rest is the one SplitName returns.
   */
  lemma SplitNameUnique(name: string, first: string, last: string)
    requires ' ' !in first
    requires first + " " + last == name
    ensures SplitName(name) == PersonName(first, last)
  {
    var r := SplitName(name);
    assert name[|first|] == ' ';
    assert ' ' in name;
    // Both first parts are the text of `name` before its first space.
    assert forall i :: 0 <= i < |first| ==> name[i] == first[i] != ' ';
    assert forall i :: 0 <= i < |r.firstName| ==> name[i] == r.firstName[i] != ' ';
    assert name[|r.firstName|] == ' ';
    assert |r.firstName| == |first|;
    assert r.firstName == name[..|first|] == first;
    assert r.lastName == name[|first| + 1..] == last;
  }

  /** Two spaces in a row: the second one stays at the front of the last name. */
  lemma DoubleSpaceKeepsLeadingSpace()
    ensures SplitName("Jane  Doe") == PersonName("Jane", " Doe")
  {
    SplitNameUnique("Jane  Doe", "Jane", " Doe");
  }
}
