/** Splitting strings at a separator, and joining them again. */
module Strings {

  function Split(s: string, separator: char): (parts: seq<string>)
    ensures |parts| > 0
  {
    if s == "" then [""]
    else
      var parts := Split(s[..|s| - 1], separator);
      if s[|s| - 1] == separator then parts + [""]
      else parts[..|parts| - 1] + [parts[|parts| - 1] + [s[|s| - 1]]]
  }

  /** One more character: a separator opens a new part, anything else extends the last one. */
  function Append(parts: seq<string>, c: char, separator: char): seq<string>
    requires parts != []
  {
    if c == separator then parts + [""] else parts[..|parts| - 1] + [parts[|parts| - 1] + [c]]
  }

  lemma SplitSnoc(s: string, c: char, separator: char)
    ensures Split(s + [c], separator) == Append(Split(s, separator), c, separator)
  {
    assert (s + [c])[..|s|] == s;
  }

  lemma AppendConcat(a: seq<string>, b: seq<string>, c: char, separator: char)
    requires b != []
    ensures Append(a + b, c, separator) == a + Append(b, c, separator)
  {}

  lemma {:induction false} SplitConcat(a: string, b: string, separator: char)
    ensures Split(a + [separator] + b, separator) == Split(a, separator) + Split(b, separator)
    decreases |b|
  {
    if b == "" {
      assert a + [separator] + b == a + [separator];
      SplitSnoc(a, separator, separator);
      assert Split("", separator) == [""];
    } else {
      var front, c := b[..|b| - 1], b[|b| - 1];
      calc {
        Split(a + [separator] + b, separator);
        { assert a + [separator] + b == a + [separator] + front + [c]; SplitSnoc(a + [separator] + front, c, separator); }
        Append(Split(a + [separator] + front, separator), c, separator);
        { SplitConcat(a, front, separator); AppendConcat(Split(a, separator), Split(front, separator), c, separator); }
        Split(a, separator) + Append(Split(front, separator), c, separator);
        { assert b == front + [c]; SplitSnoc(front, c, separator); }
        Split(a, separator) + Split(b, separator);
      }
    }
  }

  lemma {:induction false} SplitWhole(s: string, separator: char)
    requires separator !in s
    ensures Split(s, separator) == [s]
  {
    if s != "" {
      var front := s[..|s| - 1];
      SplitWhole(front, separator);
      assert s == front + [s[|s| - 1]];
    }
  }

  /** No part of a split contains the separator. */
  lemma {:induction false} PartsAreWhole(s: string, separator: char)
    ensures forall part :: part in Split(s, separator) ==> separator !in part
  {
    if s != "" {
      PartsAreWhole(s[..|s| - 1], separator);
    }
  }

  function Join(parts: seq<string>, separator: char): string {
    if parts == [] then "" else if |parts| == 1 then parts[0] else parts[0] + [separator] + Join(parts[1..], separator)
  }

  lemma {:induction false} SplitOfJoin(parts: seq<string>, separator: char)
    requires parts != [] && forall i :: 0 <= i < |parts| ==> separator !in parts[i]
    ensures Split(Join(parts, separator), separator) == parts
  {
    SplitWhole(parts[0], separator);
    if |parts| > 1 {
      SplitConcat(parts[0], Join(parts[1..], separator), separator);
      SplitOfJoin(parts[1..], separator);
    }
  }

  lemma JoinSnoc(parts: seq<string>, last: string, separator: char)
    requires parts != []
    ensures Join(parts + [last], separator) == Join(parts, separator) + [separator] + last
  {
    if |parts| > 1 {
      JoinSnoc(parts[1..], last, separator);
      assert (parts + [last])[1..] == parts[1..] + [last];
    } else {
      assert parts + [last] == [parts[0], last];
    }
  }

  /** Joining what was split gives the string back. */
  lemma {:induction false} JoinOfSplit(s: string, separator: char)
    ensures Join(Split(s, separator), separator) == s
  {
    if s != "" {
      var front, c := s[..|s| - 1], s[|s| - 1];
      var parts := Split(front, separator);
      JoinOfSplit(front, separator);
      assert s == front + [c];
      if c == separator {
        JoinSnoc(parts, "", separator);
      } else {
        var init, last := parts[..|parts| - 1], parts[|parts| - 1];
        assert parts == init + [last];
        if init != [] {
          JoinSnoc(init, last, separator);
          JoinSnoc(init, last + [c], separator);
        }
      }
    }
  }
}
