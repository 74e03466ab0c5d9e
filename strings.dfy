/** Go's `strings.Split` and `strings.Join` for a one-character separator,
    on strings as sequences of characters. */
module Strings {

  /** `strings.Join(fields, string(sep))`: the fields with one `sep` between
      neighbours. */
  function Join(fields: seq<string>, sep: char): string
  {
    if |fields| == 0 then []
    else if |fields| == 1 then fields[0]
    else fields[0] + [sep] + Join(fields[1..], sep)
  }

  /** `strings.Split(s, string(sep))`: the maximal runs of `s` between
      occurrences of `sep`. As in Go, the result is never empty: a string
      without `sep` (the empty string included) gives one field, itself. */
  function Split(s: string, sep: char): (fields: seq<string>)
    ensures |fields| >= 1
    ensures forall i :: 0 <= i < |fields| ==> sep !in fields[i]
    ensures Join(fields, sep) == s
    decreases |s|
  {
    if s == [] then [[]]
    else
      var rest := Split(s[1..], sep);
      if s[0] == sep then
        assert ([[]] + rest)[1..] == rest;
        [[]] + rest
      else
        var fields := [[s[0]] + rest[0]] + rest[1..];
        assert fields[1..] == rest[1..];
        assert s == [s[0]] + s[1..];
        fields
  }

  /** The first field of a join is a prefix of it and, when more fields
      follow, a separator comes right after it. */
  lemma {:induction false} JoinHead(fields: seq<string>, sep: char)
    requires |fields| >= 1
    ensures fields[0] <= Join(fields, sep)
    ensures |fields| == 1 ==> Join(fields, sep) == fields[0]
    ensures |fields| >= 2 ==>
      |fields[0]| < |Join(fields, sep)| && Join(fields, sep)[|fields[0]|] == sep
  {
  }

  /** Splitting a string that starts with a separator-free word continues the
      first field of the rest with that word. */
  lemma {:induction false} SplitWord(w: string, t: string, sep: char)
    requires sep !in w
    ensures Split(w + t, sep) == [w + Split(t, sep)[0]] + Split(t, sep)[1..]
    decreases |w|
  {
    if w == [] {
      assert w + t == t;
      assert w + Split(t, sep)[0] == Split(t, sep)[0];
      assert Split(t, sep) == [Split(t, sep)[0]] + Split(t, sep)[1..];
    } else {
      SplitWord(w[1..], t, sep);
      assert (w + t)[1..] == w[1..] + t;
      assert (w + t)[0] == w[0] != sep;
      assert [w[0]] + (w[1..] + Split(t, sep)[0]) == w + Split(t, sep)[0];
    }
  }

  /** Split undoes Join: a non-empty list of separator-free fields is
      recovered from its join. Together with the third postcondition of
      Split, the two are inverse bijections. */
  lemma {:induction false} SplitJoin(fields: seq<string>, sep: char)
    requires |fields| >= 1
    requires forall i :: 0 <= i < |fields| ==> sep !in fields[i]
    ensures Split(Join(fields, sep), sep) == fields
    decreases |fields|
  {
    if |fields| == 1 {
      SplitWord(fields[0], [], sep);
      assert fields[0] + [] == fields[0];
    } else {
      var t := [sep] + Join(fields[1..], sep);
      assert Join(fields, sep) == fields[0] + t;
      SplitWord(fields[0], t, sep);
      SplitJoin(fields[1..], sep);
      assert t[1..] == Join(fields[1..], sep);
      assert Split(t, sep) == [[]] + fields[1..];
      assert fields[0] + [] == fields[0];
      assert fields == [fields[0]] + fields[1..];
    }
  }
}
