// The string operations of the source language's standard library that the
// state machines rely on, on sequences of characters or of bytes.
module Text {
  import opened Types

  // str::split_once: the parts around the first separator, if there is one.
  function SplitOnce<T(==)>(s: seq<T>, sep: T): (r: Option<(seq<T>, seq<T>)>)
    ensures r.None? <==> sep !in s
    ensures r.Some? ==> s == r.value.0 + [sep] + r.value.1 && sep !in r.value.0
  {
    if s == [] then None
    else if s[0] == sep then Some(([], s[1..]))
    else
      match SplitOnce(s[1..], sep)
      case None => None
      case Some((a, b)) => Some(([s[0]] + a, b))
  }

  // Splitting finds the parts again that were put around the first separator.
  lemma {:induction false} SplitJoined<T>(a: seq<T>, sep: T, b: seq<T>)
    requires sep !in a
    ensures SplitOnce(a + [sep] + b, sep) == Some((a, b))
  {
    var s := a + [sep] + b;
    if a == [] {
      assert s[1..] == b;
    } else {
      assert s[1..] == a[1..] + [sep] + b;
      SplitJoined(a[1..], sep, b);
      assert [s[0]] + a[1..] == a;
    }
  }

  const LF: Byte := 10
  const CR: Byte := 13

  function StripCr(line: Bytes): (r: Bytes)
    ensures r <= line && |line| - |r| <= 1
    ensures r == line <==> line == [] || line[|line| - 1] != CR
  {
    if line != [] && line[|line| - 1] == CR then line[..|line| - 1] else line
  }

  // str::lines: a line ends at a newline, or at a carriage return and newline;
  // the last one may have no end.
  function Lines(t: Bytes): (r: seq<Bytes>)
    ensures forall line :: line in r ==> LF !in line
    decreases |t|
  {
    if t == [] then []
    else
      match SplitOnce(t, LF)
      case None => [t]
      case Some((line, rest)) => [StripCr(line)] + Lines(rest)
  }
}
