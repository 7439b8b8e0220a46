// The key-value state machine of the embedded build: an insertion-ordered map
// of at most 16 entries whose snapshot is 512 bytes of text, one "key=value"
// line per entry. Strings are their UTF-8 bytes; the separators are ASCII.
module TextMachines {
  import opened Types
  import opened Text

  const MAP_CAPACITY := 16
  const TEXT_CAPACITY := 512
  const EQUALS: Byte := 61

  type Entries = seq<(Bytes, Bytes)>

  predicate HasKey(m: Entries, key: Bytes) { exists i :: 0 <= i < |m| && m[i].0 == key }

  // An existing key keeps its place; a new one goes last.
  function Put(m: Entries, key: Bytes, value: Bytes): Entries {
    if m == [] then [(key, value)]
    else if m[0].0 == key then [(key, value)] + m[1..]
    else [m[0]] + Put(m[1..], key, value)
  }

  // A new key is lost when the map is full.
  function Insert(m: Entries, key: Bytes, value: Bytes): Entries {
    if HasKey(m, key) || |m| < MAP_CAPACITY then Put(m, key, value) else m
  }

  // Lines of a snapshot are read as payloads are applied.
  function ApplyPayload(m: Entries, payload: Bytes): Entries {
    match SplitOnce(payload, EQUALS)
    case None => m
    case Some((key, value)) => Insert(m, key, value)
  }

  function ApplyAll(m: Entries, payloads: seq<Bytes>): Entries
    decreases |payloads|
  {
    if payloads == [] then m else ApplyAll(ApplyPayload(m, payloads[0]), payloads[1..])
  }

  function Line(e: (Bytes, Bytes)): Bytes { e.0 + [EQUALS] + e.1 + [LF] }

  function FullText(m: Entries): Bytes { if m == [] then [] else Line(m[0]) + FullText(m[1..]) }

  // Pushing onto a full buffer is silently refused.
  function Cap(t: Bytes): Bytes { t[..Min(|t|, TEXT_CAPACITY)] }

  function SnapshotText(m: Entries): Bytes { Cap(FullText(m)) }

  // The map is cleared before the text is looked at.
  function Restore(valid: Bytes -> bool, text: Bytes): (Entries, bool) {
    if valid(text) then (ApplyAll([], Lines(text)), true) else ([], false)
  }

  // Restoring fails exactly on text that is not valid, and then leaves nothing.
  lemma RestoreFails(valid: Bytes -> bool, text: Bytes)
    ensures var (m, ok) := Restore(valid, text); ok == valid(text) && (!ok ==> m == [])
  {
  }

  // What str::from_utf8 accepts: ASCII is valid, and so is valid text after valid text.
  ghost predicate Utf8Rules(valid: Bytes -> bool) {
    && valid([]) && valid([EQUALS]) && valid([LF])
    && forall a: Bytes, b: Bytes :: valid(a) && valid(b) ==> valid(a + b)
  }

  // Keys and values are strings.
  ghost predicate Encoded(valid: Bytes -> bool, m: Entries) {
    forall i :: 0 <= i < |m| ==> valid(m[i].0) && valid(m[i].1)
  }

  // --- What applying can build ---

  ghost predicate Built(m: Entries) {
    && |m| <= MAP_CAPACITY
    && (forall i, j :: 0 <= i < j < |m| ==> m[i].0 != m[j].0)
    && forall i :: 0 <= i < |m| ==> EQUALS !in m[i].0
  }

  lemma {:induction false} PutShape(m: Entries, key: Bytes, value: Bytes)
    ensures var r := Put(m, key, value);
            && |r| == |m| + (if HasKey(m, key) then 0 else 1)
            && (forall i :: 0 <= i < |m| ==> r[i].0 == m[i].0)
            && (forall i :: 0 <= i < |m| && m[i].0 != key ==> r[i].1 == m[i].1)
            && (!HasKey(m, key) ==> r == m + [(key, value)])
  {
    if m != [] && m[0].0 != key {
      PutShape(m[1..], key, value);
      assert HasKey(m, key) <==> HasKey(m[1..], key) by {
        if HasKey(m, key) {
          var i :| 0 <= i < |m| && m[i].0 == key;
          assert m[1..][i - 1].0 == key;
        }
      }
      assert m == [m[0]] + m[1..];
    }
  }

  lemma ApplyBuilds(m: Entries, payload: Bytes)
    requires Built(m)
    ensures Built(ApplyPayload(m, payload))
  {
    match SplitOnce(payload, EQUALS)
    case None =>
    case Some((key, value)) => PutShape(m, key, value);
  }

  lemma {:induction false} ApplyAllBuilds(m: Entries, payloads: seq<Bytes>)
    requires Built(m)
    ensures Built(ApplyAll(m, payloads))
    decreases |payloads|
  {
    if payloads != [] {
      ApplyBuilds(m, payloads[0]);
      ApplyAllBuilds(ApplyPayload(m, payloads[0]), payloads[1..]);
    }
  }

  // --- What a key holds ---

  // The value stored for a key.
  function ValueOf(m: Entries, key: Bytes): Option<Bytes> {
    if m == [] then None else if m[0].0 == key then Some(m[0].1) else ValueOf(m[1..], key)
  }

  lemma {:induction false} KeyHasValue(m: Entries, key: Bytes)
    ensures ValueOf(m, key).Some? <==> HasKey(m, key)
  {
    if m != [] && m[0].0 != key {
      KeyHasValue(m[1..], key);
      if HasKey(m, key) {
        var i :| 0 <= i < |m| && m[i].0 == key;
        assert m[1..][i - 1].0 == key;
      }
    }
  }

  lemma {:induction false} PutHolds(m: Entries, key: Bytes, value: Bytes, k: Bytes)
    ensures ValueOf(Put(m, key, value), k) == if k == key then Some(value) else ValueOf(m, k)
  {
    if m == [] {
      assert [(key, value)][1..] == [];
    } else if m[0].0 == key {
      assert ([(key, value)] + m[1..])[1..] == m[1..];
    } else {
      PutHolds(m[1..], key, value, k);
      assert ([m[0]] + Put(m[1..], key, value))[1..] == Put(m[1..], key, value);
    }
  }

  // What "key=value" does to a map: with the key there or room for it, the key
  // then holds the value, every other key what it held, each in its place and a
  // new key last; with neither, nothing happens.
  ghost predicate Sets(m: Entries, key: Bytes, value: Bytes, r: Entries) {
    if HasKey(m, key) || |m| < MAP_CAPACITY then
      && ValueOf(r, key) == Some(value)
      && (forall k :: k != key ==> ValueOf(r, k) == ValueOf(m, k))
      && |r| == |m| + (if HasKey(m, key) then 0 else 1)
      && (forall i :: 0 <= i < |m| ==> r[i].0 == m[i].0)
      && (!HasKey(m, key) ==> r[|m|].0 == key)
    else r == m
  }

  lemma InsertSets(m: Entries, key: Bytes, value: Bytes)
    ensures Sets(m, key, value, Insert(m, key, value))
  {
    PutShape(m, key, value);
    forall k ensures ValueOf(Put(m, key, value), k) == if k == key then Some(value) else ValueOf(m, k) {
      PutHolds(m, key, value, k);
    }
  }

  lemma ApplySets(m: Entries, key: Bytes, value: Bytes)
    requires EQUALS !in key
    ensures Sets(m, key, value, ApplyPayload(m, key + [EQUALS] + value))
  {
    SplitJoined(key, EQUALS, value);
    InsertSets(m, key, value);
  }

  // The payload sets some other key, or nothing.
  predicate LeavesAlone(payload: Bytes, key: Bytes) { !(key + [EQUALS] <= payload) }

  lemma OthersLeave(m: Entries, payload: Bytes, key: Bytes)
    requires LeavesAlone(payload, key)
    ensures ValueOf(ApplyPayload(m, payload), key) == ValueOf(m, key)
  {
    match SplitOnce(payload, EQUALS) {
      case None =>
      case Some((k, v)) =>
        assert payload[..|k| + 1] == k + [EQUALS];
        InsertSets(m, k, v);
    }
  }

  // A key holds what was set last, however many payloads for other keys follow.
  lemma {:induction false} LastSetHolds(m: Entries, key: Bytes, value: Bytes, later: seq<Bytes>)
    requires ValueOf(m, key) == Some(value) && forall p :: p in later ==> LeavesAlone(p, key)
    ensures ValueOf(ApplyAll(m, later), key) == Some(value)
    decreases |later|
  {
    if later != [] {
      OthersLeave(m, later[0], key);
      LastSetHolds(ApplyPayload(m, later[0]), key, value, later[1..]);
    }
  }

  // --- What a snapshot keeps ---

  ghost predicate NoNewlines(m: Entries) {
    forall i :: 0 <= i < |m| ==> LF !in m[i].0 && LF !in m[i].1
  }

  ghost predicate NoTrailingCr(m: Entries) {
    forall i :: 0 <= i < |m| ==> m[i].1 == [] || m[i].1[|m[i].1| - 1] != CR
  }

  // The lines of a snapshot, and the entries they spell.
  function SnapshotLines(m: Entries): seq<Bytes> {
    if m == [] then [] else [m[0].0 + [EQUALS] + StripCr(m[0].1)] + SnapshotLines(m[1..])
  }

  function Stripped(m: Entries): (r: Entries)
    ensures |r| == |m|
  {
    if m == [] then [] else [(m[0].0, StripCr(m[0].1))] + Stripped(m[1..])
  }

  lemma StripBody(key: Bytes, value: Bytes)
    ensures StripCr(key + [EQUALS] + value) == key + [EQUALS] + StripCr(value)
  {
    var body := key + [EQUALS] + value;
    if value != [] && value[|value| - 1] == CR {
      assert body[..|body| - 1] == key + [EQUALS] + value[..|value| - 1];
    }
  }

  // The first line of a map's text, read.
  lemma FirstEntry(key: Bytes, value: Bytes, rest: Bytes)
    requires LF !in key && LF !in value
    ensures Lines(key + [EQUALS] + value + [LF] + rest) == [key + [EQUALS] + StripCr(value)] + Lines(rest)
  {
    SplitJoined(key + [EQUALS] + value, LF, rest);
    StripBody(key, value);
  }

  lemma {:induction false} LinesOfText(m: Entries)
    requires NoNewlines(m)
    ensures Lines(FullText(m)) == SnapshotLines(m)
  {
    if m != [] {
      FirstEntry(m[0].0, m[0].1, FullText(m[1..]));
      assert NoNewlines(m[1..]);
      LinesOfText(m[1..]);
    }
  }

  lemma Assoc<T>(a: seq<T>, b: seq<T>, c: seq<T>)
    ensures (a + b) + c == a + (b + c)
  {
  }

  lemma AssocLine<T>(a: seq<T>, b: seq<T>, c: seq<T>, d: seq<T>, e: seq<T>)
    ensures a + (b + c + d + e) == a + b + c + d + e
  {
  }

  lemma SameEnd<T>(a: seq<T>, b: seq<T>, x: T)
    ensures a + [x] == b + [x] <==> a == b
  {
    assert (a + [x])[..|a|] == a && (b + [x])[..|b|] == b;
  }

  lemma {:induction false} ReadLines(done: Entries, m: Entries)
    requires Built(done + m)
    ensures ApplyAll(done, SnapshotLines(m)) == done + Stripped(m)
    decreases |m|
  {
    if m != [] {
      var e := (m[0].0, StripCr(m[0].1));
      ReadLine(done, m);
      NextBuilt(done, m, e);
      ReadLines(done + [e], m[1..]);
      Assoc(done, [e], Stripped(m[1..]));
    }
  }

  lemma ReadLine(done: Entries, m: Entries)
    requires Built(done + m) && m != []
    ensures ApplyPayload(done, SnapshotLines(m)[0]) == done + [(m[0].0, StripCr(m[0].1))]
    ensures SnapshotLines(m)[1..] == SnapshotLines(m[1..])
  {
    assert (done + m)[|done|] == m[0];
    SplitJoined(m[0].0, EQUALS, StripCr(m[0].1));
    forall i | 0 <= i < |done| ensures done[i].0 != m[0].0 {
      assert (done + m)[i] == done[i];
    }
    PutShape(done, m[0].0, StripCr(m[0].1));
  }

  lemma NextBuilt(done: Entries, m: Entries, e: (Bytes, Bytes))
    requires Built(done + m) && m != [] && e.0 == m[0].0
    ensures Built(done + [e] + m[1..])
  {
    var a, b := done + m, done + [e] + m[1..];
    assert |a| == |b| && forall i :: 0 <= i < |a| ==> a[i].0 == b[i].0;
  }

  lemma {:induction false} StrippedSame(m: Entries)
    ensures Stripped(m) == m <==> NoTrailingCr(m)
  {
    if m != [] {
      StrippedSame(m[1..]);
      assert m == [m[0]] + m[1..];
      if NoTrailingCr(m[1..]) && StripCr(m[0].1) == m[0].1 {
        assert forall i :: 0 < i < |m| ==> m[i] == m[1..][i - 1];
      }
      if Stripped(m) == m {
        assert Stripped(m)[1..] == m[1..] && Stripped(m)[0] == m[0];
      }
    }
  }

  lemma {:induction false} TextValid(valid: Bytes -> bool, m: Entries)
    requires Utf8Rules(valid) && Encoded(valid, m)
    ensures valid(FullText(m))
  {
    if m != [] {
      TextValid(valid, m[1..]);
      assert valid(m[0].0 + [EQUALS]);
      assert valid(m[0].0 + [EQUALS] + m[0].1);
      assert valid(Line(m[0]));
    }
  }

  // Whatever is restored holds no newline.
  lemma {:induction false} RestoredLines(m: Entries, lines: seq<Bytes>)
    requires NoNewlines(m) && forall line :: line in lines ==> LF !in line
    ensures NoNewlines(ApplyAll(m, lines))
    decreases |lines|
  {
    if lines != [] {
      assert lines[0] in lines;
      PutNoNewlines(m, lines[0]);
      RestoredLines(ApplyPayload(m, lines[0]), lines[1..]);
    }
  }

  lemma PutNoNewlines(m: Entries, line: Bytes)
    requires NoNewlines(m) && LF !in line
    ensures NoNewlines(ApplyPayload(m, line))
  {
    match SplitOnce(line, EQUALS)
    case None =>
    case Some((key, value)) => PutEntries(m, key, value);
  }

  lemma {:induction false} PutEntries(m: Entries, key: Bytes, value: Bytes)
    requires NoNewlines(m) && LF !in key && LF !in value
    ensures NoNewlines(Put(m, key, value))
  {
    if m != [] && m[0].0 != key {
      assert NoNewlines(m[1..]);
      PutEntries(m[1..], key, value);
    }
  }

  lemma FittingText(valid: Bytes -> bool, m: Entries)
    requires Utf8Rules(valid) && Built(m) && |FullText(m)| <= TEXT_CAPACITY
    requires Encoded(valid, m)
    ensures Restore(valid, SnapshotText(m)) == (m, true) <==> NoNewlines(m) && NoTrailingCr(m)
  {
    TextValid(valid, m);
    assert SnapshotText(m) == FullText(m);
    RestoredLines([], Lines(FullText(m)));
    if NoNewlines(m) {
      LinesOfText(m);
      assert [] + m == m;
      ReadLines([], m);
      StrippedSame(m);
    }
  }

  // --- Text that does not fit ---

  // The room a map needs as text.
  function Size(m: Entries): nat { if m == [] then 0 else |Line(m[0])| + Size(m[1..]) }

  lemma {:induction false} SizeOfText(m: Entries)
    ensures |FullText(m)| == Size(m)
  {
    if m != [] {
      SizeOfText(m[1..]);
    }
  }

  lemma {:induction false} PutSize(m: Entries, key: Bytes, value: Bytes)
    ensures Size(Put(m, key, value)) <= Size(m) + |key| + |value| + 2
  {
    if m != [] {
      if m[0].0 == key {
        assert ([(key, value)] + m[1..])[1..] == m[1..];
      } else {
        PutSize(m[1..], key, value);
        assert ([m[0]] + Put(m[1..], key, value))[1..] == Put(m[1..], key, value);
      }
    }
  }

  function Room(lines: seq<Bytes>): nat { if lines == [] then 0 else |lines[0]| + 1 + Room(lines[1..]) }

  lemma {:induction false} AppliedSize(m: Entries, lines: seq<Bytes>)
    ensures Size(ApplyAll(m, lines)) <= Size(m) + Room(lines)
    decreases |lines|
  {
    if lines != [] {
      match SplitOnce(lines[0], EQUALS) {
        case None =>
        case Some((key, value)) => PutSize(m, key, value);
      }
      AppliedSize(ApplyPayload(m, lines[0]), lines[1..]);
    }
  }

  lemma {:induction false} LinesRoom(t: Bytes)
    ensures Room(Lines(t)) <= |t| + 1
    decreases |t|
  {
    if t != [] {
      match SplitOnce(t, LF)
      case None =>
        assert Lines(t) == [t] && [t][1..] == [];
      case Some((line, rest)) =>
        LinesRoom(rest);
        assert ([StripCr(line)] + Lines(rest))[1..] == Lines(rest);
    }
  }

  // A map whose text overflows the buffer by more than its last newline is
  // never restored, and nothing says so when the snapshot is taken.
  lemma OverflowLosesEntries(valid: Bytes -> bool, m: Entries)
    requires |FullText(m)| > TEXT_CAPACITY + 1
    ensures Restore(valid, SnapshotText(m)).0 != m
  {
    SizeOfText(m);
    var t := SnapshotText(m);
    LinesRoom(t);
    AppliedSize([], Lines(t));
  }

  // --- Text that loses only its last newline ---

  // The text of a map without the last entry's newline.
  function OpenText(m: Entries): Bytes
    requires m != []
  {
    FullText(m[..|m| - 1]) + m[|m| - 1].0 + [EQUALS] + m[|m| - 1].1
  }

  lemma OpenTextIs(m: Entries)
    requires m != []
    ensures FullText(m) == OpenText(m) + [LF]
  {
    var init, e := m[..|m| - 1], m[|m| - 1];
    assert m == init + [e];
    TextAppend(init, e);
    AssocLine(FullText(init), e.0, [EQUALS], e.1, [LF]);
  }

  lemma LastLine(line: Bytes)
    requires LF !in line && line != []
    ensures Lines(line) == [line]
  {
  }

  // The last line has no end, so a carriage return there is kept.
  lemma {:induction false} LinesOfOpenText(m: Entries, last: Bytes)
    requires NoNewlines(m) && LF !in last && last != []
    ensures Lines(FullText(m) + last) == SnapshotLines(m) + [last]
  {
    if m == [] {
      assert [] + last == last;
      LastLine(last);
    } else {
      assert NoNewlines(m[1..]);
      LinesOfOpenText(m[1..], last);
      OpenFirst(m, last);
      assert SnapshotLines(m) + [last] == [SnapshotLines(m)[0]] + (SnapshotLines(m[1..]) + [last]);
    }
  }

  lemma OpenFirst(m: Entries, last: Bytes)
    requires m != [] && NoNewlines(m)
    ensures Lines(FullText(m) + last) == [SnapshotLines(m)[0]] + Lines(FullText(m[1..]) + last)
  {
    Assoc(Line(m[0]), FullText(m[1..]), last);
    FirstEntry(m[0].0, m[0].1, FullText(m[1..]) + last);
  }

  lemma ReadLast(m: Entries)
    requires Built(m) && m != []
    ensures var e := m[|m| - 1];
            ApplyPayload(Stripped(m[..|m| - 1]), e.0 + [EQUALS] + e.1) == Stripped(m[..|m| - 1]) + [e]
  {
    var init, e := m[..|m| - 1], m[|m| - 1];
    SplitJoined(e.0, EQUALS, e.1);
    KeysOfStripped(init);
    forall i | 0 <= i < |init| ensures Stripped(init)[i].0 != e.0 {
      assert init[i] == m[i];
    }
    PutShape(Stripped(init), e.0, e.1);
  }

  lemma BuiltInit(m: Entries)
    requires Built(m) && m != []
    ensures Built(m[..|m| - 1])
  {
  }

  // Reading those lines gives back the map but for carriage returns at the end
  // of values other than the last.
  lemma ReadOpenText(m: Entries)
    requires Built(m) && m != [] && NoNewlines(m)
    ensures ApplyAll([], Lines(OpenText(m))) == Stripped(m[..|m| - 1]) + [m[|m| - 1]]
  {
    var init, e := m[..|m| - 1], m[|m| - 1];
    var last := e.0 + [EQUALS] + e.1;
    assert OpenText(m) == FullText(init) + last;
    LinesOfOpenText(init, last);
    BuiltInit(m);
    assert [] + init == init;
    ReadLines([], init);
    assert [] + Stripped(init) == Stripped(init);
    ApplySnoc([], SnapshotLines(init), last);
    ReadLast(m);
  }

  lemma {:induction false} KeysOfStripped(m: Entries)
    ensures forall i :: 0 <= i < |m| ==> Stripped(m)[i].0 == m[i].0
  {
    if m != [] {
      KeysOfStripped(m[1..]);
      forall i | 0 <= i < |m| ensures Stripped(m)[i].0 == m[i].0 {
        if i > 0 {
          assert Stripped(m)[i] == Stripped(m[1..])[i - 1];
        }
      }
    }
  }

  lemma OpenTextValid(valid: Bytes -> bool, m: Entries)
    requires Utf8Rules(valid) && m != [] && Encoded(valid, m)
    ensures valid(OpenText(m))
  {
    var init, e := m[..|m| - 1], m[|m| - 1];
    TextValid(valid, init);
    assert valid(FullText(init) + e.0);
    assert valid(FullText(init) + e.0 + [EQUALS]);
  }

  lemma OpenTextRestores(m: Entries)
    requires Built(m) && m != [] && NoNewlines(m)
    ensures ApplyAll([], Lines(OpenText(m))) == m <==> NoTrailingCr(m[..|m| - 1])
  {
    ReadOpenText(m);
    StrippedSame(m[..|m| - 1]);
    SameButLast(m, Stripped(m[..|m| - 1]));
  }

  lemma SameButLast<T>(m: seq<T>, a: seq<T>)
    requires m != []
    ensures a + [m[|m| - 1]] == m <==> a == m[..|m| - 1]
  {
    assert m == m[..|m| - 1] + [m[|m| - 1]];
    SameEnd(a, m[..|m| - 1], m[|m| - 1]);
  }

  lemma BarelyOverflowing(valid: Bytes -> bool, m: Entries)
    requires Utf8Rules(valid) && Built(m) && |FullText(m)| == TEXT_CAPACITY + 1
    requires Encoded(valid, m)
    ensures Restore(valid, SnapshotText(m)) == (m, true) <==> NoNewlines(m) && NoTrailingCr(m[..|m| - 1])
  {
    OpenTextIs(m);
    OpenTextValid(valid, m);
    assert SnapshotText(m) == OpenText(m);
    RestoredLines([], Lines(OpenText(m)));
    if NoNewlines(m) {
      OpenTextRestores(m);
    }
  }

  // Values that a snapshot ends a line after: all of them, or all but the last
  // when the text is one byte too long for the buffer.
  function Ended(m: Entries): Entries { if |FullText(m)| > TEXT_CAPACITY && m != [] then m[..|m| - 1] else m }

  lemma AnySize(valid: Bytes -> bool, m: Entries)
    requires Utf8Rules(valid) && Built(m) && Encoded(valid, m)
    ensures Restore(valid, SnapshotText(m)) == (m, true) <==>
            |FullText(m)| <= TEXT_CAPACITY + 1 && NoNewlines(m) && NoTrailingCr(Ended(m))
  {
    if |FullText(m)| <= TEXT_CAPACITY {
      FittingText(valid, m);
    } else if |FullText(m)| == TEXT_CAPACITY + 1 {
      BarelyOverflowing(valid, m);
    } else {
      OverflowLosesEntries(valid, m);
    }
  }

  // Restoring a snapshot gives the map back, in order, exactly when its text
  // overflows the buffer by no more than the last newline, no key or value has a
  // newline, and no value that ends a line in the buffer ends in a carriage
  // return. Values may hold '='.
  lemma SnapshotRoundTrip(valid: Bytes -> bool, payloads: seq<Bytes>)
    requires Utf8Rules(valid)
    requires Encoded(valid, ApplyAll([], payloads))
    ensures var m := ApplyAll([], payloads);
            Restore(valid, SnapshotText(m)) == (m, true) <==>
            |FullText(m)| <= TEXT_CAPACITY + 1 && NoNewlines(m) && NoTrailingCr(Ended(m))
  {
    ApplyAllBuilds([], payloads);
    AnySize(valid, ApplyAll([], payloads));
  }

  // --- The machine, updated in place ---

  lemma {:induction false} TextAppend(m: Entries, e: (Bytes, Bytes))
    ensures FullText(m + [e]) == FullText(m) + Line(e)
  {
    if m == [] {
      assert [] + [e] == [e] && [e][1..] == [];
    } else {
      assert (m + [e])[1..] == m[1..] + [e];
      TextAppend(m[1..], e);
    }
  }

  lemma CapTwice(a: Bytes, b: Bytes)
    ensures Cap(Cap(a) + b) == Cap(a + b)
  {
  }

  lemma {:induction false} ApplySnoc(m: Entries, lines: seq<Bytes>, line: Bytes)
    ensures ApplyAll(m, lines + [line]) == ApplyPayload(ApplyAll(m, lines), line)
    decreases |lines|
  {
    if lines == [] {
      assert [] + [line] == [line] && [line][1..] == [];
    } else {
      assert (lines + [line])[1..] == lines[1..] + [line];
      ApplySnoc(ApplyPayload(m, lines[0]), lines[1..], line);
    }
  }

  // Vec::push on a full buffer does nothing.
  method PushBytes(t: Bytes, bytes: Bytes) returns (r: Bytes)
    requires |t| <= TEXT_CAPACITY
    ensures r == Cap(t + bytes)
  {
    r := t;
    assert t + bytes[..0] == t;
    for i := 0 to |bytes|
      invariant r == Cap(t + bytes[..i])
    {
      assert t + bytes[..i + 1] == t + bytes[..i] + [bytes[i]];
      if |r| < TEXT_CAPACITY {
        r := r + [bytes[i]];
      }
    }
    assert bytes[..|bytes|] == bytes;
  }

  method PushLine(t: Bytes, e: (Bytes, Bytes), ghost before: Bytes) returns (r: Bytes)
    requires t == Cap(before)
    ensures r == Cap(before + Line(e))
  {
    r := PushBytes(t, e.0);
    CapTwice(before, e.0);
    r := PushBytes(r, [EQUALS]);
    CapTwice(before + e.0, [EQUALS]);
    r := PushBytes(r, e.1);
    CapTwice(before + e.0 + [EQUALS], e.1);
    r := PushBytes(r, [LF]);
    CapTwice(before + e.0 + [EQUALS] + e.1, [LF]);
    assert before + e.0 + [EQUALS] + e.1 + [LF] == before + Line(e);
  }

  class EmbassyStateMachine {
    var data: Entries

    constructor ()
      ensures data == []
    {
      data := [];
    }

    method Apply(payload: Bytes)
      modifies this
      ensures forall key: Bytes, value: Bytes ::
                EQUALS !in key && payload == key + [EQUALS] + value ==> Sets(old(data), key, value, data)
      ensures EQUALS !in payload ==> data == old(data)
      ensures data == ApplyPayload(old(data), payload)
    {
      match SplitOnce(payload, EQUALS) {
        case None =>
        case Some((key, value)) => data := Insert(data, key, value);
      }
      forall key: Bytes, value: Bytes | EQUALS !in key && payload == key + [EQUALS] + value
        ensures Sets(old(data), key, value, data)
      {
        ApplySets(old(data), key, value);
      }
    }

    method CreateSnapshot() returns (text: Bytes)
      ensures text == SnapshotText(data)
    {
      text := [];
      for i := 0 to |data|
        invariant text == Cap(FullText(data[..i]))
      {
        text := PushLine(text, data[i], FullText(data[..i]));
        TextAppend(data[..i], data[i]);
        assert data[..i + 1] == data[..i] + [data[i]];
      }
      assert data[..|data|] == data;
    }

    method RestoreFromSnapshot(valid: Bytes -> bool, text: Bytes) returns (ok: bool)
      modifies this
      ensures ok == valid(text) && (!ok ==> data == [])
      ensures (data, ok) == Restore(valid, text)
    {
      data := [];
      if !valid(text) {
        return false;
      }
      var lines := Lines(text);
      for i := 0 to |lines|
        invariant data == ApplyAll([], lines[..i])
      {
        ApplySnoc([], lines[..i], lines[i]);
        assert lines[..i + 1] == lines[..i] + [lines[i]];
        match SplitOnce(lines[i], EQUALS) {
          case None =>
          case Some((key, value)) => data := Insert(data, key, value);
        }
      }
      assert lines[..|lines|] == lines;
      return true;
    }
  }
}
