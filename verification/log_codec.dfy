// The log as bytes in a file: a count, then for each entry its term, a tag, a
// length and that many payload bytes. Numbers are little-endian.
module LogCodec {
  import opened Types

  // Text encoding is the language's; the codec gets it as a pair of functions.
  datatype Utf8 = Utf8(encode: string -> Bytes, decode: Bytes -> Option<string>)
  {
    ghost predicate Faithful() { forall s: string :: decode(encode(s)) == Some(s) }
  }

  function Pow256(w: nat): (r: nat)
    ensures r > 0
  {
    if w == 0 then 1 else 256 * Pow256(w - 1)
  }

  // to_le_bytes of an unsigned integer w bytes wide; a wider value wraps.
  function ToLe(n: nat, w: nat): (r: Bytes)
    ensures |r| == w
  {
    if w == 0 then [] else [n % 256] + ToLe(n / 256, w - 1)
  }

  function FromLe(b: Bytes): nat { if b == [] then 0 else b[0] + 256 * FromLe(b[1..]) }

  lemma {:induction false} LeRoundTrip(n: nat, w: nat)
    requires n < Pow256(w)
    ensures FromLe(ToLe(n, w)) == n
  {
    if w > 0 {
      LeRoundTrip(n / 256, w - 1);
      assert ToLe(n, w)[1..] == ToLe(n / 256, w - 1);
    }
  }

  // A field of w bytes at an offset.
  predicate FieldAt(data: Bytes, offset: nat, w: nat) { offset + w <= |data| }

  function Field(data: Bytes, offset: nat, w: nat): nat
    requires FieldAt(data, offset, w)
  {
    FromLe(data[offset..offset + w])
  }

  function SerializeEntry(u: Utf8, e: LogEntry): Bytes {
    ToLe(e.term, 8) +
    match e.entryType
    case Command(payload) => [0] + ToLe(|u.encode(payload)|, 4) + u.encode(payload)
    case ConfigChange(_) => [1] + ToLe(0, 4)
  }

  function SerializeEntries(u: Utf8, log: Log): Bytes {
    if log == [] then [] else SerializeEntry(u, log[0]) + SerializeEntries(u, log[1..])
  }

  function Serialize(u: Utf8, log: Log): Bytes { ToLe(|log|, 8) + SerializeEntries(u, log) }

  // One turn of a reader whose offsets never wrap: None where it breaks off,
  // otherwise the entry if this turn yields one, and where the next turn starts.
  function WideEntry(u: Utf8, data: Bytes, offset: nat): (r: Option<(Option<LogEntry>, nat)>)
    ensures r.Some? ==> r.value.1 >= offset + 13
    ensures r.Some? && r.value.0.Some? ==> r.value.1 <= |data|
  {
    if !FieldAt(data, offset, 8) then None
    else if !FieldAt(data, offset + 8, 1) then None
    else if !FieldAt(data, offset + 9, 4) then None
    else
      var term, tag, len := Field(data, offset, 8), data[offset + 8], Field(data, offset + 9, 4);
      var start := offset + 13;
      if tag == 0 then
        if !FieldAt(data, start, len) then None
        else
          match u.decode(data[start..start + len])
          case Some(payload) => Some((Some(LogEntry(term, Command(payload))), start + len))
          case None => Some((None, start + len))
      else Some((None, start + len))
  }

  function Entries(e: Option<LogEntry>): Log { if e.Some? then [e.value] else [] }

  function WideEntries(u: Utf8, data: Bytes, offset: nat, count: nat): Log
    decreases count
  {
    if count == 0 then []
    else
      match WideEntry(u, data, offset)
      case None => []
      case Some((e, next)) => Entries(e) + WideEntries(u, data, next, count - 1)
  }

  function WideLog(u: Utf8, data: Bytes): Log {
    if |data| < 8 then [] else WideEntries(u, data, 8, Wrap(Field(data, 0, 8)))
  }

  // --- The reader on the 32-bit target it is built for ---

  // usize is 32 bits wide there, its additions wrap in a release build, and no
  // slice is longer than isize::MAX bytes.
  const USIZE_RANGE := 0x1_0000_0000
  const MAX_LEN := 0x7FFF_FFFF

  function Wrap(n: nat): (r: nat)
    ensures r < USIZE_RANGE && (n < USIZE_RANGE ==> r == n)
  {
    n % USIZE_RANGE
  }

  // How a turn of the loop ends: it breaks off, it indexes out of range and
  // panics, or it reads a header and goes on at the next offset.
  datatype Turn = Break | OutOfRange | Read(entry: Option<LogEntry>, next: nat)

  function ReadEntry(u: Utf8, data: Bytes, offset: nat): Turn {
    if Wrap(offset + 8) > |data| then Break
    else if !FieldAt(data, offset, 8) then OutOfRange
    else if !FieldAt(data, offset + 8, 1) then Break
    else if !FieldAt(data, offset + 9, 4) then Break
    else
      var term, tag, len := Field(data, offset, 8), data[offset + 8], Field(data, offset + 9, 4);
      var start := offset + 13;
      if tag != 0 then Read(None, Wrap(start + len))
      else if Wrap(start + len) > |data| then Break
      else if !FieldAt(data, start, len) then OutOfRange
      else
        match u.decode(data[start..start + len])
        case Some(payload) => Read(Some(LogEntry(term, Command(payload))), start + len)
        case None => Read(None, start + len)
  }

  // None stands for the panic.
  function ReadEntries(u: Utf8, data: Bytes, offset: nat, count: nat): Option<Log>
    decreases count
  {
    if count == 0 then Some([])
    else
      match ReadEntry(u, data, offset)
      case Break => Some([])
      case OutOfRange => None
      case Read(e, next) =>
        match ReadEntries(u, data, next, count - 1)
        case None => None
        case Some(rest) => Some(Entries(e) + rest)
  }

  function Deserialize(u: Utf8, data: Bytes): Option<Log> {
    if |data| < 8 then Some([]) else ReadEntries(u, data, 8, Wrap(Field(data, 0, 8)))
  }

  lemma NextWritten(u: Utf8, log: Log, i: nat, before: Bytes, data: Bytes)
    requires i < |log| && data == before + SerializeEntry(u, log[i])
    ensures data + SerializeEntries(u, log[i + 1..]) == before + SerializeEntries(u, log[i..])
  {
    assert log[i..][0] == log[i] && log[i..][1..] == log[i + 1..];
  }

  // serialize_log.
  method SerializeLog(u: Utf8, log: Log) returns (data: Bytes)
    ensures data == Serialize(u, log)
  {
    data := ToLe(|log|, 8);
    for i := 0 to |log|
      invariant data + SerializeEntries(u, log[i..]) == Serialize(u, log)
    {
      ghost var before := data;
      data := data + ToLe(log[i].term, 8);
      match log[i].entryType {
        case Command(payload) =>
          var payloadBytes := u.encode(payload);
          data := data + [0] + ToLe(|payloadBytes|, 4) + payloadBytes;
        case ConfigChange(_) =>
          data := data + [1] + ToLe(0, 4);
      }
      NextWritten(u, log, i, before, data);
    }
    assert data + [] == data;
  }

  // What the turns so far have read, put before what the rest will read, is r.
  ghost predicate Yields(u: Utf8, data: Bytes, offset: nat, count: nat, log: Log, r: Option<Log>) {
    var rest := ReadEntries(u, data, offset, count);
    r == if rest.None? then None else Some(log + rest.value)
  }

  lemma AtFirst(u: Utf8, data: Bytes)
    requires |data| >= 8
    ensures Yields(u, data, 8, Wrap(Field(data, 0, 8)), [], Deserialize(u, data))
  {
    var r := Deserialize(u, data);
    assert r.Some? ==> [] + r.value == r.value;
  }

  lemma AtTurn(u: Utf8, data: Bytes, offset: nat, count: nat, before: Log, log: Log, turn: Turn, r: Option<Log>)
    requires count > 0 && turn == ReadEntry(u, data, offset) && Yields(u, data, offset, count, before, r)
    requires turn.Read? ==> log == before + Entries(turn.entry)
    ensures turn.Break? ==> r == Some(before)
    ensures turn.OutOfRange? ==> r == None
    ensures turn.Read? ==> Yields(u, data, turn.next, count - 1, log, r)
  {
    assert before + [] == before;
    if turn.Read? {
      var rest := ReadEntries(u, data, turn.next, count - 1);
      assert rest.Some? ==> before + (Entries(turn.entry) + rest.value) == log + rest.value;
    }
  }

  lemma AtLast(u: Utf8, data: Bytes, offset: nat, log: Log, r: Option<Log>)
    requires Yields(u, data, offset, 0, log, r)
    ensures r == Some(log)
  {
    assert log + [] == log;
  }

  // The body of deserialize_log's loop.
  method ReadOne(u: Utf8, data: Bytes, start: nat) returns (turn: Turn)
    requires |data| <= MAX_LEN && start < USIZE_RANGE
    ensures turn == ReadEntry(u, data, start)
  {
    var offset := start;
    if Wrap(offset + 8) > |data| {
      return Break;
    }
    if offset >= |data| {
      return OutOfRange;
    }
    var term := FromLe(data[offset..offset + 8]);
    offset := Wrap(offset + 8);
    if offset >= |data| {
      return Break;
    }
    var entryType := data[offset];
    offset := Wrap(offset + 1);
    if Wrap(offset + 4) > |data| {
      return Break;
    }
    var payloadLen := FromLe(data[offset..offset + 4]);
    offset := Wrap(offset + 4);
    if entryType != 0 {
      return Read(None, Wrap(offset + payloadLen));
    }
    var end := Wrap(offset + payloadLen);
    if end > |data| {
      return Break;
    }
    FieldFits(data, offset - 4, 4);
    if offset > end {
      return OutOfRange;
    }
    match u.decode(data[offset..end]) {
      case Some(payload) => return Read(Some(LogEntry(term, Command(payload))), end);
      case None => return Read(None, end);
    }
  }

  // deserialize_log: None is its panic.
  method DeserializeLog(u: Utf8, data: Bytes) returns (r: Option<Log>)
    requires |data| <= MAX_LEN
    ensures r == Deserialize(u, data)
  {
    var log := [];
    if |data| < 8 {
      return Some(log);
    }
    var count := Wrap(FromLe(data[0..8]));
    var offset: nat := 8;
    AtFirst(u, data);
    var i := 0;
    while i < count
      invariant 0 <= i <= count && offset < USIZE_RANGE
      invariant Yields(u, data, offset, count - i, log, Deserialize(u, data))
    {
      var turn := ReadOne(u, data, offset);
      ghost var before := log;
      if turn.Read? && turn.entry.Some? {
        log := log + [turn.entry.value];
      }
      AtTurn(u, data, offset, count - i, before, log, turn, Deserialize(u, data));
      if turn.Break? {
        return Some(log);
      }
      if turn.OutOfRange? {
        return None;
      }
      offset := turn.next;
      i := i + 1;
    }
    AtLast(u, data, offset, log, Deserialize(u, data));
    return Some(log);
  }

  lemma {:induction false} FieldBound(b: Bytes)
    ensures FromLe(b) < Pow256(|b|)
  {
    if b != [] {
      FieldBound(b[1..]);
    }
  }

  lemma FieldFits(data: Bytes, offset: nat, w: nat)
    requires FieldAt(data, offset, w)
    ensures Field(data, offset, w) < Pow256(w)
    ensures w == 4 ==> Field(data, offset, w) < USIZE_RANGE
  {
    FieldBound(data[offset..offset + w]);
    Widths();
  }

  // What survives a save and a load: the commands.
  function Commands(log: Log): Log {
    if log == [] then []
    else (if log[0].entryType.Command? then [log[0]] else []) + Commands(log[1..])
  }

  const U32_RANGE := 0x1_0000_0000
  const U64_RANGE := 0x1_0000_0000_0000_0000

  // A log that can be saved: terms are u64, and its bytes fit in memory.
  ghost predicate Fits(u: Utf8, log: Log) {
    |Serialize(u, log)| <= MAX_LEN && forall e :: e in log ==> e.term < U64_RANGE
  }

  ghost predicate EntryFits(u: Utf8, e: LogEntry) {
    e.term < U64_RANGE && (e.entryType.Command? ==> |u.encode(e.entryType.payload)| < U32_RANGE)
  }

  lemma {:induction false} EntriesFit(u: Utf8, log: Log, e: LogEntry)
    requires e in log
    ensures |SerializeEntry(u, e)| <= |SerializeEntries(u, log)|
    ensures 13 * |log| <= |SerializeEntries(u, log)|
  {
    if e in log[1..] {
      EntriesFit(u, log[1..], e);
    } else if |log| > 1 {
      EntriesFit(u, log[1..], log[1]);
    }
  }

  lemma SavedFits(u: Utf8, log: Log)
    requires Fits(u, log)
    ensures |log| < USIZE_RANGE && forall e :: e in log ==> EntryFits(u, e)
  {
    forall e | e in log ensures EntryFits(u, e) && |log| < USIZE_RANGE {
      EntriesFit(u, log, e);
    }
    if log != [] {
      EntriesFit(u, log, log[0]);
    }
  }

  lemma Widths()
    ensures Pow256(4) == U32_RANGE && Pow256(8) == U64_RANGE
  {
    assert Pow256(4) == 256 * Pow256(3);
  }

  lemma Parts(term: Bytes, tag: Byte, len: Bytes, body: Bytes)
    requires |term| == 8 && |len| == 4
    ensures var b := term + [tag] + len + body;
            b[0..8] == term && b[8] == tag && b[9..13] == len && b[13..] == body
  {
  }

  // How the bytes of one entry are laid out.
  lemma EntryLayout(u: Utf8, e: LogEntry)
    requires EntryFits(u, e)
    ensures var b := SerializeEntry(u, e);
            var len := if e.entryType.Command? then |u.encode(e.entryType.payload)| else 0;
            && |b| == 13 + len
            && FromLe(b[0..8]) == e.term
            && b[8] == (if e.entryType.Command? then 0 else 1)
            && FromLe(b[9..13]) == len
            && (e.entryType.Command? ==> b[13..] == u.encode(e.entryType.payload))
  {
    var b := SerializeEntry(u, e);
    var len := if e.entryType.Command? then |u.encode(e.entryType.payload)| else 0;
    Widths();
    LeRoundTrip(e.term, 8);
    LeRoundTrip(len, 4);
    var tag: Byte := if e.entryType.Command? then 0 else 1;
    var body := if e.entryType.Command? then u.encode(e.entryType.payload) else [];
    Parts(ToLe(e.term, 8), tag, ToLe(len, 4), body);
    assert b == ToLe(e.term, 8) + [tag] + ToLe(len, 4) + body;
  }

  // Reading where a whole entry was written gives it back.
  lemma ReadWhole(u: Utf8, e: LogEntry, data: Bytes, offset: nat)
    requires u.Faithful() && EntryFits(u, e) && offset <= |data|
    requires SerializeEntry(u, e) <= data[offset..]
    ensures WideEntry(u, data, offset) ==
            Some((if e.entryType.Command? then Some(e) else None, offset + |SerializeEntry(u, e)|))
  {
    var b := SerializeEntry(u, e);
    EntryLayout(u, e);
    var d := data[offset..];
    assert d[..|b|] == b;
    assert data[offset..offset + 8] == b[0..8];
    assert data[offset + 8] == b[8];
    assert data[offset + 9..offset + 13] == b[9..13];
    assert data[offset + 13..offset + |b|] == b[13..];
    if e.entryType.Command? {
      assert u.decode(u.encode(e.entryType.payload)) == Some(e.entryType.payload);
    }
  }

  // Reading where an entry was cut short breaks off.
  lemma ReadCut(u: Utf8, e: LogEntry, data: Bytes, offset: nat)
    requires EntryFits(u, e) && offset <= |data| && data[offset..] < SerializeEntry(u, e)
    ensures WideEntry(u, data, offset) == None
  {
    var b := SerializeEntry(u, e);
    EntryLayout(u, e);
    var d := data[offset..];
    assert d == b[..|d|];
    if |d| >= 13 {
      assert data[offset + 8] == d[8] == b[8];
      assert data[offset + 9..offset + 13] == d[9..13] == b[9..13];
    }
  }

  lemma SplitPrefix(d: Bytes, b: Bytes, rest: Bytes)
    requires d <= b + rest
    ensures |d| < |b| ==> d < b
    ensures |d| >= |b| ==> b <= d && d[|b|..] <= rest && (d == b + rest ==> d[|b|..] == rest)
  {
    if |d| < |b| {
      assert d == (b + rest)[..|d|] == b[..|d|];
    } else {
      assert d[..|b|] == (b + rest)[..|b|] == b;
      assert d[|b|..] == (b + rest)[|b|..|d|] == rest[..|d| - |b|];
    }
  }

  lemma SerializedSplit(u: Utf8, log: Log)
    requires log != []
    ensures SerializeEntries(u, log) == SerializeEntry(u, log[0]) + SerializeEntries(u, log[1..])
  {
  }

  lemma FirstCut(u: Utf8, log: Log, data: Bytes, offset: nat)
    requires log != [] && EntryFits(u, log[0]) && offset <= |data|
    requires data[offset..] < SerializeEntry(u, log[0])
    ensures WideEntries(u, data, offset, |log|) == []
  {
    ReadCut(u, log[0], data, offset);
  }

  lemma FirstWhole(u: Utf8, log: Log, data: Bytes, offset: nat, next: nat)
    requires u.Faithful() && log != [] && EntryFits(u, log[0]) && offset <= |data|
    requires SerializeEntry(u, log[0]) <= data[offset..] && next == offset + |SerializeEntry(u, log[0])|
    ensures WideEntries(u, data, offset, |log|) ==
            (if log[0].entryType.Command? then [log[0]] else []) + WideEntries(u, data, next, |log| - 1)
  {
    ReadWhole(u, log[0], data, offset);
  }

  // One turn over a prefix of serialized entries: cut short, or past the first.
  lemma ReadFirst(u: Utf8, log: Log, data: Bytes, offset: nat, b: Bytes, rest: Bytes, next: nat)
    requires u.Faithful() && log != [] && EntryFits(u, log[0]) && offset <= |data|
    requires b == SerializeEntry(u, log[0]) && next == offset + |b| && data[offset..] <= b + rest
    ensures next > |data| ==> WideEntries(u, data, offset, |log|) == [] && data[offset..] != b + rest
    ensures next <= |data| ==>
              && WideEntries(u, data, offset, |log|) ==
                 (if log[0].entryType.Command? then [log[0]] else []) + WideEntries(u, data, next, |log| - 1)
              && data[next..] <= rest
              && (data[offset..] == b + rest ==> data[next..] == rest)
  {
    SplitPrefix(data[offset..], b, rest);
    if next > |data| {
      FirstCut(u, log, data, offset);
    } else {
      FirstWhole(u, log, data, offset, next);
      assert data[next..] == data[offset..][|b|..];
    }
  }

  // Reading any prefix of serialized entries gives a prefix of the commands,
  // and all of them when nothing was cut.
  lemma {:induction false} ReadPrefix(u: Utf8, log: Log, data: Bytes, offset: nat)
    requires u.Faithful() && (forall e :: e in log ==> EntryFits(u, e))
    requires offset <= |data| && data[offset..] <= SerializeEntries(u, log)
    ensures WideEntries(u, data, offset, |log|) <= Commands(log)
    ensures data[offset..] == SerializeEntries(u, log) ==> WideEntries(u, data, offset, |log|) == Commands(log)
  {
    if log != [] {
      assert EntryFits(u, log[0]);
      var b, rest := SerializeEntry(u, log[0]), SerializeEntries(u, log[1..]);
      var next := offset + |b|;
      SerializedSplit(u, log);
      ReadFirst(u, log, data, offset, b, rest, next);
      if next <= |data| {
        ReadPrefix(u, log[1..], data, next);
      }
    }
  }

  // The same with the wrapping offsets of the target: nothing wraps.
  lemma {:induction false} SavedNeverWraps(u: Utf8, log: Log, data: Bytes, offset: nat)
    requires (forall e :: e in log ==> EntryFits(u, e)) && offset + |SerializeEntries(u, log)| <= MAX_LEN
    requires offset <= |data| && data[offset..] <= SerializeEntries(u, log)
    ensures NoOverrun(data, offset, |log|)
  {
    if log != [] {
      assert EntryFits(u, log[0]);
      var b, rest := SerializeEntry(u, log[0]), SerializeEntries(u, log[1..]);
      SerializedSplit(u, log);
      SplitPrefix(data[offset..], b, rest);
      if offset + 13 <= |data| {
        HeaderSaved(u, log[0], data, offset, rest);
      }
      if offset + |b| <= |data| {
        assert data[offset + |b|..] == data[offset..][|b|..];
        SavedNeverWraps(u, log[1..], data, offset + |b|);
      }
    }
  }

  // A header that is there whole is the header that was written.
  lemma HeaderSaved(u: Utf8, e: LogEntry, data: Bytes, offset: nat, rest: Bytes)
    requires EntryFits(u, e) && offset + 13 <= |data| && data[offset..] <= SerializeEntry(u, e) + rest
    ensures 13 + Field(data, offset + 9, 4) == |SerializeEntry(u, e)|
    ensures data[offset + 8] == if e.entryType.Command? then 0 else 1
    ensures e.entryType.ConfigChange? ==> |SerializeEntry(u, e)| == 13
  {
    var b, d := SerializeEntry(u, e), data[offset..];
    EntryLayout(u, e);
    assert d == (b + rest)[..|d|];
    assert data[offset + 8] == d[8] == b[8];
    assert data[offset + 9..offset + 13] == d[9..13] == b[9..13];
  }

  // --- When decoding stays in range ---

  // Every turn reads inside the data and the next one starts behind it.
  predicate InRange(u: Utf8, data: Bytes, offset: nat, count: nat)
    decreases count
  {
    count == 0 ||
    match ReadEntry(u, data, offset)
    case Break => true
    case OutOfRange => false
    case Read(_, next) => next >= offset + 13 && InRange(u, data, next, count - 1)
  }

  predicate StaysInRange(u: Utf8, data: Bytes) { |data| < 8 || InRange(u, data, 8, Wrap(Field(data, 0, 8))) }

  // No addition of the loop reaches 2^32: not the 8 bytes of the next term, and
  // not the payload a header announces. This takes walking the headers only.
  predicate NoOverrun(data: Bytes, offset: nat, count: nat)
    decreases count
  {
    count == 0 ||
    (offset + 8 < USIZE_RANGE &&
     (FieldAt(data, offset, 13) ==>
        var end := offset + 13 + Field(data, offset + 9, 4);
        end < USIZE_RANGE && ((data[offset + 8] == 0 && end > |data|) || NoOverrun(data, end, count - 1))))
  }

  predicate NoneOverruns(data: Bytes) { |data| < 8 || NoOverrun(data, 8, Wrap(Field(data, 0, 8))) }

  // One turn, against the reader whose offsets never wrap.
  lemma TurnExactly(u: Utf8, data: Bytes, offset: nat)
    requires 8 <= |data| <= MAX_LEN && offset < USIZE_RANGE
    ensures offset + 8 >= USIZE_RANGE ==> ReadEntry(u, data, offset) == OutOfRange
    ensures offset + 8 < USIZE_RANGE && !FieldAt(data, offset, 13) ==>
              ReadEntry(u, data, offset) == Break && WideEntry(u, data, offset) == None
    ensures FieldAt(data, offset, 13) ==>
              var end := offset + 13 + Field(data, offset + 9, 4);
              var turn := ReadEntry(u, data, offset);
              if end >= USIZE_RANGE then turn == OutOfRange || (turn.Read? && turn.next < offset + 13)
              else if data[offset + 8] == 0 && end > |data| then turn == Break && WideEntry(u, data, offset) == None
              else turn.Read? && turn.next == end && WideEntry(u, data, offset) == Some((turn.entry, end))
  {
    if FieldAt(data, offset, 13) {
      FieldFits(data, offset + 9, 4);
    }
  }

  lemma {:induction false} InRangeExactly(u: Utf8, data: Bytes, offset: nat, count: nat)
    requires 8 <= |data| <= MAX_LEN && offset < USIZE_RANGE
    ensures InRange(u, data, offset, count) <==> NoOverrun(data, offset, count)
    ensures NoOverrun(data, offset, count) ==>
              ReadEntries(u, data, offset, count) == Some(WideEntries(u, data, offset, count))
    decreases count
  {
    if count > 0 {
      TurnExactly(u, data, offset);
      if FieldAt(data, offset, 13) && offset + 13 + Field(data, offset + 9, 4) < USIZE_RANGE {
        InRangeExactly(u, data, offset + 13 + Field(data, offset + 9, 4), count - 1);
      }
    }
  }

  // Decoding any bytes stays in range -- it neither panics nor reads a byte twice
  // -- if and only if no addition on the way reaches 2^32.
  lemma DecodingStaysInRangeIff(u: Utf8, data: Bytes)
    requires |data| <= MAX_LEN
    ensures StaysInRange(u, data) <==> NoneOverruns(data)
  {
    if |data| >= 8 {
      InRangeExactly(u, data, 8, Wrap(Field(data, 0, 8)));
    }
  }

  // Then it decodes to what the bytes have room for, as a reader would whose
  // offsets cannot wrap.
  lemma AnyBytesDecode(u: Utf8, data: Bytes)
    requires |data| <= MAX_LEN && NoneOverruns(data)
    ensures Deserialize(u, data) == Some(WideLog(u, data)) && |WideLog(u, data)| * 13 <= |data|
  {
    if |data| >= 8 {
      InRangeExactly(u, data, 8, Wrap(Field(data, 0, 8)));
      WideWithinData(u, data, 8, Wrap(Field(data, 0, 8)));
    }
  }

  lemma {:induction false} WideWithinData(u: Utf8, data: Bytes, offset: nat, count: nat)
    requires offset <= |data|
    ensures |WideEntries(u, data, offset, count)| <= count
    ensures offset + 13 * |WideEntries(u, data, offset, count)| <= |data|
    decreases count
  {
    if count > 0 && WideEntry(u, data, offset).Some? {
      var next := WideEntry(u, data, offset).value.1;
      if next <= |data| {
        WideWithinData(u, data, next, count - 1);
      } else {
        WidePastEnd(u, data, next, count - 1);
      }
    }
  }

  lemma WidePastEnd(u: Utf8, data: Bytes, offset: nat, count: nat)
    requires offset > |data|
    ensures WideEntries(u, data, offset, count) == []
  {
  }

  // --- Saving and loading ---

  // A log loaded from any prefix of what was saved -- a file cut short by a
  // crash -- loads without leaving the range, to a prefix of its commands.
  lemma DecodePrefix(u: Utf8, log: Log, k: nat)
    requires u.Faithful() && Fits(u, log) && k <= |Serialize(u, log)|
    ensures var data := Serialize(u, log)[..k];
            && NoneOverruns(data) && StaysInRange(u, data)
            && Deserialize(u, data).Some? && Deserialize(u, data).value <= Commands(log)
            && (k == |Serialize(u, log)| ==> Deserialize(u, data) == Some(Commands(log)))
  {
    var data := Serialize(u, log)[..k];
    if k >= 8 {
      SavedFits(u, log);
      assert data[0..8] == ToLe(|log|, 8);
      Widths();
      LeRoundTrip(|log|, 8);
      assert data[8..] == SerializeEntries(u, log)[..k - 8];
      ReadPrefix(u, log, data, 8);
      SavedNeverWraps(u, log, data, 8);
      AnyBytesDecode(u, data);
    }
    DecodingStaysInRangeIff(u, data);
  }

  // Loading what was saved gives the log without its configuration changes.
  lemma DecodeEncode(u: Utf8, log: Log)
    requires u.Faithful() && Fits(u, log)
    ensures Deserialize(u, Serialize(u, log)) == Some(Commands(log))
  {
    var data := Serialize(u, log);
    assert data[..|data|] == data;
    DecodePrefix(u, log, |data|);
  }

  // So nothing is lost exactly when the log holds no configuration change.
  lemma {:induction false} CommandsKeepAll(log: Log)
    ensures |Commands(log)| <= |log|
    ensures Commands(log) == log <==> forall e :: e in log ==> e.entryType.Command?
  {
    if log != [] {
      CommandsKeepAll(log[1..]);
      assert log == [log[0]] + log[1..];
    }
  }

  lemma LosslessIffNoConfigChange(u: Utf8, log: Log)
    requires u.Faithful() && Fits(u, log)
    ensures Deserialize(u, Serialize(u, log)) == Some(log) <==> forall e :: e in log ==> e.entryType.Command?
  {
    DecodeEncode(u, log);
    CommandsKeepAll(log);
  }

  // --- Bytes nobody saved ---

  // The header of an entry, announcing a payload of some length.
  function Header(tag: Byte, len: nat): Bytes { ToLe(0, 8) + [tag] + ToLe(len, 4) }

  lemma HeaderReads(before: Bytes, tag: Byte, len: nat, after: Bytes)
    requires len < U32_RANGE
    ensures var data := before + Header(tag, len) + after;
            && |data| == |before| + 13 + |after|
            && Field(data, |before|, 8) == 0 && data[|before| + 8] == tag && Field(data, |before| + 9, 4) == len
  {
    var data, h, at := before + Header(tag, len) + after, Header(tag, len), |before|;
    Parts(ToLe(0, 8), tag, ToLe(len, 4), []);
    assert h == ToLe(0, 8) + [tag] + ToLe(len, 4) + [];
    Widths();
    LeRoundTrip(0, 8);
    LeRoundTrip(len, 4);
    assert data[at..at + 8] == h[0..8] && data[at + 8] == h[8] && data[at + 9..at + 13] == h[9..13];
  }

  lemma CountReads(count: nat, rest: Bytes)
    requires count < USIZE_RANGE
    ensures var data := ToLe(count, 8) + rest;
            |data| == 8 + |rest| && Field(data, 0, 8) == count && Wrap(count) == count
  {
    var data := ToLe(count, 8) + rest;
    Widths();
    LeRoundTrip(count, 8);
    assert data[0..8] == ToLe(count, 8);
  }

  // 21 bytes: one command header that announces 2^32 - 1 bytes. The end of the
  // payload wraps to 20, in front of its start, and slicing panics.
  lemma LongPayloadPanics(u: Utf8)
    ensures var data := ToLe(1, 8) + Header(0, 0xFFFF_FFFF);
            |data| == 21 && Deserialize(u, data) == None && !NoneOverruns(data)
  {
    var data := ToLe(1, 8) + Header(0, 0xFFFF_FFFF);
    CountReads(1, Header(0, 0xFFFF_FFFF));
    HeaderReads(ToLe(1, 8), 0, 0xFFFF_FFFF, []);
    assert ToLe(1, 8) + Header(0, 0xFFFF_FFFF) + [] == data;
  }

  // 21 bytes again: a skipped entry whose payload ends 4 short of 2^32. Nothing
  // has wrapped yet, but the next term's 8 bytes do, and indexing panics.
  lemma LongSkipPanics(u: Utf8)
    ensures var data := ToLe(2, 8) + Header(1, 0xFFFF_FFE7);
            |data| == 21 && Deserialize(u, data) == None && !NoneOverruns(data)
  {
    var data := ToLe(2, 8) + Header(1, 0xFFFF_FFE7);
    CountReads(2, Header(1, 0xFFFF_FFE7));
    HeaderReads(ToLe(2, 8), 1, 0xFFFF_FFE7, []);
    assert ToLe(2, 8) + Header(1, 0xFFFF_FFE7) + [] == data;
    assert ReadEntry(u, data, 8) == Read(None, 0xFFFF_FFFC);
    assert ReadEntry(u, data, 0xFFFF_FFFC) == OutOfRange;
  }

  // 34 bytes: an empty command, and a skipped entry whose payload ends where the
  // command starts. The command is read again and again, and five come out of
  // bytes that have room for two.
  lemma WrappingSkipRereads(u: Utf8)
    requires u.decode([]) == Some("")
    ensures var data := ToLe(10, 8) + Header(0, 0) + Header(1, 0xFFFF_FFE6);
            var e := LogEntry(0, Command(""));
            && |data| == 34 && Deserialize(u, data) == Some([e, e, e, e, e])
            && 5 * 13 > |data| && !NoneOverruns(data)
  {
    var e := LogEntry(0, Command(""));
    WrappingTurns(u);
    FiveTimes(e);
    Rereads(u, ToLe(10, 8) + Header(0, 0) + Header(1, 0xFFFF_FFE6), 0, [], e);
    Rereads(u, ToLe(10, 8) + Header(0, 0) + Header(1, 0xFFFF_FFE6), 1, [e], e);
    Rereads(u, ToLe(10, 8) + Header(0, 0) + Header(1, 0xFFFF_FFE6), 2, [e, e], e);
    Rereads(u, ToLe(10, 8) + Header(0, 0) + Header(1, 0xFFFF_FFE6), 3, [e, e, e], e);
    Rereads(u, ToLe(10, 8) + Header(0, 0) + Header(1, 0xFFFF_FFE6), 4, [e, e, e, e], e);
  }

  lemma FiveTimes(e: LogEntry)
    ensures [e] + [e, e, e, e] == [e, e, e, e, e] && [e] + [e, e, e] == [e, e, e, e] && [e] + [e, e] == [e, e, e]
    ensures [e] + [e] == [e, e] && [e] + [] == [e]
  {
  }

  lemma WrappingTurns(u: Utf8)
    requires u.decode([]) == Some("")
    ensures var data := ToLe(10, 8) + Header(0, 0) + Header(1, 0xFFFF_FFE6);
            && |data| == 34 && Field(data, 0, 8) == 10 && Wrap(10) == 10
            && ReadEntry(u, data, 8) == Read(Some(LogEntry(0, Command(""))), 21)
            && ReadEntry(u, data, 21) == Read(None, 8)
            && !NoneOverruns(data)
  {
    var first, second := Header(0, 0), Header(1, 0xFFFF_FFE6);
    var data := ToLe(10, 8) + first + second;
    CountReads(10, first + second);
    assert ToLe(10, 8) + (first + second) == data;
    HeaderReads(ToLe(10, 8), 0, 0, second);
    HeaderReads(ToLe(10, 8) + first, 1, 0xFFFF_FFE6, []);
    assert ToLe(10, 8) + first + second + [] == data;
    TwoHeaders(u, data);
  }

  lemma TwoHeaders(u: Utf8, data: Bytes)
    requires u.decode([]) == Some("") && |data| == 34 && Field(data, 0, 8) == 10
    requires Field(data, 8, 8) == 0 && data[16] == 0 && Field(data, 17, 4) == 0
    requires data[29] == 1 && Field(data, 30, 4) == 0xFFFF_FFE6
    ensures ReadEntry(u, data, 8) == Read(Some(LogEntry(0, Command(""))), 21)
    ensures ReadEntry(u, data, 21) == Read(None, 8)
    ensures !NoneOverruns(data)
  {
    assert data[21..21] == [];
    assert !NoOverrun(data, 21, 9);
  }

  lemma Rereads(u: Utf8, data: Bytes, k: nat, log: Log, e: LogEntry)
    requires ReadEntry(u, data, 8) == Read(Some(e), 21) && ReadEntry(u, data, 21) == Read(None, 8)
    requires ReadEntries(u, data, 8, 2 * k) == Some(log)
    ensures ReadEntries(u, data, 8, 2 * k + 2) == Some([e] + log)
  {
    assert ReadEntries(u, data, 21, 2 * k + 1) == Some([] + log);
    assert [] + log == log;
  }
}
