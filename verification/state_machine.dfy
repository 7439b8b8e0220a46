// The replicated key-value map and what a sequence of log entries does to it.
module StateMachines {
  import opened Types
  import opened Text

  type KV = map<string, string>

  // Snapshot serialization is the JSON library's; a node receives it as a pair
  // of functions.
  datatype Codec = Codec(encode: KV -> Bytes, decode: Bytes -> Option<KV>)
  {
    // What the snapshot layer needs of it: decoding undoes encoding, and no
    // encoding is empty (an empty snapshot would have no chunk to send).
    ghost predicate Faithful() {
      forall m: KV :: decode(encode(m)) == Some(m) && encode(m) != []
    }
  }

  // Only "SET key=value" payloads change the map.
  function ApplyCommand(m: KV, payload: string): KV {
    if "SET " <= payload then
      match SplitOnce(payload[4..], '=')
      case None => m
      case Some((key, value)) => m[key := value]
    else m
  }

  // "SET key=value" sets that key, at the first '='; nothing else does anything.
  lemma CommandSets(m: KV, key: string, value: string, payload: string)
    ensures '=' !in key ==> ApplyCommand(m, "SET " + key + "=" + value) == m[key := value]
    ensures !("SET " <= payload && '=' in payload[4..]) ==> ApplyCommand(m, payload) == m
  {
    var command := "SET " + key + "=" + value;
    assert command[4..] == key + ['='] + value;
    if '=' !in key {
      SplitJoined(key, '=', value);
    }
  }

  function ApplyEntry(m: KV, e: LogEntry): KV {
    match e.entryType
    case Command(payload) => ApplyCommand(m, payload)
    case ConfigChange(_) => m
  }

  // A failed restore leaves the map as it was.
  function Restore(codec: Codec, m: KV, data: Bytes): KV {
    match codec.decode(data)
    case None => m
    case Some(restored) => restored
  }

  // The map reached by applying a whole log to the empty map.
  function Fold(log: Log): KV {
    if log == [] then map[] else ApplyEntry(Fold(log[..|log| - 1]), log[|log| - 1])
  }
}
