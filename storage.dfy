/** The device key-value store (AsyncStorage) and the JSON documents kept in
    it. Reading and writing can fail; whether they do is the environment's
    state, held in `readFails` and `writeFails`. */
module Storage {
  import opened Wrappers
  import opened Items

  /** What JSON.parse yields: an array of records, or any other JSON value
      (an object, a number, a string, null). */
  datatype Json = JsonArray(items: seq<Item>) | JsonOther

  /** A stored string: text that is not JSON (a theme name, or corrupt text),
      or the JSON text of a value. */
  datatype Value = Text(text: string) | Document(json: Json)

  /** Why a storage operation rejected. */
  datatype Failure = ReadFailed | WriteFailed | ParseFailed | NotAnArray

  type Cells = map<string, Value>

  /** JSON.stringify of a list of records. */
  function Stringify(items: seq<Item>): Value
  {
    Document(JsonArray(items))
  }

  /** JSON.parse; None when it throws, which it does on any text that is not
      JSON. */
  function Parse(v: Value): Option<Json>
  {
    match v
    case Text(_) => None
    case Document(j) => Some(j)
  }

  /** Parsing what was written gives back the list that was written. */
  lemma ParseStringify(items: seq<Item>)
    ensures Parse(Stringify(items)) == Some(JsonArray(items))
  {
  }

  /** A stored string is falsy only when it is empty. */
  predicate Truthy(v: Value)
  {
    v != Text("")
  }

  /** AsyncStorage.getItem over the store contents. */
  function Read(cells: Cells, readFails: bool, key: string): Result<Option<Value>, Failure>
  {
    if readFails then Err(ReadFailed)
    else if key in cells then Ok(Some(cells[key]))
    else Ok(None)
  }

  /** The store contents after AsyncStorage.setItem: a full replace of the
      key's value, or nothing when the write fails. */
  function Written(cells: Cells, writeFails: bool, key: string, v: Value): Cells
  {
    if writeFails then cells else cells[key := v]
  }

  class KeyValueStore {
    var cells: Cells
    var readFails: bool
    var writeFails: bool

    constructor ()
      ensures cells == map[] && !readFails && !writeFails
    {
      cells := map[];
      readFails := false;
      writeFails := false;
    }

    /** AsyncStorage.getItem */
    function GetItem(key: string): Result<Option<Value>, Failure>
      reads this
    {
      Read(cells, readFails, key)
    }

    /** AsyncStorage.setItem; `ok` is false when the write rejected. */
    method SetItem(key: string, v: Value) returns (ok: bool)
      modifies this`cells
      ensures ok == !writeFails
      ensures cells == Written(old(cells), writeFails, key, v)
    {
      ok := !writeFails;
      if ok {
        cells := cells[key := v];
      }
    }
  }
}
