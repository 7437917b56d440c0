/** The in-memory storage backend: a key to value map updated in place. */
module KeyStore {

  class MemoryStore {
    var data: map<string, string>

    /** A fresh store holds nothing. */
    constructor ()
      ensures data == map[]
    {
      data := map[];
    }

    /** Stores `value` under `key`, replacing any previous value; other keys keep theirs. */
    method Set(key: string, value: string)
      modifies this
      ensures data == old(data)[key := value]
    {
      data := data[key := value];
    }

    /** The value stored under `key`; `found` is false, and `value` empty, when there is none. */
    method Get(key: string) returns (found: bool, value: string)
      ensures found <==> key in data
      ensures found ==> value == data[key]
      ensures !found ==> value == ""
    {
      if key in data {
        found, value := true, data[key];
      } else {
        found, value := false, "";
      }
    }
  }
}
