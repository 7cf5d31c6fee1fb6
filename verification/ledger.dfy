/**
 The ledger state as the chaincode sees it through its stub: a key-value store
 from string keys to byte strings, reached by GetState, PutState and DelState.
 Whether a store call fails is decided by the host platform, not by the
 chaincode, so every call takes the outcome as a `fails` flag.
 */
module Ledger {

  /** The world state: keys to stored byte strings (bytes are modelled as chars). */
  type Store = map<string, string>

  /** What GetState yields for a key: the stored bytes, or empty bytes when the key is absent. */
  function Get(st: Store, key: string): string {
    if key in st then st[key] else ""
  }

  /** The stub handed to every chaincode call; `state` is the ledger it reads and updates. */
  class Stub {
    var state: Store

    constructor (initial: Store)
      ensures state == initial
    {
      state := initial;
    }

    /** Reads a key; on failure returns no bytes and ok == false. */
    method GetState(key: string, fails: bool) returns (value: string, ok: bool)
      ensures ok == !fails
      ensures ok ==> value == Get(state, key)
      ensures !ok ==> value == ""
    {
      if fails {
        value, ok := "", false;
      } else {
        value, ok := Get(state, key), true;
      }
    }

    /** Stores `value` under `key`, overwriting; on failure the state is untouched. */
    method PutState(key: string, value: string, fails: bool) returns (ok: bool)
      modifies this
      ensures ok == !fails
      ensures ok ==> state == old(state)[key := value]
      ensures !ok ==> state == old(state)
    {
      ok := !fails;
      if ok {
        state := state[key := value];
      }
    }

    /** Removes `key` (absent keys are fine); on failure the state is untouched. */
    method DelState(key: string, fails: bool) returns (ok: bool)
      modifies this
      ensures ok == !fails
      ensures ok ==> state == old(state) - {key}
      ensures !ok ==> state == old(state)
    {
      ok := !fails;
      if ok {
        state := state - {key};
      }
    }
  }
}
