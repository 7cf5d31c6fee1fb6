# learn-chaincode "finished" chaincode, modelled in Dafny

The chaincode in `finished/chaincode_finished.go` is a Hyperledger Fabric smart
contract that offers key-value CRUD over the ledger's world state, plus a
five-field "package" record (asset id, carrier, temperature, location,
datetime). Two entry points route by exact function name: `Invoke` accepts
`init`, `write`, `delete` and `init_package`; `Query` accepts only `read`.
Every handler checks its arguments, makes its store calls through the stub and
returns a payload or an error. `update_package` exists but no entry point
routes to it.

The model:

- `wrappers.dfy`, module `Wrappers`: an `Option` datatype.
- `ledger.dfy`, module `Ledger`: the world state as a `map<string, string>`.
  Absent keys read as empty bytes. The class `Stub` holds that map in a field.
  Its methods `GetState`, `PutState` and `DelState` take a `fails` flag: the
  host decides whether a store call fails.
- `package_record.dfy`, module `PackageRecord`: the `Package` record and Go's
  export rule. `Unmarshal` models `json.Unmarshal` into a `Package`: it sets
  exported fields only. No field of `Package` is exported, so it returns its
  target unchanged, whatever the bytes hold. Also here: the hand-built record
  string, the positional non-emptiness check, and the proof that the record
  string identifies the package when no field contains a double quote.
- `chaincode.dfy`, module `Chaincode`: the handlers and the two entry points.
  Each handler is a method running against a `Stub`. Each is proved equal to a
  pure step function from the old store to an `Outcome` (the result and the new
  store), and the step functions' contracts state the handlers' properties.
  `Env` carries what the model takes as given: which store calls fail, and what
  a JSON decoder would find in the looked-up bytes.
- `properties.dfy`, module `ChaincodeProperties`: lemmas that relate handlers
  to each other.

Two behaviours differ from what the code's own comments and shapes suggest. The
model follows the code:

- init_package is commented as checking whether the package already exists
  (finished/chaincode_finished.go:178), which suggests create-once semantics.
  In fact the decoded package's `assetId` is always empty, because
  encoding/json ignores unexported fields, and the requested id is never
  empty. So the check never fires and a second create with the same id
  overwrites the first (`CreateTwiceOverwrites`).
- The record string looks like JSON, but field values are pasted in verbatim,
  without the escaping that section 7 of RFC 8259 requires. A field holding a
  quote can therefore imitate a delimiter (`RecordStringAmbiguous`).

## Model

| member | source | states |
|---|---|---|
| Ledger.Stub.GetState | finished/chaincode_finished.go:122 | a store read returns the stored bytes (empty for an absent key) exactly when the call does not fail |
| Ledger.Stub.PutState | finished/chaincode_finished.go:105 | a successful put sets exactly that key; a failed one leaves the state as it was |
| Ledger.Stub.DelState | finished/chaincode_finished.go:142 | a successful delete removes exactly that key; a failed one leaves the state as it was |
| PackageRecord.Unmarshal | finished/chaincode_finished.go:183-184 | decoding into a `Package` changes no field, whatever a decoder reads from the bytes, because every field is unexported; decoding into `Package{}` yields an empty `assetId` |
| PackageRecord.PackageOf | finished/chaincode_finished.go:172-176 | the five positional arguments become id, carrier, temperature, location and datetime, in that order |
| PackageRecord.FirstEmpty | finished/chaincode_finished.go:156-170 | names the first empty argument by its 1-based position, with all earlier ones non-empty; reports none exactly when all five are non-empty |
| PackageRecord.RecordString | finished/chaincode_finished.go:192 | the record string is the five fields inside fixed delimiters: its length is the fields' lengths plus the delimiters', it opens with the `assetId` key, and the id sits right after it |
| PackageRecord.RecordStringInjective | finished/chaincode_finished.go:192 | when no field contains a double quote, equal record strings mean equal packages |
| PackageRecord.RecordStringAmbiguous | finished/chaincode_finished.go:242 | without escaping, a carrier that contains the temperature delimiter makes two different packages (different carrier and temperature) store the same string |
| Chaincode.InitStep | finished/chaincode_finished.go:47-59 | Init needs exactly 1 argument. It succeeds exactly when the put succeeds, storing the argument under "my_package" and changing nothing else. On every error the store is unchanged |
| Chaincode.Init | finished/chaincode_finished.go:47-59 | the method's result and new store are InitStep's |
| Chaincode.WriteStep | finished/chaincode_finished.go:94-110 | write needs exactly 2 arguments. It succeeds exactly when the put succeeds, setting key to value and nothing else. On every error the store is unchanged |
| Chaincode.Write | finished/chaincode_finished.go:94-110 | the method's result and new store are WriteStep's |
| Chaincode.ReadStep | finished/chaincode_finished.go:113-129 | read never changes the store and needs exactly 1 argument. It succeeds exactly when the get succeeds, returning the stored bytes |
| Chaincode.Read | finished/chaincode_finished.go:113-129 | the method, which may not modify the stub, returns ReadStep's result |
| Chaincode.DeleteStep | finished/chaincode_finished.go:132-148 | delete needs exactly 1 argument. It succeeds exactly when DelState succeeds, removing that key and nothing else. A failed DelState gives DeleteFailed with the store unchanged |
| Chaincode.Delete | finished/chaincode_finished.go:132-148 | the method's result and new store are DeleteStep's |
| Chaincode.InitPackageStep | finished/chaincode_finished.go:151-199 | checks arity 5, then the first empty position. A failed lookup gives LookupFailed. It never answers AlreadyExists. It succeeds exactly when arguments are valid and both store calls succeed, and then stores the record string under the id. A failed put gives PutFailed. Errors leave the store unchanged |
| Chaincode.InitPackage | finished/chaincode_finished.go:151-199 | the method, with the lookup, decode and dead existence check as in the source, has InitPackageStep's result and new store |
| Chaincode.UpdatePackageStep | finished/chaincode_finished.go:201-249 | the same validation as init_package and no lookup. It succeeds exactly when arguments are valid and the put succeeds, storing the record string under the id. A failed put gives PutFailed. Errors leave the store unchanged |
| Chaincode.UpdatePackage | finished/chaincode_finished.go:201-249 | the method's result and new store are UpdatePackageStep's |
| Chaincode.InvokeRoute | finished/chaincode_finished.go:66-77 | Invoke routes a name exactly when it is one of init, write, delete, init_package, each to its own handler |
| Chaincode.QueryRoute | finished/chaincode_finished.go:85-90 | Query routes exactly the name "read", to the read handler |
| Chaincode.InvokeStep | finished/chaincode_finished.go:62-78 | any other name gives UnknownInvoke with the store unchanged; a routed name gives its handler's outcome; no error changes the store |
| Chaincode.Invoke | finished/chaincode_finished.go:62-78 | the method's if-chain has InvokeStep's result and new store |
| Chaincode.QueryStep | finished/chaincode_finished.go:81-91 | Query never changes the store; a name other than "read" gives UnknownQuery |
| Chaincode.Query | finished/chaincode_finished.go:81-91 | the method, which may not modify the stub, returns QueryStep's result |
| ChaincodeProperties.ArityErrorLeavesStoreUnchanged | finished/chaincode_finished.go:48-50 | every handler given the wrong number of arguments (1, 2, 1, 1, 5, 5) reports that count and leaves the store unchanged |
| ChaincodeProperties.EmptyArgumentLeavesStoreUnchanged | finished/chaincode_finished.go:206-220 | init_package and update_package report the first empty position and leave the store unchanged |
| ChaincodeProperties.ErrorLeavesStoreUnchanged | finished/chaincode_finished.go:151-199 | no handler changes the store when it returns an error |
| ChaincodeProperties.OnlyTargetKeyChanges | finished/chaincode_finished.go:103-105 | each handler changes at most its own key (the id, the written or deleted key, or "my_package"); every other key keeps its presence and value |
| ChaincodeProperties.UnknownNamesLeaveStoreUnchanged | finished/chaincode_finished.go:75-77 | an unrouted name through Invoke or Query is an error and leaves the store unchanged |
| ChaincodeProperties.UnroutedHandlers | finished/chaincode_finished.go:66-74 | update_package and read cannot be reached through Invoke, nor write through Query |
| ChaincodeProperties.WriteThenRead | finished/chaincode_finished.go:121-128 | after a successful write(k, v), read(k) returns v |
| ChaincodeProperties.DeleteThenRead | finished/chaincode_finished.go:141-147 | after a successful delete(k), k is gone, only k is gone, and read(k) returns empty bytes |
| ChaincodeProperties.CreateTwiceOverwrites | finished/chaincode_finished.go:179-193 | a second init_package with the same id succeeds and overwrites the first record when the store calls succeed |
| ChaincodeProperties.InitPackageThenRead | finished/chaincode_finished.go:192-193 | after init_package, read of the id returns exactly the record string of the five arguments, whatever they hold; when they and a candidate package are quote-free, that string determines the package uniquely |
| ChaincodeProperties.UpdateAgreesWithInitPackage | finished/chaincode_finished.go:228-243 | update_package equals init_package whenever the lookup succeeds. Its outcome depends neither on the lookup nor on the decoded bytes |
| ChaincodeProperties.CreateThenReadExample | finished/chaincode_finished.go:192 | creating package A1 and reading A1 back returns the record string of those five fields |

## Left out

- `main` and `shim.Start` (platform bootstrapping) and all `fmt.Println` logging: no effect on results or state.
- The Fabric stub and ledger are a map plus a failure flag per call. A failed `PutState` or `DelState` is taken to leave the state untouched. Transaction atomicity, ordering and concurrency belong to the platform.
- The JSON decoder is not modelled: what it would read out of the stored bytes is an unconstrained input (`Env.jsonFields`). Every contract holds for every value of it, since no field is exported.
- Error texts are reduced to error kinds. The store's own error that `PutState` passes on is one kind, `PutFailed`. The key echoed in read's error message is not kept.
- Payloads: Go's nil byte slice and an empty one are both the empty string. Bytes are modelled as characters, so the `[]byte(string)` conversions are identities.
- Init's unused `function` parameter is not modelled.
- CreateThenReadExample: states the read-back value as `RecordString` of the five fields ("A1", "CarrierX", "20C", "Warehouse1", "2024-01-01T00:00:00Z"), not as the spelled-out string literal that this evaluates to.
