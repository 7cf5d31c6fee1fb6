/**
 The chaincode: two entry points (Invoke for changes, Query for reads) that
 route by exact function name to six handlers. Every handler checks its
 arguments, makes its store calls through the stub and returns either a
 payload or an error.

 Each handler is a method that runs against a `Ledger.Stub`, and is proved
 equal to a pure step function from the old store to an `Outcome` (the result
 and the new store). The step functions carry the handlers' properties; the
 lemmas in module ChaincodeProperties relate several of them.
 */
module Chaincode {
  import opened Wrappers
  import opened Ledger
  import opened PackageRecord

  /** The kinds of error the handlers return. */
  datatype Error =
    | ArgumentCount(expected: nat)  // wrong number of arguments
    | EmptyArgument(position: nat)  // the 1-based position of the first empty argument
    | LookupFailed                  // GetState failed during init_package's existence check
    | AlreadyExists                 // init_package found a package with this id
    | PutFailed                     // PutState failed; its own error is passed on
    | GetFailed                     // GetState failed in read
    | DeleteFailed                  // DelState failed
    | UnknownInvoke                 // Invoke was given a name it does not route
    | UnknownQuery                  // Query was given a name it does not route

  /** A handler's return: a payload (nil is the empty string) or an error. */
  datatype Result = Ok(payload: string) | Err(error: Error)

  /** What a handler leaves behind: its result and the store afterwards. */
  datatype Outcome = Outcome(result: Result, store: Store)

  /**
   What the model does not compute and takes as given: whether each kind of
   store call fails in this call, and what a JSON decoder would read from the
   bytes init_package looks up.
   */
  datatype Env = Env(getFails: bool, putFails: bool, delFails: bool, jsonFields: Package)

  /** The fixed key Init writes its argument under. */
  const InitKey := "my_package"

  // ---------------------------------------------------------------------
  // Step functions: the handlers' meaning, from the old store to the outcome.
  // ---------------------------------------------------------------------

  /** Init: one argument, stored verbatim under InitKey. */
  function InitStep(st: Store, args: seq<string>, env: Env): (o: Outcome)
    ensures |args| != 1 ==> o == Outcome(Err(ArgumentCount(1)), st)
    ensures |args| == 1 && env.putFails ==> o == Outcome(Err(PutFailed), st)
    ensures o.result.Ok? <==> |args| == 1 && !env.putFails
    ensures o.result.Ok? ==> o.result.payload == "" && o.store == st[InitKey := args[0]]
  {
    if |args| != 1 then Outcome(Err(ArgumentCount(1)), st)
    else if env.putFails then Outcome(Err(PutFailed), st)
    else Outcome(Ok(""), st[InitKey := args[0]])
  }

  /** write(key, value): stores value under key, overwriting unconditionally. */
  function WriteStep(st: Store, args: seq<string>, env: Env): (o: Outcome)
    ensures |args| != 2 ==> o == Outcome(Err(ArgumentCount(2)), st)
    ensures |args| == 2 && env.putFails ==> o == Outcome(Err(PutFailed), st)
    ensures o.result.Ok? <==> |args| == 2 && !env.putFails
    ensures o.result.Ok? ==> o.result.payload == "" && o.store == st[args[0] := args[1]]
  {
    if |args| != 2 then Outcome(Err(ArgumentCount(2)), st)
    else if env.putFails then Outcome(Err(PutFailed), st)
    else Outcome(Ok(""), st[args[0] := args[1]])
  }

  /** read(key): returns the stored bytes, never changing the store. */
  function ReadStep(st: Store, args: seq<string>, env: Env): (o: Outcome)
    ensures o.store == st
    ensures |args| != 1 ==> o.result == Err(ArgumentCount(1))
    ensures |args| == 1 && env.getFails ==> o.result == Err(GetFailed)
    ensures o.result.Ok? <==> |args| == 1 && !env.getFails
    ensures o.result.Ok? ==> o.result.payload == Get(st, args[0])
  {
    if |args| != 1 then Outcome(Err(ArgumentCount(1)), st)
    else if env.getFails then Outcome(Err(GetFailed), st)
    else Outcome(Ok(Get(st, args[0])), st)
  }

  /** delete(key): removes key and nothing else. */
  function DeleteStep(st: Store, args: seq<string>, env: Env): (o: Outcome)
    ensures |args| != 1 ==> o == Outcome(Err(ArgumentCount(1)), st)
    ensures |args| == 1 && env.delFails ==> o == Outcome(Err(DeleteFailed), st)
    ensures o.result.Ok? <==> |args| == 1 && !env.delFails
    ensures o.result.Ok? ==> o.result.payload == "" && o.store == st - {args[0]}
  {
    if |args| != 1 then Outcome(Err(ArgumentCount(1)), st)
    else if env.delFails then Outcome(Err(DeleteFailed), st)
    else Outcome(Ok(""), st - {args[0]})
  }

  /**
   init_package(id, carrier, temperature, location, datetime): arity, then
   non-emptiness position by position, then the existence check, then the
   record string stored under id. The decoded package's id is always empty
   and the requested id never is, so the existence check never refuses.
   */
  function InitPackageStep(st: Store, args: seq<string>, env: Env): (o: Outcome)
    ensures |args| != 5 ==> o == Outcome(Err(ArgumentCount(5)), st)
    ensures |args| == 5 && FirstEmpty(args).Some? ==>
              o == Outcome(Err(EmptyArgument(FirstEmpty(args).value)), st)
    ensures |args| == 5 && FirstEmpty(args).None? && env.getFails ==>
              o == Outcome(Err(LookupFailed), st)
    ensures |args| == 5 && FirstEmpty(args).None? && !env.getFails && env.putFails ==>
              o == Outcome(Err(PutFailed), st)
    ensures o.result != Err(AlreadyExists)
    ensures o.result.Err? ==> o.store == st
    ensures o.result.Ok? <==> |args| == 5 && FirstEmpty(args).None? && !env.getFails && !env.putFails
    ensures o.result.Ok? ==> o.result.payload == "" && o.store == st[args[0] := RecordString(PackageOf(args))]
  {
    if |args| != 5 then Outcome(Err(ArgumentCount(5)), st)
    else match FirstEmpty(args)
      case Some(position) => Outcome(Err(EmptyArgument(position)), st)
      case None =>
        if env.getFails then Outcome(Err(LookupFailed), st)
        else
          var res := Unmarshal(env.jsonFields, ZeroPackage);
          if res.assetId == args[0] then Outcome(Err(AlreadyExists), st)
          else if env.putFails then Outcome(Err(PutFailed), st)
          else Outcome(Ok(""), st[args[0] := RecordString(PackageOf(args))])
  }

  /**
   update_package: the same validation as init_package, no lookup at all, and
   the same record string stored under id.
   */
  function UpdatePackageStep(st: Store, args: seq<string>, env: Env): (o: Outcome)
    ensures |args| != 5 ==> o == Outcome(Err(ArgumentCount(5)), st)
    ensures |args| == 5 && FirstEmpty(args).Some? ==>
              o == Outcome(Err(EmptyArgument(FirstEmpty(args).value)), st)
    ensures |args| == 5 && FirstEmpty(args).None? && env.putFails ==>
              o == Outcome(Err(PutFailed), st)
    ensures o.result.Err? ==> o.store == st
    ensures o.result.Ok? <==> |args| == 5 && FirstEmpty(args).None? && !env.putFails
    ensures o.result.Ok? ==> o.result.payload == "" && o.store == st[args[0] := RecordString(PackageOf(args))]
  {
    if |args| != 5 then Outcome(Err(ArgumentCount(5)), st)
    else match FirstEmpty(args)
      case Some(position) => Outcome(Err(EmptyArgument(position)), st)
      case None =>
        if env.putFails then Outcome(Err(PutFailed), st)
        else Outcome(Ok(""), st[args[0] := RecordString(PackageOf(args))])
  }

  // ---------------------------------------------------------------------
  // Routing.
  // ---------------------------------------------------------------------

  datatype Handler =
    | InitHandler | WriteHandler | ReadHandler | DeleteHandler
    | InitPackageHandler | UpdatePackageHandler

  /** The names Invoke and Query accept. */
  const InvokeNames: set<string> := {"init", "write", "delete", "init_package"}
  const QueryNames: set<string> := {"read"}

  /** The number of arguments each handler insists on. */
  function Arity(h: Handler): nat {
    match h
    case InitHandler => 1
    case WriteHandler => 2
    case ReadHandler => 1
    case DeleteHandler => 1
    case InitPackageHandler => 5
    case UpdatePackageHandler => 5
  }

  function Step(h: Handler, st: Store, args: seq<string>, env: Env): Outcome {
    match h
    case InitHandler => InitStep(st, args, env)
    case WriteHandler => WriteStep(st, args, env)
    case ReadHandler => ReadStep(st, args, env)
    case DeleteHandler => DeleteStep(st, args, env)
    case InitPackageHandler => InitPackageStep(st, args, env)
    case UpdatePackageHandler => UpdatePackageStep(st, args, env)
  }

  /** Invoke's routing table: exact name matches only; read and update_package are not reachable. */
  function InvokeRoute(name: string): (h: Option<Handler>)
    ensures h.Some? <==> name in InvokeNames
    ensures h == Some(InitHandler) <==> name == "init"
    ensures h == Some(WriteHandler) <==> name == "write"
    ensures h == Some(DeleteHandler) <==> name == "delete"
    ensures h == Some(InitPackageHandler) <==> name == "init_package"
  {
    if name == "init" then Some(InitHandler)
    else if name == "write" then Some(WriteHandler)
    else if name == "delete" then Some(DeleteHandler)
    else if name == "init_package" then Some(InitPackageHandler)
    else None
  }

  /** Query's routing table: only "read". */
  function QueryRoute(name: string): (h: Option<Handler>)
    ensures h.Some? <==> name in QueryNames
    ensures h.Some? ==> h.value == ReadHandler
  {
    if name == "read" then Some(ReadHandler) else None
  }

  /** Invoke: the routed handler's outcome, or UnknownInvoke with the store untouched. */
  function InvokeStep(st: Store, name: string, args: seq<string>, env: Env): (o: Outcome)
    ensures name !in InvokeNames ==> o == Outcome(Err(UnknownInvoke), st)
    ensures name in InvokeNames ==> o == Step(InvokeRoute(name).value, st, args, env)
    ensures o.result.Err? ==> o.store == st
  {
    match InvokeRoute(name)
    case None => Outcome(Err(UnknownInvoke), st)
    case Some(h) => Step(h, st, args, env)
  }

  /** Query: read's outcome, or UnknownQuery; the store is never changed. */
  function QueryStep(st: Store, name: string, args: seq<string>, env: Env): (o: Outcome)
    ensures o.store == st
    ensures name != "read" ==> o.result == Err(UnknownQuery)
    ensures name == "read" ==> o == ReadStep(st, args, env)
  {
    match QueryRoute(name)
    case None => Outcome(Err(UnknownQuery), st)
    case Some(h) => Step(h, st, args, env)
  }

  // ---------------------------------------------------------------------
  // The handlers, run against the stub.
  // ---------------------------------------------------------------------

  method Init(stub: Stub, args: seq<string>, env: Env) returns (r: Result)
    modifies stub
    ensures Outcome(r, stub.state) == InitStep(old(stub.state), args, env)
  {
    if |args| != 1 {
      return Err(ArgumentCount(1));
    }
    var ok := stub.PutState(InitKey, args[0], env.putFails);
    if !ok {
      return Err(PutFailed);
    }
    return Ok("");
  }

  method Write(stub: Stub, args: seq<string>, env: Env) returns (r: Result)
    modifies stub
    ensures Outcome(r, stub.state) == WriteStep(old(stub.state), args, env)
  {
    if |args| != 2 {
      return Err(ArgumentCount(2));
    }
    var key, value := args[0], args[1];
    var ok := stub.PutState(key, value, env.putFails);
    if !ok {
      return Err(PutFailed);
    }
    return Ok("");
  }

  /** read changes nothing: it has no modifies clause. */
  method Read(stub: Stub, args: seq<string>, env: Env) returns (r: Result)
    ensures r == ReadStep(stub.state, args, env).result
  {
    if |args| != 1 {
      return Err(ArgumentCount(1));
    }
    var key := args[0];
    var value, ok := stub.GetState(key, env.getFails);
    if !ok {
      return Err(GetFailed);
    }
    return Ok(value);
  }

  method Delete(stub: Stub, args: seq<string>, env: Env) returns (r: Result)
    modifies stub
    ensures Outcome(r, stub.state) == DeleteStep(old(stub.state), args, env)
  {
    if |args| != 1 {
      return Err(ArgumentCount(1));
    }
    var key := args[0];
    var ok := stub.DelState(key, env.delFails);
    if !ok {
      return Err(DeleteFailed);
    }
    return Ok("");
  }

  method InitPackage(stub: Stub, args: seq<string>, env: Env) returns (r: Result)
    modifies stub
    ensures Outcome(r, stub.state) == InitPackageStep(old(stub.state), args, env)
  {
    if |args| != 5 {
      return Err(ArgumentCount(5));
    }
    if |args[0]| <= 0 {
      return Err(EmptyArgument(1));
    }
    if |args[1]| <= 0 {
      return Err(EmptyArgument(2));
    }
    if |args[2]| <= 0 {
      return Err(EmptyArgument(3));
    }
    if |args[3]| <= 0 {
      return Err(EmptyArgument(4));
    }
    if |args[4]| <= 0 {
      return Err(EmptyArgument(5));
    }
    var assetId, carrier, temp, location, datetime := args[0], args[1], args[2], args[3], args[4];

    // the existence check
    var packageAsBytes, ok := stub.GetState(assetId, env.getFails);
    if !ok {
      return Err(LookupFailed);
    }
    // json.Unmarshal(packageAsBytes, &res): what a decoder reads from packageAsBytes is env.jsonFields
    var res := Unmarshal(env.jsonFields, ZeroPackage);
    if res.assetId == assetId {
      return Err(AlreadyExists);
    }

    var str := RecordString(Package(assetId, carrier, temp, location, datetime));
    ok := stub.PutState(assetId, str, env.putFails);
    if !ok {
      return Err(PutFailed);
    }
    return Ok("");
  }

  method UpdatePackage(stub: Stub, args: seq<string>, env: Env) returns (r: Result)
    modifies stub
    ensures Outcome(r, stub.state) == UpdatePackageStep(old(stub.state), args, env)
  {
    if |args| != 5 {
      return Err(ArgumentCount(5));
    }
    if |args[0]| <= 0 {
      return Err(EmptyArgument(1));
    }
    if |args[1]| <= 0 {
      return Err(EmptyArgument(2));
    }
    if |args[2]| <= 0 {
      return Err(EmptyArgument(3));
    }
    if |args[3]| <= 0 {
      return Err(EmptyArgument(4));
    }
    if |args[4]| <= 0 {
      return Err(EmptyArgument(5));
    }
    var assetId, carrier, temp, location, datetime := args[0], args[1], args[2], args[3], args[4];

    var str := RecordString(Package(assetId, carrier, temp, location, datetime));
    var ok := stub.PutState(assetId, str, env.putFails);
    if !ok {
      return Err(PutFailed);
    }
    return Ok("");
  }

  method Invoke(stub: Stub, name: string, args: seq<string>, env: Env) returns (r: Result)
    modifies stub
    ensures Outcome(r, stub.state) == InvokeStep(old(stub.state), name, args, env)
  {
    if name == "init" {
      r := Init(stub, args, env);
    } else if name == "write" {
      r := Write(stub, args, env);
    } else if name == "delete" {
      r := Delete(stub, args, env);
    } else if name == "init_package" {
      r := InitPackage(stub, args, env);
    } else {
      r := Err(UnknownInvoke);
    }
  }

  /** Query changes nothing: it has no modifies clause. */
  method Query(stub: Stub, name: string, args: seq<string>, env: Env) returns (r: Result)
    ensures r == QueryStep(stub.state, name, args, env).result
  {
    if name == "read" {
      r := Read(stub, args, env);
    } else {
      r := Err(UnknownQuery);
    }
  }
}
