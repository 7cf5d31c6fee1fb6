/**
 Properties that relate several handlers, or that hold of every handler:
 argument checks and errors leave the store alone, each handler touches only
 its own key, write/read and delete/read round trips, init_package always
 overwriting, and update_package agreeing with init_package.
 */
module ChaincodeProperties {
  import opened Wrappers
  import opened Ledger
  import opened PackageRecord
  import opened Chaincode

  /** The one key a handler may change: InitKey for Init, the first argument otherwise. */
  function TargetKey(h: Handler, args: seq<string>): string
    requires h != InitHandler ==> |args| > 0
  {
    if h == InitHandler then InitKey else args[0]
  }

  /** A handler called with the wrong number of arguments reports it and changes nothing. */
  lemma ArityErrorLeavesStoreUnchanged(h: Handler, st: Store, args: seq<string>, env: Env)
    requires |args| != Arity(h)
    ensures Step(h, st, args, env) == Outcome(Err(ArgumentCount(Arity(h))), st)
  {
  }

  /**
   For init_package and update_package, an empty argument is reported by its
   position (the first one, counting from 1) and changes nothing.
   */
  lemma EmptyArgumentLeavesStoreUnchanged(h: Handler, st: Store, args: seq<string>, env: Env, i: nat)
    requires h == InitPackageHandler || h == UpdatePackageHandler
    requires |args| == 5 && 1 <= i <= 5 && args[i - 1] == ""
    requires forall j :: 0 <= j < i - 1 ==> args[j] != ""
    ensures Step(h, st, args, env) == Outcome(Err(EmptyArgument(i)), st)
  {
  }

  /** Every error, of every handler, leaves the store as it was. */
  lemma ErrorLeavesStoreUnchanged(h: Handler, st: Store, args: seq<string>, env: Env)
    ensures Step(h, st, args, env).result.Err? ==> Step(h, st, args, env).store == st
  {
  }

  /** Each handler changes at most its own key; every other key keeps its presence and value. */
  lemma OnlyTargetKeyChanges(h: Handler, st: Store, args: seq<string>, env: Env, k: string)
    requires |args| == Arity(h)
    requires k != TargetKey(h, args)
    ensures var o := Step(h, st, args, env);
            (k in o.store <==> k in st) && Get(o.store, k) == Get(st, k)
  {
  }

  /** Unknown names through either entry point are refused without touching the store. */
  lemma UnknownNamesLeaveStoreUnchanged(st: Store, name: string, args: seq<string>, env: Env)
    ensures name !in InvokeNames ==> InvokeStep(st, name, args, env) == Outcome(Err(UnknownInvoke), st)
    ensures name !in QueryNames ==> QueryStep(st, name, args, env) == Outcome(Err(UnknownQuery), st)
  {
  }

  /** update_package and read are not reachable through Invoke; write is not reachable through Query. */
  lemma UnroutedHandlers(st: Store, args: seq<string>, env: Env)
    ensures InvokeStep(st, "update_package", args, env) == Outcome(Err(UnknownInvoke), st)
    ensures InvokeStep(st, "read", args, env) == Outcome(Err(UnknownInvoke), st)
    ensures QueryStep(st, "write", args, env) == Outcome(Err(UnknownQuery), st)
  {
  }

  /** write(k, v) followed by read(k) returns v, through the two entry points. */
  lemma WriteThenRead(st: Store, k: string, v: string, e1: Env, e2: Env)
    requires !e1.putFails && !e2.getFails
    ensures var w := InvokeStep(st, "write", [k, v], e1);
            w.result == Ok("") && QueryStep(w.store, "read", [k], e2).result == Ok(v)
  {
  }

  /** A successful delete(k) makes a later read(k) see absent bytes, and removes k alone. */
  lemma DeleteThenRead(st: Store, k: string, e1: Env, e2: Env)
    requires !e1.delFails && !e2.getFails
    ensures var d := InvokeStep(st, "delete", [k], e1);
            d.result == Ok("") && k !in d.store && d.store.Keys == st.Keys - {k}
            && QueryStep(d.store, "read", [k], e2).result == Ok("")
  {
  }

  /**
   init_package never refuses because of what is already stored: with valid
   arguments and store calls that succeed, it overwrites any previous value at
   the id, including a package created under the same id just before.
   */
  lemma CreateTwiceOverwrites(st: Store, first: seq<string>, second: seq<string>, e1: Env, e2: Env)
    requires |first| == 5 && |second| == 5 && first[0] == second[0]
    requires FirstEmpty(first).None? && FirstEmpty(second).None?
    requires !e1.getFails && !e1.putFails && !e2.getFails && !e2.putFails
    ensures var o1 := InvokeStep(st, "init_package", first, e1);
            var o2 := InvokeStep(o1.store, "init_package", second, e2);
            o1.result == Ok("") && o2.result == Ok("")
            && o2.store == st[first[0] := RecordString(PackageOf(second))]
  {
  }

  /**
   Reading back what init_package stored gives exactly the record string of
   the package written, whatever its fields hold. When no field contains a
   double quote, that string also determines the package: the only quote-free
   package with that record string is the one written.
   */
  lemma InitPackageThenRead(st: Store, args: seq<string>, e1: Env, e2: Env, p: Package)
    requires |args| == 5 && FirstEmpty(args).None?
    requires !e1.getFails && !e1.putFails && !e2.getFails
    ensures var r := QueryStep(InvokeStep(st, "init_package", args, e1).store, "read", [args[0]], e2).result;
            r == Ok(RecordString(PackageOf(args)))
            && (QuoteFreeFields(PackageOf(args)) && QuoteFreeFields(p) && RecordString(p) == r.payload
                ==> p == PackageOf(args))
  {
    var r := QueryStep(InvokeStep(st, "init_package", args, e1).store, "read", [args[0]], e2).result;
    if QuoteFreeFields(PackageOf(args)) && QuoteFreeFields(p) && RecordString(p) == r.payload {
      RecordStringInjective(p, PackageOf(args));
    }
  }

  /**
   update_package makes no lookup: its outcome is that of init_package whenever
   init_package's lookup succeeds, and does not depend on the lookup at all.
   */
  lemma UpdateAgreesWithInitPackage(st: Store, args: seq<string>, env: Env, getFails: bool, found: Package)
    ensures !env.getFails ==> UpdatePackageStep(st, args, env) == InitPackageStep(st, args, env)
    ensures UpdatePackageStep(st, args, env.(getFails := getFails, jsonFields := found))
            == UpdatePackageStep(st, args, env)
  {
  }

  /** The worked example: create a package, then read back its record string. */
  lemma CreateThenReadExample(st: Store, env: Env)
    requires !env.getFails && !env.putFails
    ensures var o := InvokeStep(st, "init_package", ["A1", "CarrierX", "20C", "Warehouse1", "2024-01-01T00:00:00Z"], env);
            o.result == Ok("")
            && QueryStep(o.store, "read", ["A1"], env).result
               == Ok(RecordString(Package("A1", "CarrierX", "20C", "Warehouse1", "2024-01-01T00:00:00Z")))
  {
  }
}
