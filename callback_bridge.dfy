/**
 * `overrideCallback(callback, resolver, agg)`: the success or error callback
 * the wrapper installs. When the framework calls it, it first runs the
 * caller's own callback (if there is one) with the first argument (the model
 * or collection) as `this` and the same arguments, then hands the promise's
 * resolver one result record, exactly once, unless the caller's callback
 * throws or is truthy but not a function: then the exception escapes to the
 * framework, no resolver is called and the promise stays pending. Running it
 * is described here as the ordered list of effects it has.
 */
module CallbackBridge {
  import opened JsValues

  /** The object a promise settles with: `{collection, response, options}` or `{model, response, options}`. */
  datatype Record =
    | CollectionRecord(collection: Value, response: Value, options: Value)
    | ModelRecord(model: Value, response: Value, options: Value)

  /** What a resolver is called with: a result record, or the exception that escaped the promise's executor. */
  datatype Payload = Outcome(record: Record) | Exception(error: Value)

  /** Effects of one wrapped call, in the order they happen. */
  datatype Effect =
      /** `proto[method].apply(receiver, args)` */
    | Dispatched(base: Base, methodName: string, receiver: Value, args: seq<Value>)
      /** `callback.apply(model, arguments)` ran the caller's own callback */
    | UserCallbackRan(callback: Value, receiver: Value, args: seq<Value>)
      /** the promise's resolve or reject function was called */
    | ResolverCalled(resolver: Resolver, payload: Payload)

  /** How the caller's callback, which the model does not see into, finishes. */
  datatype Completion = Returned | Threw(error: Value)

  /** What running a bridge did, and the exception that escaped it, if any. */
  datatype BridgeRun = BridgeRun(effects: seq<Effect>, thrown: Option<Value>)

  /** What `callback.apply` throws when `callback` is truthy but not a function. */
  const TypeError := Object(map["name" := Str("TypeError")])

  /** The `i`-th entry of `arguments`; missing ones read as `undefined`. */
  function Argument(args: seq<Value>, i: nat): Value
  {
    if i < |args| then args[i] else Undefined
  }

  /** The record built from `(model, response, options)`, keyed by `collection` exactly when the prototype is a Collection's. */
  function RecordFor(isCollection: bool, args: seq<Value>): (r: Record)
    ensures r.CollectionRecord? <==> isCollection
    ensures r.response == Argument(args, 1) && r.options == Argument(args, 2)
    ensures (if isCollection then r.collection else r.model) == Argument(args, 0)
  {
    if isCollection then CollectionRecord(Argument(args, 0), Argument(args, 1), Argument(args, 2))
    else ModelRecord(Argument(args, 0), Argument(args, 1), Argument(args, 2))
  }

  /** How many times a list of effects calls a resolver. */
  function ResolverCalls(effects: seq<Effect>): nat
  {
    if effects == [] then 0
    else ResolverCalls(effects[..|effects| - 1]) + (if effects[|effects| - 1].ResolverCalled? then 1 else 0)
  }

  /**
   * One call of the bridge built from `callback` and `resolver`, with
   * `arguments` equal to `args`; `isCollection` is `agg._collection` as read
   * when the bridge runs, and `user` is how the caller's callback finishes.
   */
  function RunBridge(callback: Value, resolver: Resolver, isCollection: bool, args: seq<Value>, user: Completion): (run: BridgeRun)
    // the resolver is called exactly once, unless an exception escapes first
    ensures ResolverCalls(run.effects) == if run.thrown.None? then 1 else 0
    // when it is called, it is the last effect and gets the record built from the framework's arguments
    ensures run.thrown.None? ==>
              |run.effects| > 0 && run.effects[|run.effects| - 1] == ResolverCalled(resolver, Outcome(RecordFor(isCollection, args)))
    // the caller's callback runs, first, with the first argument as `this` and the same arguments, exactly when it is a function
    ensures (|run.effects| > 0 && run.effects[0] == UserCallbackRan(callback, Argument(args, 0), args)) <==> callback.Function?
    ensures forall i :: 0 < i < |run.effects| ==> !run.effects[i].UserCallbackRan?
    // an exception escapes only from a truthy callback: a non-function one, or a function that throws
    ensures run.thrown.Some? <==> Truthy(callback) && (!callback.Function? || user.Threw?)
    ensures callback.Function? && user.Threw? ==> run.thrown == Some(user.error)
    // and it does nothing else: at most the callback and the resolver call
    ensures |run.effects| == (if callback.Function? then 1 else 0) + (if run.thrown.None? then 1 else 0)
  {
    var settle := ResolverCalled(resolver, Outcome(RecordFor(isCollection, args)));
    if !Truthy(callback) then
      BridgeRun([settle], None)
    else if !callback.Function? then
      BridgeRun([], Some(TypeError))
    else
      var ran := UserCallbackRan(callback, Argument(args, 0), args);
      match user
      case Returned => BridgeRun([ran, settle], None)
      case Threw(e) => BridgeRun([ran], Some(e))
  }

  /** Calling a function value as a framework callback: defined for the bridges `overrideCallback` builds. */
  function CallBridge(f: Value, isCollection: bool, args: seq<Value>, user: Completion): Option<BridgeRun>
  {
    if f.Function? && f.code.CallbackBridge? then Some(RunBridge(f.code.callback, f.code.resolver, isCollection, args, user))
    else None
  }

  /** Every resolver call a bridge makes carries a record whose keys follow `agg._collection`, filled from the framework's arguments. */
  lemma BridgeRecordShape(callback: Value, resolver: Resolver, isCollection: bool, args: seq<Value>, user: Completion, i: nat)
    requires i < |RunBridge(callback, resolver, isCollection, args, user).effects|
    requires RunBridge(callback, resolver, isCollection, args, user).effects[i].ResolverCalled?
    ensures var e := RunBridge(callback, resolver, isCollection, args, user).effects[i];
            e.resolver == resolver && e.payload.Outcome? &&
            (e.payload.record.CollectionRecord? <==> isCollection) &&
            e.payload.record.response == Argument(args, 1) && e.payload.record.options == Argument(args, 2)
  {
  }
}
