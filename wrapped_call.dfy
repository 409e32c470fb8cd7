/**
 * The method body `wrapMethod` installs as `agg[method]`, and what happens
 * when the framework later calls back into it. One `Invocation` is one call
 * of a wrapped method on a receiver: it parses the arguments, keeps the
 * caller's own success and error callbacks, overwrites them in its fresh
 * options object with bridges to its promise's resolve and reject, and hands
 * the options to the framework's own method. The framework's method is
 * not modelled; what it does is an input: whether it throws at once, and
 * which installed callback it calls afterwards, with which arguments.
 */
module WrappedCall {
  import opened JsValues
  import opened ArgParser
  import opened CallbackBridge
  import opened Promises
  import opened Prototypes

  /**
   * `overrideCallback(callback, resolver, agg)` as a function value; `agg` is
   * the invocation's own. It is always a truthy function, and calling it
   * runs the bridge for `callback` and `resolver`.
   */
  function OverrideCallback(callback: Value, resolver: Resolver): (f: Value)
    ensures TypeOf(f) == "function" && Truthy(f)
    ensures forall isCollection, args, user :: CallBridge(f, isCollection, args, user) == Some(RunBridge(callback, resolver, isCollection, args, user))
  {
    Function(CallbackBridge(callback, resolver))
  }

  /** The option key a resolver's bridge is stored under. */
  function CallbackKey(resolver: Resolver): string
  {
    if resolver == Resolve then "success" else "error"
  }

  /** `method === 'save' ? [attrs, options] : [options]` */
  function DispatchArguments(methodName: string, attrs: Value, options: map<string, Value>): (args: seq<Value>)
    ensures |args| == (if methodName == "save" then 2 else 1)
    ensures args[|args| - 1] == Object(options)
    ensures methodName == "save" ==> args[0] == attrs
  {
    if methodName == "save" then [attrs, Object(options)] else [Object(options)]
  }

  /** The promise's state after a bridge run, from the state before it. */
  lemma ReplayBridgeRun(state: State, callback: Value, resolver: Resolver, isCollection: bool, args: seq<Value>, user: Completion)
    ensures var run := RunBridge(callback, resolver, isCollection, args, user);
            Replay(state, run.effects) ==
              if run.thrown.None? then Step(state, ResolverCalled(resolver, Outcome(RecordFor(isCollection, args)))) else state
  {
    var run := RunBridge(callback, resolver, isCollection, args, user);
    var e := run.effects;
    if |e| == 2 {
      assert e == [e[0]] + [e[1]];
      ReplayConcat(state, [e[0]], [e[1]]);
      ReplayOne(state, e[0]);
      ReplayOne(state, e[1]);
    } else if |e| == 1 {
      ReplayOne(state, e[0]);
    }
  }

  class Invocation {
    /** the prototype object the wrapper was installed on; its bridges read `agg._collection` */
    const agg: Prototype
    /** `proto`: the framework prototype the call is forwarded to */
    const base: Base
    const methodName: string
    /** `this` of the call, the model or collection */
    const receiver: Value
    const attrs: Value
    /** the caller's `options.success` and `options.error`, captured before they are overwritten */
    const userSuccess: Value
    const userError: Value
    const promise: Promise
    /** the fresh options object handed to the framework */
    var options: map<string, Value>
    /** everything the call has done so far, in order */
    var effects: seq<Effect>

    /** The caller's callback the bridge for `resolver` holds. */
    function Captured(resolver: Resolver): Value
    {
      if resolver == Resolve then userSuccess else userError
    }

    /** Every record a resolver received has the shape `agg._collection` selects. */
    ghost predicate RecordsFollowPrototype()
      reads this, agg
    {
      forall i :: 0 <= i < |effects| && effects[i].ResolverCalled? && effects[i].payload.Outcome? ==>
        (effects[i].payload.record.CollectionRecord? <==> agg.IsCollection())
    }

    ghost predicate Valid()
      reads this, promise, agg
    {
      && Get(options, "success") == OverrideCallback(userSuccess, Resolve)
      && Get(options, "error") == OverrideCallback(userError, Reject)
      && promise.state == SettlementOf(effects)
      && RecordsFollowPrototype()
    }

    /**
     * `agg[method](key, value, _options)` called on `receiver`: the body runs
     * up to and including the forwarding call; `dispatchThrows` is the
     * exception the framework's method throws at once, if any, which the
     * promise's executor turns into a rejection.
     */
    constructor (agg: Prototype, base: Base, methodName: string, receiver: Value,
                 key: Value, value: Value, extra: Value, dispatchThrows: Option<Value>)
      // the method called is the wrapper `wrapMethod(proto)` installed as `agg[method]`
      requires methodName in agg.props && agg.props[methodName] == Wrapper(methodName, base)
      ensures this.agg == agg && this.base == base && this.methodName == methodName && this.receiver == receiver
      ensures fresh(promise)
      ensures Valid()
      // the caller's callbacks are captured from the parsed copy, then replaced by bridges; every other option is the caller's
      ensures var parsed := ParseArgs(methodName, key, value, extra);
              && attrs == parsed.attrs
              && userSuccess == Get(parsed.options, "success")
              && userError == Get(parsed.options, "error")
              && options == parsed.options["success" := OverrideCallback(userSuccess, Resolve)]
                                          ["error" := OverrideCallback(userError, Reject)]
      // the framework's method is called once, with `[attrs, options]` for save and `[options]` otherwise
      ensures effects == [Dispatched(base, methodName, receiver, DispatchArguments(methodName, attrs, options))] +
                         (if dispatchThrows.Some? then [ResolverCalled(Reject, Exception(dispatchThrows.value))] else [])
      ensures promise.state == if dispatchThrows.Some? then Rejected(Exception(dispatchThrows.value)) else Pending
    {
      var parsed := ParseArgs(methodName, key, value, extra);
      this.agg := agg;
      this.base := base;
      this.methodName := methodName;
      this.receiver := receiver;
      attrs := parsed.attrs;
      options := parsed.options;
      userSuccess := Get(parsed.options, "success");
      userError := Get(parsed.options, "error");
      promise := new Promise();
      effects := [];
      new;
      options := options["success" := OverrideCallback(userSuccess, Resolve)];
      options := options["error" := OverrideCallback(userError, Reject)];
      var dispatched := Dispatched(base, methodName, receiver, DispatchArguments(methodName, attrs, options));
      effects := [dispatched];
      ReplayOne(Pending, dispatched);
      if dispatchThrows.Some? {
        var rejected := ResolverCalled(Reject, Exception(dispatchThrows.value));
        promise.Settle(Reject, Exception(dispatchThrows.value));
        ReplayConcat(Pending, [dispatched], [rejected]);
        ReplayOne(Pending, rejected);
        effects := effects + [rejected];
      }
    }

    /**
     * The framework calls the installed `options.success` (for `Resolve`) or
     * `options.error` (for `Reject`) with `args`; `user` is how the caller's
     * own callback finishes if it runs. Returns the exception that escapes.
     */
    method Deliver(resolver: Resolver, args: seq<Value>, user: Completion) returns (thrown: Option<Value>)
      requires Valid()
      modifies this`effects, promise
      ensures Valid()
      ensures var run := RunBridge(Captured(resolver), resolver, agg.IsCollection(), args, user);
              effects == old(effects) + run.effects && thrown == run.thrown
      // a settled promise is never settled again
      ensures !old(promise.state).Pending? ==> promise.state == old(promise.state)
      // a pending one is settled by this call exactly when no exception escapes
      ensures old(promise.state).Pending? && thrown.None? ==>
                promise.state == Settled(resolver, Outcome(RecordFor(agg.IsCollection(), args)))
      ensures thrown.Some? ==> promise.state == old(promise.state)
    {
      var bridge := Get(options, CallbackKey(resolver));
      var callback := Captured(resolver);
      var isCollection := agg.IsCollection();
      var run := CallBridge(bridge, isCollection, args, user).value;
      assert run == RunBridge(callback, resolver, isCollection, args, user);
      ReplayConcat(Pending, effects, run.effects);
      ReplayBridgeRun(promise.state, callback, resolver, isCollection, args, user);
      forall i | 0 <= i < |run.effects| && run.effects[i].ResolverCalled?
        ensures run.effects[i].payload.Outcome? && (run.effects[i].payload.record.CollectionRecord? <==> isCollection)
      {
        BridgeRecordShape(callback, resolver, isCollection, args, user, i);
      }
      effects := effects + run.effects;
      if run.thrown.None? {
        promise.Settle(resolver, Outcome(RecordFor(isCollection, args)));
      }
      thrown := run.thrown;
    }
  }

  /**
   * `contacts.fetch({test: true, silent: false})` on an async Collection:
   * the options reach the framework with the caller's keys kept, and the
   * framework's success callback fulfils the promise with
   * `{collection, response, options}`; a later error callback changes nothing.
   */
  method CollectionFetchClient(contacts: Value, response: Value, failure: Value)
  {
    var agg := BuildCollectionPrototype();
    var caller := Object(map["test" := Bool(true), "silent" := Bool(false)]);
    var call := new Invocation(agg, CollectionBase, "fetch", contacts, caller, Undefined, Undefined, None);
    assert call.options["test"] == Bool(true) && call.options["silent"] == Bool(false);
    assert call.effects[0].args == [Object(call.options)];
    var delivered := Object(call.options);
    var thrown := call.Deliver(Resolve, [contacts, response, delivered], Returned);
    assert thrown == None;
    assert call.promise.state == Fulfilled(Outcome(CollectionRecord(contacts, response, delivered)));
    thrown := call.Deliver(Reject, [contacts, failure, delivered], Returned);
    assert call.promise.state == Fulfilled(Outcome(CollectionRecord(contacts, response, delivered)));
  }

  /**
   * `contact.save(null, {success: f})` on an async Model whose request fails:
   * the caller's `f` is not the error callback, so only the rejection happens,
   * with `{model, response, options}`.
   */
  method ModelSaveClient(contact: Value, response: Value, f: Value)
    requires f.Function?
  {
    var agg := BuildModelPrototype();
    var caller := Object(map["success" := f]);
    var call := new Invocation(agg, ModelBase, "save", contact, Null, caller, Undefined, None);
    assert call.attrs == Null && call.userSuccess == f && call.userError == Undefined;
    assert call.effects[0].args == [Null, Object(call.options)];
    var delivered := Object(call.options);
    var thrown := call.Deliver(Reject, [contact, response, delivered], Returned);
    assert call.effects[1] == ResolverCalled(Reject, Outcome(ModelRecord(contact, response, delivered)));
    assert call.promise.state == Rejected(Outcome(ModelRecord(contact, response, delivered)));
  }
}
