# Backbone.Async 0.1.1 in Dafny

Backbone.Async makes Backbone's `fetch`, `save` and `destroy` return promises.
`buildPrototype` reduces a list of method names into one prototype object.
The object carries a `_collection` flag and a wrapper per listed method.
`Backbone.Async.Model` wraps fetch, save and destroy; `Backbone.Async.Collection` wraps fetch.

Each wrapper does the following:

- It normalises its overloaded arguments with `parseArgs`.
- It copies the caller's options into a fresh object.
- It keeps the caller's own `success` and `error` callbacks.
- It replaces them in the copy with bridges built by `overrideCallback`.
- It forwards the call to Backbone's own method: `[attrs, options]` for `save`, `[options]` otherwise.

When Backbone later calls a bridge, the bridge first runs the caller's callback with the first argument (the model or collection) as `this` and the same arguments.
It then calls the promise's resolve (success) or reject (error) exactly once, unless the caller's callback throws or is truthy but not a function.
Then the exception escapes to Backbone, no resolver is called, and the promise stays pending.
The argument is a record: `{collection, response, options}` when `agg._collection` is truthy, `{model, response, options}` otherwise.

The model is split by component:

- `js_values.dfy` (module `JsValues`): JavaScript values, `typeof`, truthiness and property-name conversion.
  Objects are maps of their own enumerable properties.
  A function value is either a caller's function or one of the library's two closures: the callback bridge and the installed wrapper.
- `arg_parser.dfy` (`ArgParser`): `parseArgs` as a pure function.
  It is checked against a typed-signature reference (`Signature`, `Encode`, `Meaning`) in both directions.
- `callback_bridge.dfy` (`CallbackBridge`): one run of a bridge, as the ordered list of effects it has.
  The effects are: the caller's callback ran, and the resolver was called with a record.
- `promises.dfy` (`Promises`): the returned promise as a settle-once state (Pending, Fulfilled, Rejected).
  `SettlementOf` is the state any list of effects leads to.
- `prototypes.dfy` (`Prototypes`): `buildPrototype` as a loop over the method list.
  It fills one `Prototype` object in place and is specified by the fold `Installed`.
- `wrapped_call.dfy` (`WrappedCall`): one call of an installed wrapper, as a class `Invocation`.
  Its fresh options map is updated in place, and it holds its promise and its effect log.
  The constructor runs the wrapper's body up to the forwarding call.
  `Deliver` is Backbone calling the installed `options.success` or `options.error`.
  What Backbone's own method does is an input: an exception thrown at once, or which callback it calls later and with which arguments.

Three points where the code behaves differently from what a reader might expect:

- `parseArgs` tests `key === null` strictly, where Backbone's own `save` tests `key == null`.
  So `save(undefined, options)`, or `save` with any falsy scalar first argument, yields no attributes and an empty options object.
  The caller's options, including their callbacks, are dropped.
  `ParseArgs` states this, and `EveryCallHasSignature` shows it is the only call shape the parser discards.
- `agg._collection` is read when the bridge runs, not when it is built. `Invocation.Deliver` reads it from the `Prototype` object at that point.
- The promise is not settled on every callback. If the caller's own `success` or `error` throws, or is truthy but not a function, `callback.apply` throws before the resolver is reached.
  The exception escapes to Backbone and the promise stays pending. `RunBridge` and `Invocation.Deliver` state this.

The tests shipped beside this version exercise `before:*`/`after:*` events, a `silent` option, collection `create`, the Store's `update`/`delete`, and the Storage/Store caches.
The 0.1.1 source implements none of these, so the model follows the code and leaves them out.

## Model

| member | source | states |
|---|---|---|
| JsValues.Truthy | dist/backbone.async.js:19 | `if (x)` fails exactly for undefined, null, false, 0 and the empty string; the same test decides `else if (key)` (:45), `options ? … : {}` (:53) and `if (agg._collection)` (:22) |
| JsValues.PropertyKey | dist/backbone.async.js:46 | a string key names itself, a boolean names "true" or "false", and an integer key names its canonical signed decimal numeral (no leading zero, no "-0"), which reads back as the same integer |
| JsValues.TypeOf | dist/backbone.async.js:41 | `typeof` answers "object" exactly for null and objects, which is what `typeof key === 'object'` tests |
| ArgParser.Extend | dist/backbone.async.js:53 | `_.extend` keeps the target's keys and adds the source object's own keys, the source's value winning; a primitive source adds nothing |
| ArgParser.OptionsCopy | dist/backbone.async.js:53 | the options are a fresh map with exactly the caller's keys and values, or empty when the caller gave none (or a primitive) |
| ArgParser.ParseArgs | dist/backbone.async.js:37-55 | save with a null or object first argument: that argument is attrs, and the second argument is copied as options. Save with a truthy scalar key: attrs is `{key: value}` and the third argument is copied. Save with a falsy scalar: no attrs and empty options. Any other method: no attrs, and the first argument is copied |
| ArgParser.ParseRecoversSignature | dist/backbone.async.js:37-55 | every well-formed typed call (`save(attrs, options)`, `save(key, value, options)`, `method(options)`), written positionally, parses back to the attributes and options it means |
| ArgParser.EveryCallHasSignature | dist/backbone.async.js:40-51 | a positional call parses to the meaning of some well-formed typed call of the same method iff it is not `save` with a falsy scalar first argument |
| CallbackBridge.RecordFor | dist/backbone.async.js:22-33 | the record is keyed `collection` iff the prototype's flag is set, otherwise `model`; its subject, response and options are the framework's first three arguments |
| CallbackBridge.RunBridge | dist/backbone.async.js:17-35 | the resolver is called exactly once, as the last effect and with the record, unless an exception escapes. The caller's callback runs first, with the first argument (the model or collection) as `this` and the same arguments, iff it is a function. An exception escapes iff the callback is truthy and is not a function, or throws. Nothing else happens: the run holds only those effects |
| CallbackBridge.BridgeRecordShape | dist/backbone.async.js:22-33 | every resolver call a bridge makes uses that bridge's resolver and carries a record whose shape follows `agg._collection` and whose response and options are the framework's |
| Promises.ReplayOne | dist/backbone.async.js:68 | replaying a single effect on a promise is one settlement step |
| Promises.ReplayConcat | dist/backbone.async.js:68-72 | the promise state after two runs of effects is the state after their concatenation |
| Promises.SettledIsFinal | dist/backbone.async.js:68 | once the promise is settled, no further effect changes it |
| Promises.PendingIffNoResolverCall | dist/backbone.async.js:68-72 | the promise is still pending iff no resolver call has happened |
| Promises.FirstResolverCallWins | dist/backbone.async.js:68-72 | the promise's state is fixed by the first resolver call; later bridge calls are ignored |
| Promises.Promise.constructor | dist/backbone.async.js:68 | `new Promise(...)` starts pending |
| Promises.Promise.Settle | dist/backbone.async.js:68 | calling resolve or reject settles a pending promise and leaves a settled one unchanged |
| Prototypes.InstalledKeys | dist/backbone.async.js:79-81 | the built object has the `_collection` key plus exactly one key per listed method |
| Prototypes.InstalledWrappers | dist/backbone.async.js:57-76 | every listed method is installed as the wrapper for that method over the given base |
| Prototypes.InstalledFlag | dist/backbone.async.js:80 | `_collection` is `Base === Backbone.Collection` unless a listed method is itself named `_collection` |
| Prototypes.CollectionFlagIff | dist/backbone.async.js:80 | `agg._collection` is truthy iff the base is the Collection type or a method named `_collection` overwrote it |
| Prototypes.Prototype.constructor | dist/backbone.async.js:80 | the reduction starts from `{_collection: Base === Backbone.Collection}` |
| Prototypes.Prototype.Install | dist/backbone.async.js:58-59 | one reduction step assigns `agg[method]` and changes nothing else |
| Prototypes.BuildPrototype | dist/backbone.async.js:79-81 | the loop leaves the object equal to the fold `Installed` over the method list |
| Prototypes.BuildModelPrototype | dist/backbone.async.js:86-88 | the Model prototype holds `_collection: false` and wrappers for fetch, save and destroy, and nothing else |
| Prototypes.BuildCollectionPrototype | dist/backbone.async.js:90-92 | the Collection prototype holds `_collection: true` and a wrapper for fetch, and nothing else |
| WrappedCall.OverrideCallback | dist/backbone.async.js:17-18 | the installed callback is a truthy function, and calling it with any framework arguments runs the bridge for the captured callback and resolver (as installed at :69-70) |
| WrappedCall.DispatchArguments | dist/backbone.async.js:71 | the framework receives `[attrs, options]` for save and `[options]` for any other method |
| WrappedCall.ReplayBridgeRun | dist/backbone.async.js:17-35 | a bridge run settles the promise exactly as one resolver call does when no exception escapes, and leaves it unchanged otherwise |
| WrappedCall.Invocation.constructor | dist/backbone.async.js:59-72 | the wrapper called is the one installed as `agg[method]` over the given base. The caller's success and error callbacks are captured from the parsed copy, then replaced by resolve and reject bridges. All other options are the caller's. The framework's method is called once with the forwarded arguments. A synchronous throw rejects the promise; otherwise it stays pending |
| WrappedCall.Invocation.Deliver | dist/backbone.async.js:18-34 | a framework callback appends the bridge run's effects. It settles a pending promise with the record iff no exception escapes, and never changes a settled one. Every record keeps the shape the prototype's flag selects |

## Left out

- The UMD loader (dist/backbone.async.js:6-16) and the `VERSION` string: module wiring with no logic.
- `Backbone.Model.extend` / `Backbone.Collection.extend` (dist/backbone.async.js:86-92): the model builds the prototype object but does not model copying it into a subclass prototype.
- Backbone's own `fetch`, `save` and `destroy`, and HTTP transport. They are inputs: the exception the forwarding call throws at once (`dispatchThrows`), and the callback Backbone calls later, with its arguments (`Deliver`).
- WrappedCall.Invocation.Deliver: a callback that Backbone calls synchronously inside the forwarding call is not modelled. All callbacks are taken to arrive after the wrapper returns, so an exception from the caller's callback never rejects the promise.
- Promise internals: asynchronous scheduling of `then` handlers and adoption of thenables. Only the settle-once state is modelled.
- JsValues.PropertyKey: numbers are mathematical integers. NaN, -0, fractions, the loss of distinct values beyond 2^53 and the exponent form `String` uses from 1e21 upward (`"1e+21"`) are not modelled. Truthiness and property names agree with JavaScript only for integers of magnitude below 2^53.
- JsValues.PropertyKey: there are no Symbol values. A Symbol `save` key (typeof "symbol", truthy) would make a symbol-keyed attribute; the model has no such key.
- ArgParser.ParseArgs: `save("__proto__", value)` is modelled as an own `__proto__` attribute. In JavaScript, `(attrs = {})[key] = value` then calls the `__proto__` setter and `attrs` gets no own property.
- ArgParser.Extend: an own `__proto__` key of the caller's options is copied as an ordinary key. `_.extend` would call the `__proto__` setter on the copy instead.
- ArgParser.OptionsCopy: functions carry no own properties in the model, so a function passed as options yields an empty copy. `_.extend` would copy the function's own enumerable properties.
- Objects are modelled as their own enumerable properties.
  - Underscore's `_.extend` also copies inherited enumerable keys; prototype chains are not modelled.
  - Object identity is not modelled: the caller's options object, attrs passed to save, and the options object in the result record are values rather than references. That the wrapper writes `success` and `error` only into its copy, never into the caller's options object, holds in the model because values cannot be shared.
- CallbackBridge.RunBridge: a truthy non-function callback is taken to throw a TypeError. An object with its own `apply` property would instead have that property called.
- CallbackBridge.RunBridge: a caller's callback that is itself a bridge from an earlier call is treated as opaque caller code. Its own resolver call is not traced.
- JsValues.PropertyKey: the source text of the library's own closures, used only if such a closure were passed as a save key, is not modelled.
- Events (`before:*`, `after:*`), the `silent` option, collection `create`/`update`/`delete`, Storage and Store: not present in this version of the source.
