/**
 * `parseArgs`: turns the overloaded positional arguments of a persistence
 * call into the attributes to save and a fresh copy of the options.
 * `save` takes either `(attrs, options)` or `(key, value, options)`; every
 * other method takes only `(options)`.
 */
module ArgParser {
  import opened JsValues

  datatype Parsed = Parsed(attrs: Value, options: map<string, Value>)

  /**
   * `_.extend(target, source)`: Underscore copies the keys of objects only,
   * never of a primitive; where both have a key, the source's value wins.
   */
  function Extend(target: map<string, Value>, source: Value): (r: map<string, Value>)
    ensures r.Keys == target.Keys + if source.Object? then source.props.Keys else {}
    ensures forall k :: k in r ==> r[k] == if source.Object? && k in source.props then source.props[k] else target[k]
  {
    if source.Object? then target + source.props else target
  }

  /** `options ? _.extend({}, options) : {}`: a fresh object with the same keys and values as the caller's, or an empty one. */
  function OptionsCopy(raw: Value): (m: map<string, Value>)
    ensures m.Keys == if raw.Object? then raw.props.Keys else {}
    ensures forall k :: k in m ==> raw.Object? && m[k] == raw.props[k]
  {
    if Truthy(raw) then Extend(map[], raw) else map[]
  }

  /** True when `save` reads its first argument as the attributes bag: `key === null || typeof key === 'object'`. */
  predicate IsAttributesBag(key: Value)
  {
    key == Null || TypeOf(key) == "object"
  }

  function ParseArgs(methodName: string, key: Value, value: Value, extra: Value): (p: Parsed)
    // save(attrs, options): the first argument itself is the attributes, the second the options
    ensures methodName == "save" && IsAttributesBag(key) ==>
              p.attrs == key && p.options == OptionsCopy(value)
    // save(key, value, options) with a truthy scalar key: a one-entry attributes bag, the third argument the options
    ensures methodName == "save" && !IsAttributesBag(key) && Truthy(key) ==>
              p.attrs == Object(map[PropertyKey(key) := value]) && p.options == OptionsCopy(extra)
    // save with a falsy scalar first argument (undefined, false, 0, ""): no attributes and no options at all
    ensures methodName == "save" && !IsAttributesBag(key) && !Truthy(key) ==>
              p.attrs == Undefined && p.options == map[]
    // fetch, destroy, ...: no attributes, the first argument is the options
    ensures methodName != "save" ==> p.attrs == Undefined && p.options == OptionsCopy(key)
  {
    var chosen :=
      if methodName == "save" then
        if IsAttributesBag(key) then (key, value)
        else if Truthy(key) then (Object(map[PropertyKey(key) := value]), extra)
        else (Undefined, Undefined)
      else (Undefined, key);
    Parsed(chosen.0, if Truthy(chosen.1) then Extend(map[], chosen.1) else map[])
  }

  /**
   * The call signatures the overloads stand for, one constructor per shape,
   * and what each of them means: the reference `ParseArgs` is checked against.
   */
  datatype Signature =
    | SaveAttributes(attrs: Value, options: Value)
    | SaveKeyValue(key: Value, value: Value, options: Value)
    | OptionsOnly(methodName: string, options: Value)

  datatype Positional = Positional(methodName: string, key: Value, value: Value, extra: Value)

  predicate WellFormed(sig: Signature)
  {
    match sig
    case SaveAttributes(attrs, _) => attrs.Null? || attrs.Object?
    case SaveKeyValue(key, _, _) => Truthy(key) && !key.Object?
    case OptionsOnly(methodName, _) => methodName != "save"
  }

  /** How a typed call is written positionally. */
  function Encode(sig: Signature): Positional
  {
    match sig
    case SaveAttributes(attrs, options) => Positional("save", attrs, options, Undefined)
    case SaveKeyValue(key, value, options) => Positional("save", key, value, options)
    case OptionsOnly(methodName, options) => Positional(methodName, options, Undefined, Undefined)
  }

  /** What a typed call asks for: its attributes and a copy of its options. */
  function Meaning(sig: Signature): Parsed
  {
    match sig
    case SaveAttributes(attrs, options) => Parsed(attrs, OptionsCopy(options))
    case SaveKeyValue(key, value, options) => Parsed(Object(map[PropertyKey(key) := value]), OptionsCopy(options))
    case OptionsOnly(_, options) => Parsed(Undefined, OptionsCopy(options))
  }

  function Parse(call: Positional): Parsed
  {
    ParseArgs(call.methodName, call.key, call.value, call.extra)
  }

  /** Every well-formed typed call, written positionally, is parsed back to what it means. */
  lemma ParseRecoversSignature(sig: Signature)
    requires WellFormed(sig)
    ensures Parse(Encode(sig)) == Meaning(sig)
  {
  }

  /** The method a typed call invokes. */
  function MethodOf(sig: Signature): string
  {
    if sig.OptionsOnly? then sig.methodName else "save"
  }

  /**
   * Conversely, every positional call is a typed call of the same method,
   * except `save` with a falsy scalar first argument, which is parsed to nothing.
   */
  lemma EveryCallHasSignature(call: Positional)
    ensures (exists sig :: WellFormed(sig) && MethodOf(sig) == call.methodName && Parse(call) == Meaning(sig)) <==>
            !(call.methodName == "save" && !IsAttributesBag(call.key) && !Truthy(call.key))
  {
    if call.methodName != "save" {
      var sig := OptionsOnly(call.methodName, call.key);
      assert WellFormed(sig) && MethodOf(sig) == call.methodName && Parse(call) == Meaning(sig);
    } else if IsAttributesBag(call.key) {
      var sig := SaveAttributes(call.key, call.value);
      assert WellFormed(sig) && MethodOf(sig) == call.methodName && Parse(call) == Meaning(sig);
    } else if Truthy(call.key) {
      var sig := SaveKeyValue(call.key, call.value, call.extra);
      assert WellFormed(sig) && MethodOf(sig) == call.methodName && Parse(call) == Meaning(sig);
    }
  }
}
