/**
 * `buildPrototype(Base, methods)`: reduces the method list into one object
 * `agg`, starting from `{_collection: Base === Backbone.Collection}` and
 * installing, per listed method, the wrapper `wrapMethod(Base.prototype)`
 * makes for it. The two instantiations give `Backbone.Async.Model`
 * (fetch, save, destroy) and `Backbone.Async.Collection` (fetch).
 */
module Prototypes {
  import opened JsValues

  /** The key of the flag the bridges read to choose the record's shape. */
  const CollectionKey := "_collection"

  /** The value `agg[method]` holds once `method` is wrapped over `base`. */
  function Wrapper(methodName: string, base: Base): Value
  {
    Function(WrappedMethod(methodName, base))
  }

  /** The properties of `agg` after the reduction has consumed `methods`, in order. */
  function Installed(base: Base, methods: seq<string>): map<string, Value>
    decreases |methods|
  {
    if methods == [] then map[CollectionKey := Bool(base == CollectionBase)]
    else Installed(base, methods[..|methods| - 1])[methods[|methods| - 1] := Wrapper(methods[|methods| - 1], base)]
  }

  /** `agg` has the flag and exactly one entry per listed method. */
  lemma {:induction false} InstalledKeys(base: Base, methods: seq<string>)
    ensures Installed(base, methods).Keys == {CollectionKey} + set m | m in methods
    decreases |methods|
  {
    if methods != [] {
      var init := methods[..|methods| - 1];
      InstalledKeys(base, init);
      assert methods == init + [methods[|methods| - 1]];
      assert (set m | m in methods) == (set m | m in init) + {methods[|methods| - 1]};
    }
  }

  /** Every listed method is installed as its wrapper over `base`. */
  lemma {:induction false} InstalledWrappers(base: Base, methods: seq<string>, m: string)
    requires m in methods
    ensures m in Installed(base, methods) && Installed(base, methods)[m] == Wrapper(m, base)
    decreases |methods|
  {
    var last := methods[|methods| - 1];
    if m != last {
      var init := methods[..|methods| - 1];
      assert methods == init + [last];
      InstalledWrappers(base, init, m);
    }
  }

  /** `agg._collection` keeps `Base === Backbone.Collection` unless a method of that very name is listed. */
  lemma {:induction false} InstalledFlag(base: Base, methods: seq<string>)
    requires CollectionKey !in methods
    ensures CollectionKey in Installed(base, methods)
    ensures Installed(base, methods)[CollectionKey] == Bool(base == CollectionBase)
    decreases |methods|
  {
    if methods != [] {
      var init := methods[..|methods| - 1];
      assert methods == init + [methods[|methods| - 1]];
      InstalledFlag(base, init);
    }
  }

  /** `agg._collection` is truthy exactly for a Collection base (or when a method named `_collection` overwrote it). */
  lemma CollectionFlagIff(base: Base, methods: seq<string>)
    ensures CollectionKey in Installed(base, methods)
    ensures Truthy(Installed(base, methods)[CollectionKey]) <==> base == CollectionBase || CollectionKey in methods
  {
    InstalledKeys(base, methods);
    if CollectionKey in methods {
      InstalledWrappers(base, methods, CollectionKey);
    } else {
      InstalledFlag(base, methods);
    }
  }

  /** The object `buildPrototype` fills in; the bridges keep a reference to it. */
  class Prototype {
    var props: map<string, Value>

    /** The reduction's initial value `{_collection: Base === Backbone.Collection}`. */
    constructor (base: Base)
      ensures props == Installed(base, [])
    {
      props := map[CollectionKey := Bool(base == CollectionBase)];
    }

    /** `agg._collection`, read as a condition. */
    predicate IsCollection()
      reads this
    {
      Truthy(Get(props, CollectionKey))
    }

    /** One step of the reduction, `wrapMethod(proto)(agg, method)`: sets `agg[method]`, nothing else. */
    method Install(methodName: string, base: Base)
      modifies this
      ensures props == old(props)[methodName := Wrapper(methodName, base)]
    {
      props := props[methodName := Wrapper(methodName, base)];
    }
  }

  method BuildPrototype(base: Base, methods: seq<string>) returns (agg: Prototype)
    ensures fresh(agg)
    ensures agg.props == Installed(base, methods)
  {
    agg := new Prototype(base);
    for i := 0 to |methods|
      invariant agg.props == Installed(base, methods[..i])
    {
      assert methods[..i + 1][..i] == methods[..i];
      agg.Install(methods[i], base);
    }
    assert methods[..|methods|] == methods;
  }

  /** `Backbone.Async.Model`'s prototype: fetch, save and destroy wrapped, `_collection` false. */
  method BuildModelPrototype() returns (agg: Prototype)
    ensures fresh(agg)
    ensures agg.props == map[CollectionKey := Bool(false), "fetch" := Wrapper("fetch", ModelBase),
                             "save" := Wrapper("save", ModelBase), "destroy" := Wrapper("destroy", ModelBase)]
    ensures !agg.IsCollection()
  {
    var methods := ["fetch", "save", "destroy"];
    assert methods[..2] == ["fetch", "save"] && methods[..2][..1] == ["fetch"] && methods[..2][..1][..0] == [];
    var start := Installed(ModelBase, []);
    assert Installed(ModelBase, methods) == start["fetch" := Wrapper("fetch", ModelBase)]
      ["save" := Wrapper("save", ModelBase)]["destroy" := Wrapper("destroy", ModelBase)];
    agg := BuildPrototype(ModelBase, methods);
  }

  /** `Backbone.Async.Collection`'s prototype: fetch wrapped, `_collection` true. */
  method BuildCollectionPrototype() returns (agg: Prototype)
    ensures fresh(agg)
    ensures agg.props == map[CollectionKey := Bool(true), "fetch" := Wrapper("fetch", CollectionBase)]
    ensures agg.IsCollection()
  {
    var methods := ["fetch"];
    assert methods[..0] == [];
    agg := BuildPrototype(CollectionBase, methods);
  }
}
