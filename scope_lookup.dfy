/** The look-up of `Environment.get` (src/eval/environment.js) and `Closure.get`
    (src/eval/closure.js) as written.

    Each store is a plain object literal, and `get` indexes it with the name. A plain
    object also answers for the names every object inherits, with a truthy host member,
    so `get('toString')` gives that member instead of `undefined`, and a Closure, which
    asks its outer scope only when its own store gives something falsy, never consults
    the outer scope for such a name. `Environments.Environment.Lookup` is the intended
    look-up, over the stores' own entries only; this module states where the two part. */
module ScopeLookupAsWritten {
  import opened Wrappers
  import opened Runtime
  import opened Environments
  import ReservedWordLookup

  /** What indexing a store gives: one of its own bindings, an inherited host member, or
      `undefined`. */
  datatype Bound = OwnValue(value: Value) | HostMember(name: string) | Unbound

  /** `store[name]` on a plain-object store. */
  function StoreGet(store: map<string, Value>, name: string): (r: Bound)
    ensures r.OwnValue? <==> name in store
    ensures r.HostMember? ==> name in ReservedWordLookup.InheritedNames
  {
    if name in store then OwnValue(store[name])
    else if name in ReservedWordLookup.InheritedNames then HostMember(name)
    else Unbound
  }

  /** `get(name)` along the scopes, nearest first, as written: the next scope is asked only
      when indexing this one gives `undefined`, the one falsy result a store can give. */
  function LookupAsWritten(scopes: seq<map<string, Value>>, name: string): Bound {
    if scopes == [] then Unbound
    else
      var here := StoreGet(scopes[0], name);
      if here.Unbound? then LookupAsWritten(scopes[1..], name) else here
  }

  /** The intended look-up's answer in the terms of the one as written. */
  function AsBound(found: Option<Value>): Bound {
    if found.Some? then OwnValue(found.value) else Unbound
  }

  /** Away from the inherited names, the look-up as written is the intended one. */
  lemma {:induction false} AgreesAwayFromInherited(scopes: seq<map<string, Value>>, name: string)
    requires name !in ReservedWordLookup.InheritedNames
    ensures LookupAsWritten(scopes, name) == AsBound(FirstBinding(scopes, name))
    decreases scopes
  {
    if scopes != [] && name !in scopes[0] {
      AgreesAwayFromInherited(scopes[1..], name);
    }
  }

  /** For an inherited name the look-up as written stops at the first scope, whatever the
      scopes bind: it never reaches an outer binding of `toString`, nor reports the name
      unbound. */
  lemma InheritedNamesStopAtOnce(scopes: seq<map<string, Value>>, name: string)
    requires scopes != [] && name in ReservedWordLookup.InheritedNames
    ensures LookupAsWritten(scopes, name)
         == if name in scopes[0] then OwnValue(scopes[0][name]) else HostMember(name)
  {
  }

  /** A Closure over an Environment binding `toString`: the intended look-up finds the
      binding, the look-up as written the host's `toString`. */
  lemma OuterBindingHidden(v: Value)
    ensures FirstBinding([map[], map["toString" := v]], "toString") == Some(v)
    ensures LookupAsWritten([map[], map["toString" := v]], "toString") == HostMember("toString")
  {
    ShadowingOrder(map[], map["toString" := v], "toString");
  }
}
