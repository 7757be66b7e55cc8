/** Name bindings: the Environment of src/eval/environment.js and the Closure of
    src/eval/closure.js.

    Both keep a mutable store from names to values. A Closure also has an outer scope and
    looks a name up there when its own store has no binding for it. One class models both:
    a plain Environment is one without an outer scope, whose look-up reads its own store
    only, as `Environment.get` does. */
module Environments {
  import opened Wrappers
  import opened Runtime

  /** The first scope, nearest first, that binds `name`, and the value it binds. */
  function FirstBinding(scopes: seq<map<string, Value>>, name: string): (r: Option<Value>)
    ensures r.Some? ==> exists k | 0 <= k < |scopes| :: name in scopes[k] && scopes[k][name] == r.value
  {
    if scopes == [] then None
    else if name in scopes[0] then Some(scopes[0][name])
    else FirstBinding(scopes[1..], name)
  }

  /** `FirstBinding` finds `v` exactly when some scope binds `name` to `v` and no nearer
      scope binds `name` at all. */
  lemma {:induction false} FirstBindingFinds(scopes: seq<map<string, Value>>, name: string, v: Value)
    ensures FirstBinding(scopes, name) == Some(v)
        <==> exists k | 0 <= k < |scopes| ::
               name in scopes[k] && scopes[k][name] == v && forall j | 0 <= j < k :: name !in scopes[j]
  {
    if scopes != [] && name !in scopes[0] {
      FirstBindingFinds(scopes[1..], name, v);
      if FirstBinding(scopes, name) == Some(v) {
        var k :| 0 <= k < |scopes| - 1 && name in scopes[1..][k] && scopes[1..][k][name] == v
                 && forall j | 0 <= j < k :: name !in scopes[1..][j];
        assert forall j | 0 <= j < k + 1 :: name !in scopes[j] by {
          forall j | 0 <= j < k + 1 ensures name !in scopes[j] {
            if j > 0 { assert scopes[j] == scopes[1..][j - 1]; }
          }
        }
      }
      if exists k | 0 <= k < |scopes| ::
           name in scopes[k] && scopes[k][name] == v && forall j | 0 <= j < k :: name !in scopes[j] {
        var k :| 0 <= k < |scopes| && name in scopes[k] && scopes[k][name] == v
                 && forall j | 0 <= j < k :: name !in scopes[j];
        assert k > 0;
        assert scopes[1..][k - 1] == scopes[k];
        assert forall j | 0 <= j < k - 1 :: name !in scopes[1..][j] by {
          forall j | 0 <= j < k - 1 ensures name !in scopes[1..][j] {
            assert scopes[1..][j] == scopes[j + 1];
          }
        }
      }
    } else if scopes != [] {
      if exists k | 0 <= k < |scopes| ::
           name in scopes[k] && scopes[k][name] == v && forall j | 0 <= j < k :: name !in scopes[j] {
        var k :| 0 <= k < |scopes| && name in scopes[k] && scopes[k][name] == v
                 && forall j | 0 <= j < k :: name !in scopes[j];
        assert k == 0;
      }
    }
  }

  /** `FirstBinding` finds nothing exactly when no scope binds `name`. */
  lemma {:induction false} FirstBindingMisses(scopes: seq<map<string, Value>>, name: string)
    ensures FirstBinding(scopes, name) == None <==> forall k | 0 <= k < |scopes| :: name !in scopes[k]
  {
    if scopes != [] {
      FirstBindingMisses(scopes[1..], name);
      assert forall k | 1 <= k < |scopes| :: scopes[k] == scopes[1..][k - 1];
    }
  }

  class Environment {
    var store: map<string, Value>
    const outer: Environment?
    /** The scopes `outer` leads to, nearest first. */
    ghost const chain: seq<Environment>

    /** `outer` and `chain` agree, and the chain of outer scopes never comes back here. */
    ghost predicate Linked()
      decreases |chain|
    {
      if outer == null then chain == []
      else chain == [outer] + outer.chain && this !in chain && outer.Linked()
    }

    /** The stores a look-up consults, nearest first. */
    function Scopes(): seq<map<string, Value>>
      requires Linked()
      reads this, set e | e in chain
      decreases |chain|
    {
      [store] + (if outer == null then [] else outer.Scopes())
    }

    /** The value `name` is bound to here, or in the nearest outer scope that binds it. */
    function Lookup(name: string): (r: Option<Value>)
      requires Linked()
      reads this, set e | e in chain
      ensures name in store ==> r == Some(store[name])
      ensures r.Some? && name !in store ==> outer != null && outer.Lookup(name) == r
      decreases |chain|
    {
      if name in store then Some(store[name])
      else if outer == null then None
      else outer.Lookup(name)
    }

    /** A look-up returns the first binding of `name` along the scopes. */
    lemma {:induction false} LookupIsFirstBinding(name: string)
      requires Linked()
      ensures Lookup(name) == FirstBinding(Scopes(), name)
      decreases |chain|
    {
      if name !in store && outer != null {
        outer.LookupIsFirstBinding(name);
        assert Scopes()[1..] == outer.Scopes();
      }
    }

    /** `new Environment()`: an empty store and no outer scope. */
    constructor ()
      ensures store == map[] && outer == null && Linked()
      ensures forall name :: Lookup(name) == None
    {
      store := map[];
      outer := null;
      chain := [];
    }

    /** `new Closure(outer)`: an empty store in front of `outer`, so that it sees what
        `outer` sees. */
    constructor Closure(outer: Environment?)
      requires outer != null ==> outer.Linked()
      ensures store == map[] && this.outer == outer && Linked()
      ensures forall name :: Lookup(name) == if outer == null then None else outer.Lookup(name)
    {
      store := map[];
      this.outer := outer;
      chain := if outer == null then [] else [outer] + outer.chain;
    }

    /** `get(name)`: the value bound here, else the outer scope's `get`. */
    method Get(name: string) returns (r: Option<Value>)
      requires Linked()
      ensures r == Lookup(name)
      decreases |chain|
    {
      if name in store {
        r := Some(store[name]);
      } else if outer != null {
        r := outer.Get(name);
      } else {
        r := None;
      }
    }

    /** `set(name, obj)`: binds `name` here, whatever an outer scope binds, and returns the
        value. Every other name keeps what it looked up to, and no outer scope changes. */
    method Set(name: string, v: Value) returns (r: Value)
      requires Linked()
      modifies this
      ensures r == v && store == old(store)[name := v] && Linked()
      ensures Lookup(name) == Some(v)
      ensures forall other | other != name :: Lookup(other) == old(Lookup(other))
      ensures outer != null ==> forall other :: outer.Lookup(other) == old(outer.Lookup(other))
    {
      store := store[name := v];
      r := v;
    }
  }

  /** A look-up through two scopes: the inner binding shadows the outer one, and a name the
      inner scope lacks is found in the outer one. */
  lemma ShadowingOrder(inner: map<string, Value>, outer: map<string, Value>, name: string)
    ensures name in inner ==> FirstBinding([inner, outer], name) == Some(inner[name])
    ensures name !in inner && name in outer ==> FirstBinding([inner, outer], name) == Some(outer[name])
    ensures name !in inner && name !in outer ==> FirstBinding([inner, outer], name) == None
  {
    assert [inner, outer][1..] == [outer];
    assert [outer][1..] == [];
    assert FirstBinding([outer], name) == if name in outer then Some(outer[name]) else FirstBinding([], name);
  }
}
