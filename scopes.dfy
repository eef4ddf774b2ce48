/**
 * Scope.java is not part of this model; this is the parent-linked binding table that the
 * analyzer (binding names to types) and the interpreter (binding names to values) both
 * use. A scope is a value: the stages hold it in a field and replace it when they define,
 * push or pop, which is what mutation of the one Java object they reach amounts to,
 * since no stage keeps a second reference to a scope it has left.
 * Defining a name that the scope already binds replaces the binding.
 */
module Scopes {
  import opened Wrappers

  datatype Scope<V, F> = Scope(variables: map<string, V>, functions: map<(string, nat), F>, parent: Option<Scope<V, F>>)

  /** new Scope(parent): an empty scope whose lookups fall back to the parent. */
  function Child<V, F>(parent: Scope<V, F>): (s: Scope<V, F>)
    ensures s.parent == Some(parent) && s.variables == map[] && s.functions == map[]
  {
    Scope(map[], map[], Some(parent))
  }

  /** The innermost binding of the name; found exactly when some scope of the chain binds it. */
  function LookupVariable<V, F>(s: Scope<V, F>, name: string): (r: Option<V>)
    ensures r.Some? <==> BoundInChain(s, name)
    ensures name in s.variables ==> r == Some(s.variables[name])
  {
    if name in s.variables then Some(s.variables[name])
    else if s.parent.Some? then LookupVariable(s.parent.value, name)
    else None
  }

  function LookupFunction<V, F>(s: Scope<V, F>, name: string, arity: nat): (r: Option<F>)
    ensures r.Some? <==> FunctionInChain(s, name, arity)
    ensures (name, arity) in s.functions ==> r == Some(s.functions[(name, arity)])
  {
    if (name, arity) in s.functions then Some(s.functions[(name, arity)])
    else if s.parent.Some? then LookupFunction(s.parent.value, name, arity)
    else None
  }

  function DefineVariable<V, F>(s: Scope<V, F>, name: string, v: V): (r: Scope<V, F>)
    ensures r.parent == s.parent && r.functions == s.functions
  {
    s.(variables := s.variables[name := v])
  }

  function DefineFunction<V, F>(s: Scope<V, F>, name: string, arity: nat, f: F): (r: Scope<V, F>)
    ensures r.parent == s.parent && r.variables == s.variables
  {
    s.(functions := s.functions[(name, arity) := f])
  }

  /** A definition is found by the next lookup of its name and shadows outer bindings;
      every other name resolves as before. */
  lemma DefineThenLookupVariable<V, F>(s: Scope<V, F>, name: string, v: V, other: string)
    ensures LookupVariable(DefineVariable(s, name, v), name) == Some(v)
    ensures other != name ==> LookupVariable(DefineVariable(s, name, v), other) == LookupVariable(s, other)
  {
  }

  lemma DefineThenLookupFunction<V, F>(s: Scope<V, F>, name: string, arity: nat, f: F, other: string, otherArity: nat)
    ensures LookupFunction(DefineFunction(s, name, arity, f), name, arity) == Some(f)
    ensures (other, otherArity) != (name, arity) ==>
      LookupFunction(DefineFunction(s, name, arity, f), other, otherArity) == LookupFunction(s, other, otherArity)
  {
  }

  /** A fresh child resolves every name exactly as its parent does. */
  lemma ChildLookup<V, F>(s: Scope<V, F>, name: string, arity: nat)
    ensures LookupVariable(Child(s), name) == LookupVariable(s, name)
    ensures LookupFunction(Child(s), name, arity) == LookupFunction(s, name, arity)
  {
  }

  /** Some scope of the chain binds the name. */
  ghost predicate BoundInChain<V, F>(s: Scope<V, F>, name: string)
    decreases s
  {
    name in s.variables || (s.parent.Some? && BoundInChain(s.parent.value, name))
  }

  ghost predicate FunctionInChain<V, F>(s: Scope<V, F>, name: string, arity: nat)
    decreases s
  {
    (name, arity) in s.functions || (s.parent.Some? && FunctionInChain(s.parent.value, name, arity))
  }
}
