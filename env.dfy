/**
 * Scopes (env.go).
 *
 * A scope holds a symbol table, which it updates in place, and a link to
 * its enclosing scope. Go's map is a reference type, so two scopes can
 * share one table: every root scope shares the global table of builtins.
 * Here the table is a `SymbolTable` object and a scope holds a reference
 * to it; the parent link and the table reference never change after
 * construction, so they are `const` fields.
 */
module Environment {
  import opened Values

  /** What a table maps a symbol to: one of the builtin functions, or any other value. */
  datatype Binding = Builtin(op: Primitive) | Data(value: Value)

  /** The outcome of `Find`: the binding, or the "unable to resolve symbol" error. */
  datatype Lookup = Found(binding: Binding) | UnableToResolve(symbol: string)

  /** A Go `map[Symbol]Expr`, updated in place. */
  class SymbolTable {
    var symbols: map<string, Binding>

    constructor (initial: map<string, Binding>)
      ensures symbols == initial
    {
      symbols := initial;
    }
  }

  class Env {
    const table: SymbolTable
    const parent: Env?
    /** The number of scopes above this one: the chain of parents is finite. */
    ghost const depth: nat
    /** The tables of this scope and of every enclosing scope; an enclosing scope never shares this scope's own table. */
    ghost const tables: set<SymbolTable>

    ghost predicate Valid()
      decreases depth
    {
      && tables == {table} + (if parent == null then {} else parent.tables)
      && (parent != null ==> parent.depth < depth && parent.Valid() && table !in parent.tables)
    }

    /** The binding `Find` reaches: the one in the nearest scope that has the symbol. */
    ghost function Resolve(s: string): Option<Binding>
      requires Valid()
      reads tables
      decreases depth
    {
      if s in table.symbols then Some(table.symbols[s])
      else if parent == null then None
      else parent.Resolve(s)
    }

    /** NewEnv (env.go:10-12): a root scope over the shared global table, not a copy of it. */
    constructor Root(globals: SymbolTable)
      ensures Valid()
      ensures table == globals && parent == null
      ensures forall s :: Resolve(s) == if s in globals.symbols then Some(globals.symbols[s]) else None
    {
      table := globals;
      parent := null;
      depth := 0;
      tables := {globals};
    }

    /** ChildEnv (env.go:14-16): a scope with a fresh empty table, enclosed by `p`. */
    constructor Child(p: Env)
      requires p.Valid()
      ensures Valid()
      ensures parent == p && fresh(table) && table.symbols == map[]
      ensures forall s :: Resolve(s) == p.Resolve(s)
    {
      table := new SymbolTable(map[]);
      parent := p;
      depth := p.depth + 1;
      tables := {table} + p.tables;
    }

    /** Define (env.go:18-20): insert or overwrite in this scope's own table only. */
    method Define(s: string, v: Binding)
      requires Valid()
      modifies table
      ensures table.symbols == old(table.symbols)[s := v]
      ensures Resolve(s) == Some(v)
      ensures forall t :: t != s ==> Resolve(t) == old(Resolve(t))
      ensures parent != null ==> forall t :: parent.Resolve(t) == old(parent.Resolve(t))
    {
      table.symbols := table.symbols[s := v];
    }

    /** Find (env.go:22-31): look in this scope, then walk outward. */
    method Find(s: string) returns (r: Lookup)
      requires Valid()
      ensures r == match Resolve(s) case Some(b) => Found(b) case None => UnableToResolve(s)
      decreases depth
    {
      if s in table.symbols {
        return Found(table.symbols[s]);
      }
      if parent == null {
        return UnableToResolve(s);
      }
      r := parent.Find(s);
    }
  }

  /** The scope `e` itself or one of its enclosing scopes. */
  ghost predicate InChain(e: Env, a: Env)
    requires e.Valid()
    decreases e.depth
  {
    a == e || (e.parent != null && InChain(e.parent, a))
  }

  /** A binding in a scope's own table hides every binding further out. */
  lemma NearestBindingWins(e: Env, s: string)
    requires e.Valid() && s in e.table.symbols
    ensures e.Resolve(s) == Some(e.table.symbols[s])
  {
  }

  /** Lookup fails exactly when no scope of the chain has the symbol in its table. */
  lemma {:induction false} UnresolvedIffAbsentEverywhere(e: Env, s: string)
    requires e.Valid()
    ensures e.Resolve(s) == None <==> forall a: Env :: InChain(e, a) ==> s !in a.table.symbols
    decreases e.depth
  {
    if e.parent != null {
      UnresolvedIffAbsentEverywhere(e.parent, s);
      assert InChain(e, e.parent);
    }
  }

  /** A successful lookup finds a binding stored in a scope of the chain. */
  lemma {:induction false} ResolvedFromChain(e: Env, s: string)
    requires e.Valid() && e.Resolve(s).Some?
    ensures exists a: Env :: InChain(e, a) && s in a.table.symbols && a.table.symbols[s] == e.Resolve(s).value
    decreases e.depth
  {
    if s in e.table.symbols {
      assert InChain(e, e);
    } else {
      ResolvedFromChain(e.parent, s);
      var a: Env :| InChain(e.parent, a) && s in a.table.symbols && a.table.symbols[s] == e.parent.Resolve(s).value;
      assert InChain(e, a);
    }
  }

  /** Root scopes over one table see the same bindings, whichever of them defined them. */
  lemma RootsShareBindings(a: Env, b: Env, s: string)
    requires a.Valid() && b.Valid()
    requires a.parent == null && b.parent == null && a.table == b.table
    ensures a.Resolve(s) == b.Resolve(s)
  {
  }

  /**
   * A definition through one root scope is visible through every other root
   * scope over the same table, since Define changes the shared table.
   */
  method DefineThroughRoot(a: Env, b: Env, s: string, v: Binding)
    requires a.Valid() && b.Valid()
    requires a.parent == null && b.parent == null && a.table == b.table
    modifies a.table
    ensures b.Resolve(s) == Some(v)
    ensures forall t :: t != s ==> b.Resolve(t) == old(b.Resolve(t))
  {
    a.Define(s, v);
  }

  /** A child's definition shadows its parent's and leaves the parent's lookups alone. */
  method DefineInChild(p: Env, s: string, v: Binding) returns (c: Env)
    requires p.Valid()
    ensures c.Valid() && c.parent == p && fresh(c.table)
    ensures c.Resolve(s) == Some(v)
    ensures forall t :: t != s ==> c.Resolve(t) == p.Resolve(t)
    ensures forall t :: p.Resolve(t) == old(p.Resolve(t))
  {
    c := new Env.Child(p);
    c.Define(s, v);
  }
}
