/**
 * The scoped git configuration that the resolver reads and writes through
 * Util::Git.get_config / set_config. Util::Git is not part of this model: the
 * store is a map from (scope, key) to text, a read of an unset entry gives "",
 * and the inherited read is ASSUMED to search the branch scope, then the
 * repository-local scope, then the global scope, and to return the first
 * non-empty value it finds.
 */
module GitConfig {

  /** The :branch, :local and :global scopes; :branch stands for the
      configuration section of the branch that is checked out. */
  datatype Scope = Branch | Local | Global

  type Store = map<(Scope, string), string>

  /** get_config key, scope for a single scope: "" when unset. */
  function Get(store: Store, key: string, scope: Scope): string {
    if (scope, key) in store then store[(scope, key)] else ""
  }

  /** set_config key, value, scope: overwrites that one entry only. */
  function Set(store: Store, key: string, value: string, scope: Scope): Store {
    store[(scope, key) := value]
  }

  /** The assumed search order of an inherited read, most specific first. */
  const SearchOrder: seq<Scope> := [Branch, Local, Global]

  function FirstSet(store: Store, key: string, scopes: seq<Scope>): string {
    if scopes == [] then ""
    else if Get(store, key, scopes[0]) != "" then Get(store, key, scopes[0])
    else FirstSet(store, key, scopes[1..])
  }

  /** get_config key, :inherited (assumed, see the module comment). */
  function GetInherited(store: Store, key: string): string {
    FirstSet(store, key, SearchOrder)
  }

  /** An inherited read returns the value of the most specific scope that has
      a non-empty one, and "" exactly when no scope has one. */
  lemma InheritedPrecedence(store: Store, key: string)
    ensures Get(store, key, Branch) != "" ==> GetInherited(store, key) == Get(store, key, Branch)
    ensures Get(store, key, Branch) == "" && Get(store, key, Local) != "" ==>
      GetInherited(store, key) == Get(store, key, Local)
    ensures Get(store, key, Branch) == "" && Get(store, key, Local) == "" ==>
      GetInherited(store, key) == Get(store, key, Global)
    ensures GetInherited(store, key) == "" <==>
      Get(store, key, Branch) == "" && Get(store, key, Local) == "" && Get(store, key, Global) == ""
  {
    var b, l, g := Get(store, key, Branch), Get(store, key, Local), Get(store, key, Global);
    assert SearchOrder[1..] == [Local, Global] && [Local, Global][1..] == [Global] && [Global][1..] == [];
    assert FirstSet(store, key, [Global]) == g;
    assert FirstSet(store, key, [Local, Global]) == if l != "" then l else g;
    assert GetInherited(store, key) == if b != "" then b else FirstSet(store, key, [Local, Global]);
  }

  /** A write is read back exactly at its own scope, and no other (scope,
      key) entry changes. */
  lemma SetThenGet(store: Store, key: string, value: string, scope: Scope)
    ensures Get(Set(store, key, value, scope), key, scope) == value
    ensures forall s, k :: (s, k) != (scope, key) ==> Get(Set(store, key, value, scope), k, s) == Get(store, k, s)
  {
  }

  /** A repository-local write is not seen by a branch-only read, and is seen
      by an inherited read when the branch scope has no value. */
  lemma LocalWriteIsolation(store: Store, key: string, value: string)
    requires value != ""
    ensures Get(Set(store, key, value, Local), key, Branch) == Get(store, key, Branch)
    ensures Get(store, key, Branch) == "" ==> GetInherited(Set(store, key, value, Local), key) == value
  {
    InheritedPrecedence(Set(store, key, value, Local), key);
  }

  /** Writing a non-empty value where nothing was found makes the inherited
      read find that value, whichever scope it was written to. */
  lemma {:induction false} InheritedAfterSet(store: Store, key: string, value: string, scope: Scope)
    requires GetInherited(store, key) == "" && value != ""
    ensures GetInherited(Set(store, key, value, scope), key) == value
  {
    InheritedPrecedence(store, key);
    InheritedPrecedence(Set(store, key, value, scope), key);
  }
}
