/**
  Qualified names and namespace scoping.

  A scope is the sequence of namespace declarations visible at some point of
  the document, outermost first: the declarations of every enclosing element,
  in document order.  The innermost declaration of a prefix wins.
 */
module XmlNames {
  import opened WsErrors

  /** A qualified name: prefix (empty for none), local name and namespace URI. */
  datatype QName = QName(prefix: string, local: string, ns: string)

  /** One namespace declaration `xmlns:prefix="ns"` (`xmlns="ns"` for the empty prefix). */
  datatype Binding = Binding(prefix: string, ns: string)

  /**
    The namespace `prefix` stands for in `scope`: the innermost declaration of
    it, else the empty namespace for the empty (default) prefix, else nothing.
   */
  function Resolve(scope: seq<Binding>, prefix: string): Option<string>
    decreases |scope|
  {
    if scope == [] then
      if prefix == [] then Some([]) else None
    else if scope[|scope| - 1].prefix == prefix then Some(scope[|scope| - 1].ns)
    else Resolve(scope[..|scope| - 1], prefix)
  }

  /** No two names of one start tag give the same prefix different namespaces. */
  predicate ConflictFree(names: seq<QName>) {
    forall i, j :: 0 <= i < |names| && 0 <= j < |names| && names[i].prefix == names[j].prefix ==>
      names[i].ns == names[j].ns
  }

  /**
    The declarations a start tag whose names are `names` (the element's name
    first, then its prefixed attributes) must carry inside `scope`: one for
    every name whose prefix does not already stand for its namespace, in the
    order the names come.
   */
  function Declarations(scope: seq<Binding>, names: seq<QName>): seq<Binding>
    decreases |names|
  {
    if names == [] then []
    else
      var earlier := Declarations(scope, names[..|names| - 1]);
      var n := names[|names| - 1];
      if Resolve(scope + earlier, n.prefix) == Some(n.ns) then earlier
      else earlier + [Binding(n.prefix, n.ns)]
  }

  /** A declaration added innermost decides its own prefix and leaves the others alone. */
  lemma ResolveAppend(scope: seq<Binding>, b: Binding, prefix: string)
    ensures Resolve(scope + [b], prefix) == if b.prefix == prefix then Some(b.ns) else Resolve(scope, prefix)
  {
    assert (scope + [b])[..|scope|] == scope;
  }

  /** Declarations of other prefixes do not change what `prefix` stands for. */
  lemma {:induction false} ResolveSkip(scope: seq<Binding>, ds: seq<Binding>, prefix: string)
    requires forall k :: 0 <= k < |ds| ==> ds[k].prefix != prefix
    ensures Resolve(scope + ds, prefix) == Resolve(scope, prefix)
    decreases |ds|
  {
    if ds != [] {
      var init := ds[..|ds| - 1];
      var last := ds[|ds| - 1];
      assert forall k :: 0 <= k < |init| ==> init[k] == ds[k];
      assert last.prefix != prefix;
      assert scope + ds == (scope + init) + [last];
      ResolveAppend(scope + init, last, prefix);
      ResolveSkip(scope, init, prefix);
    } else {
      assert scope + ds == scope;
    }
  }

  /** With its declarations in scope, every name of a tag stands for its own namespace. */
  lemma {:induction false} DeclarationsBindEveryName(scope: seq<Binding>, names: seq<QName>)
    requires ConflictFree(names)
    ensures forall i :: 0 <= i < |names| ==>
      Resolve(scope + Declarations(scope, names), names[i].prefix) == Some(names[i].ns)
    decreases |names|
  {
    if names != [] {
      var init := names[..|names| - 1];
      var n := names[|names| - 1];
      assert forall i :: 0 <= i < |init| ==> init[i] == names[i];
      DeclarationsBindEveryName(scope, init);
      var earlier := Declarations(scope, init);
      if Resolve(scope + earlier, n.prefix) != Some(n.ns) {
        var b := Binding(n.prefix, n.ns);
        assert scope + Declarations(scope, names) == (scope + earlier) + [b];
        forall i | 0 <= i < |names|
          ensures Resolve(scope + Declarations(scope, names), names[i].prefix) == Some(names[i].ns)
        {
          ResolveAppend(scope + earlier, b, names[i].prefix);
          if names[i].prefix != n.prefix {
            assert names[i] == init[i];
          }
        }
      }
    }
  }

  /** `b` declares the prefix and namespace of one of `names`. */
  predicate DeclaredFor(names: seq<QName>, b: Binding) {
    exists i :: 0 <= i < |names| && Binding(names[i].prefix, names[i].ns) == b
  }

  /** Every declaration of a tag is the prefix and namespace of one of its names. */
  lemma {:induction false} DeclarationsComeFromNames(scope: seq<Binding>, names: seq<QName>)
    ensures forall k :: 0 <= k < |Declarations(scope, names)| ==>
      DeclaredFor(names, Declarations(scope, names)[k])
    decreases |names|
  {
    if names != [] {
      var init := names[..|names| - 1];
      var n := names[|names| - 1];
      DeclarationsComeFromNames(scope, init);
      var earlier := Declarations(scope, init);
      forall k | 0 <= k < |earlier| ensures DeclaredFor(names, earlier[k]) {
        assert DeclaredFor(init, earlier[k]);
        var i :| 0 <= i < |init| && Binding(init[i].prefix, init[i].ns) == earlier[k];
        assert names[i] == init[i];
      }
      assert Binding(names[|names| - 1].prefix, names[|names| - 1].ns) == Binding(n.prefix, n.ns);
    }
  }

  /**
    When the last name of a tag needs a declaration, none of the declarations
    made for the earlier names is for its prefix.
   */
  lemma NoEarlierDeclaration(scope: seq<Binding>, init: seq<QName>, n: QName)
    requires ConflictFree(init + [n])
    requires Resolve(scope + Declarations(scope, init), n.prefix) != Some(n.ns)
    ensures forall k :: 0 <= k < |Declarations(scope, init)| ==> Declarations(scope, init)[k].prefix != n.prefix
  {
    var names := init + [n];
    var earlier := Declarations(scope, init);
    assert forall j :: 0 <= j < |init| ==> init[j] == names[j];
    forall k | 0 <= k < |earlier| ensures earlier[k].prefix != n.prefix {
      if earlier[k].prefix == n.prefix {
        DeclarationsComeFromNames(scope, init);
        assert DeclaredFor(init, earlier[k]);
        var i :| 0 <= i < |init| && Binding(init[i].prefix, init[i].ns) == earlier[k];
        assert names[i] == init[i] && names[|init|] == n;
        DeclarationsBindEveryName(scope, init);
        assert false;
      }
    }
  }

  /**
    A tag declares only what it needs: no declaration was already in force in
    the enclosing scope, and no prefix is declared twice.
   */
  lemma {:induction false} DeclarationsAreMinimal(scope: seq<Binding>, names: seq<QName>)
    requires ConflictFree(names)
    ensures forall k :: 0 <= k < |Declarations(scope, names)| ==>
      Resolve(scope, Declarations(scope, names)[k].prefix) != Some(Declarations(scope, names)[k].ns)
    ensures forall k, l :: 0 <= k < l < |Declarations(scope, names)| ==>
      Declarations(scope, names)[k].prefix != Declarations(scope, names)[l].prefix
    decreases |names|
  {
    if names != [] {
      var init := names[..|names| - 1];
      var n := names[|names| - 1];
      assert names == init + [n];
      ConflictFreePrefix(init, n);
      DeclarationsAreMinimal(scope, init);
      var earlier := Declarations(scope, init);
      if Resolve(scope + earlier, n.prefix) != Some(n.ns) {
        NoEarlierDeclaration(scope, init, n);
        ResolveSkip(scope, earlier, n.prefix);
        var b := Binding(n.prefix, n.ns);
        var ds := earlier + [b];
        assert Declarations(scope, names) == ds;
        forall k | 0 <= k < |ds| ensures Resolve(scope, ds[k].prefix) != Some(ds[k].ns) {
          if k < |earlier| { assert ds[k] == earlier[k]; }
        }
        forall k, l | 0 <= k < l < |ds| ensures ds[k].prefix != ds[l].prefix {
          assert ds[k] == earlier[k];
          if l < |earlier| { assert ds[l] == earlier[l]; }
        }
      }
    }
  }

  lemma ConflictFreePrefix(init: seq<QName>, n: QName)
    requires ConflictFree(init + [n])
    ensures ConflictFree(init)
  {
    assert forall i :: 0 <= i < |init| ==> init[i] == (init + [n])[i];
  }

  /** A tag whose names all already stand for their namespaces declares nothing. */
  lemma {:induction false} DeclarationsEmptyWhenBound(scope: seq<Binding>, names: seq<QName>)
    requires forall i :: 0 <= i < |names| ==> Resolve(scope, names[i].prefix) == Some(names[i].ns)
    ensures Declarations(scope, names) == []
    decreases |names|
  {
    if names != [] {
      var init := names[..|names| - 1];
      assert forall i :: 0 <= i < |init| ==> init[i] == names[i];
      DeclarationsEmptyWhenBound(scope, init);
      assert scope + [] == scope;
    }
  }
}
