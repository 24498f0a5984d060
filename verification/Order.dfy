/** Lexicographic orders on sequences: the order of `PathBuf`, whose components
    are compared first to last and byte by byte.
 */
module Order {

  predicate CharLess(a: char, b: char) { a < b }

  predicate NameLess(a: string, b: string) { LexLess(a, b, CharLess) }

  predicate PathLess(a: seq<string>, b: seq<string>) { LexLess(a, b, NameLess) }

  predicate LexLess<T(==)>(a: seq<T>, b: seq<T>, less: (T, T) -> bool)
    decreases |a|
  {
    if b == [] then false
    else if a == [] then true
    else less(a[0], b[0]) || (a[0] == b[0] && LexLess(a[1..], b[1..], less))
  }

  /** The first place where they differ decides, and a prefix comes first. */
  lemma {:induction false} LexIff<T>(a: seq<T>, b: seq<T>, less: (T, T) -> bool)
    ensures LexLess(a, b, less) <==>
            exists k :: 0 <= k <= |a| && k < |b| && a[..k] == b[..k] && (k == |a| || less(a[k], b[k]))
    decreases |a|
  {
    if a != [] && b != [] {
      LexIff(a[1..], b[1..], less);
      if k :| 0 <= k <= |a[1..]| && k < |b[1..]| && a[1..][..k] == b[1..][..k] && (k == |a[1..]| || less(a[1..][k], b[1..][k])) {
        if a[0] == b[0] { assert a[..k + 1] == [a[0]] + a[1..][..k] == [b[0]] + b[1..][..k] == b[..k + 1]; }
      }
      if k :| 0 < k <= |a| && k < |b| && a[..k] == b[..k] && (k == |a| || less(a[k], b[k])) {
        assert a[0] == a[..k][0] == b[..k][0] == b[0];
        assert a[1..][..k - 1] == a[..k][1..] == b[..k][1..] == b[1..][..k - 1];
      }
    }
    if b != [] { assert a[..0] == b[..0]; }
  }

  /** Names in the order of their characters, and paths in the order of their names. */
  lemma OrderIs(a: string, b: string, p: seq<string>, q: seq<string>)
    ensures NameLess(a, b) <==>
            exists k :: 0 <= k <= |a| && k < |b| && a[..k] == b[..k] && (k == |a| || a[k] < b[k])
    ensures PathLess(p, q) <==>
            exists k :: 0 <= k <= |p| && k < |q| && p[..k] == q[..k] && (k == |p| || NameLess(p[k], q[k]))
  {
    LexIff(a, b, CharLess);
    LexIff(p, q, NameLess);
    hide LexLess;
  }

  ghost predicate StrictTotal<T(!new)>(less: (T, T) -> bool) {
    && (forall x :: !less(x, x))
    && (forall x, y :: x == y || less(x, y) || less(y, x))
    && (forall x, y, z :: less(x, y) && less(y, z) ==> less(x, z))
  }

  lemma {:induction false} LexIrreflexive<T(!new)>(a: seq<T>, less: (T, T) -> bool)
    requires StrictTotal(less)
    ensures !LexLess(a, a, less)
  {
    if a != [] { LexIrreflexive(a[1..], less); }
  }

  lemma {:induction false} LexTotal<T(!new)>(a: seq<T>, b: seq<T>, less: (T, T) -> bool)
    requires StrictTotal(less)
    ensures a == b || LexLess(a, b, less) || LexLess(b, a, less)
  {
    if a != [] && b != [] && a[0] == b[0] {
      LexTotal(a[1..], b[1..], less);
      if a[1..] == b[1..] {
        assert a == [a[0]] + a[1..] && b == [b[0]] + b[1..];
      }
    }
  }

  lemma {:induction false} LexTransitive<T(!new)>(a: seq<T>, b: seq<T>, c: seq<T>, less: (T, T) -> bool)
    requires StrictTotal(less)
    requires LexLess(a, b, less) && LexLess(b, c, less)
    ensures LexLess(a, c, less)
  {
    if a != [] && a[0] == b[0] == c[0] { LexTransitive(a[1..], b[1..], c[1..], less); }
  }

  lemma NamesStrictTotal()
    ensures StrictTotal(NameLess)
  {
    assert StrictTotal(CharLess);
    forall x: string ensures !NameLess(x, x) { LexIrreflexive(x, CharLess); }
    forall x: string, y: string ensures x == y || NameLess(x, y) || NameLess(y, x) { LexTotal(x, y, CharLess); }
    forall x: string, y: string, z: string | NameLess(x, y) && NameLess(y, z) ensures NameLess(x, z) {
      LexTransitive(x, y, z, CharLess);
    }
  }

  lemma PathsStrictTotal()
    ensures StrictTotal(PathLess)
  {
    NamesStrictTotal();
    forall x: seq<string> ensures !PathLess(x, x) { LexIrreflexive(x, NameLess); }
    forall x: seq<string>, y: seq<string> ensures x == y || PathLess(x, y) || PathLess(y, x) { LexTotal(x, y, NameLess); }
    forall x: seq<string>, y: seq<string>, z: seq<string> | PathLess(x, y) && PathLess(y, z) ensures PathLess(x, z) {
      LexTransitive(x, y, z, NameLess);
    }
  }

  /** A directory sorts before everything inside it. */
  lemma {:induction false} PrefixFirst(a: seq<string>, b: seq<string>)
    requires a < b
    ensures PathLess(a, b)
  {
    if a != [] { PrefixFirst(a[1..], b[1..]); }
  }
}
