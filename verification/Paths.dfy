/** Scopes over the node tree: a subtree as a range of strings, and scopes intersected. */
module Paths {
  import opened Basics

  // ---------- strings in the "C" collation ----------

  /** Lexicographic order by code point. */
  predicate Less(a: string, b: string) {
    if b == "" then false
    else if a == "" then true
    else a[0] < b[0] || (a[0] == b[0] && Less(a[1..], b[1..]))
  }

  predicate StartsWith(s: string, prefix: string) { prefix <= s }

  /** All the strings that extend `p` by '.' lie between `p.` and `p/`, and only they do. */
  lemma {:induction false} RangeIsExtensions(p: string, s: string)
    ensures !Less(s, p + ".") && Less(s, p + "/") <==> StartsWith(s, p + ".")
  {
    if p == "" {
      if s == "" || s[0] != '.' {
      } else {
        assert !Less(s[1..], "");
      }
    } else {
      assert (p + ".")[1..] == p[1..] + "." && (p + "/")[1..] == p[1..] + "/";
      if s != "" && s[0] == p[0] {
        RangeIsExtensions(p[1..], s[1..]);
        assert StartsWith(s, p + ".") <==> StartsWith(s[1..], p[1..] + ".") by {
          assert s == [s[0]] + s[1..] && p + "." == [p[0]] + (p[1..] + ".");
        }
      }
    }
  }

  // ---------- subtrees ----------

  /** `path` is the node `p` or below it. */
  predicate Under(p: string, path: string) {
    path == p || StartsWith(path, p + ".")
  }

  function DescendantRange(p: string): (string, string) { (p + ".", p + "/") }

  /** A subtree is one contiguous range of strings, plus its root. */
  lemma SubtreeIsRange(p: string, path: string)
    ensures var (lo, hi) := DescendantRange(p);
      path == p || (!Less(path, lo) && Less(path, hi)) <==> Under(p, path)
  {
    RangeIsExtensions(p, path);
  }

  /** The predicate handed to the query provider. */
  datatype Expr =
    | False
    | Equal(value: string)
    | AtLeast(lo: string)
    | Below(hi: string)
    | And(left: Expr, right: Expr)
    | Or(left: Expr, right: Expr)

  predicate Eval(e: Expr, path: string) {
    match e
    case False => false
    case Equal(value) => path == value
    case AtLeast(lo) => !Less(path, lo)
    case Below(hi) => Less(path, hi)
    case And(left, right) => Eval(left, path) && Eval(right, path)
    case Or(left, right) => Eval(left, path) || Eval(right, path)
  }

  predicate UnderSome(paths: seq<string>, path: string) {
    exists i | 0 <= i < |paths| :: Under(paths[i], path)
  }

  lemma TermFacts(p: string, term: Expr, path: string)
    requires term == Or(Equal(p), And(AtLeast(p + "."), Below(p + "/")))
    ensures Eval(term, path) <==> Under(p, path)
  {
    SubtreeIsRange(p, path);
    assert Eval(term.right, path) <==> Eval(term.right.left, path) && Eval(term.right.right, path);
  }

  lemma UnderOneMore(paths: seq<string>, i: nat, path: string)
    requires i < |paths|
    ensures UnderSome(paths[..i + 1], path) <==> UnderSome(paths[..i], path) || Under(paths[i], path)
  {
    var more := paths[..i + 1];
    if UnderSome(paths[..i], path) {
      var k :| 0 <= k < i && Under(paths[..i][k], path);
      assert more[k] == paths[..i][k];
    }
    assert more[i] == paths[i];
  }

  /** The assembled predicate selects exactly the nodes under one of the paths. */
  method UnderAny(paths: seq<string>) returns (e: Expr)
    ensures forall path :: Eval(e, path) <==> UnderSome(paths, path)
  {
    var any: Option<Expr> := None;
    for i := 0 to |paths|
      invariant any.Some? <==> i > 0
      invariant any.Some? ==> forall path :: Eval(any.value, path) <==> UnderSome(paths[..i], path)
    {
      var (lo, hi) := DescendantRange(paths[i]);
      var term := Or(Equal(paths[i]), And(AtLeast(lo), Below(hi)));
      forall path ensures Eval(term, path) <==> Under(paths[i], path) {
        TermFacts(paths[i], term, path);
      }
      forall path ensures UnderSome(paths[..i + 1], path) <==> UnderSome(paths[..i], path) || Under(paths[i], path) {
        UnderOneMore(paths, i, path);
      }
      any := Some(if any.None? then term else Or(any.value, term));
    }
    assert paths[..|paths|] == paths;
    e := if any.None? then False else any.value;
  }

  /** One OR-ed term of the raw query: equality, or the half-open range. */
  datatype SqlTerm = SqlTerm(self: string, lo: string, hi: string)

  predicate Holds(term: SqlTerm, path: string) {
    path == term.self || (!Less(path, term.lo) && Less(path, term.hi))
  }

  /** The raw query's terms select the same nodes; no terms stand for `false`. */
  method Sql(paths: seq<string>) returns (terms: seq<SqlTerm>)
    ensures forall path :: (exists i | 0 <= i < |terms| :: Holds(terms[i], path)) <==> UnderSome(paths, path)
  {
    terms := [];
    for i := 0 to |paths|
      invariant |terms| == i
      invariant forall k, path | 0 <= k < i :: Holds(terms[k], path) <==> Under(paths[k], path)
    {
      var (lo, hi) := DescendantRange(paths[i]);
      forall path ensures Holds(SqlTerm(paths[i], lo, hi), path) <==> Under(paths[i], path) {
        SubtreeIsRange(paths[i], path);
      }
      terms := terms + [SqlTerm(paths[i], lo, hi)];
    }
  }

  // ---------- scopes ----------

  datatype NodeScope = Nothing | EntireOrg(org: int) | Subtrees(org: int, paths: seq<string>)

  predicate Covers(scope: NodeScope, path: string) {
    match scope
    case Nothing => false
    case EntireOrg(_) => true
    case Subtrees(_, paths) => UnderSome(paths, path)
  }

  predicate SameOrg(a: NodeScope, b: NodeScope) {
    a.Nothing? || b.Nothing? || a.org == b.org
  }

  function CoveredBy(s: seq<string>, a: NodeScope, b: NodeScope): seq<string> {
    if s == [] then []
    else (if Covers(a, s[0]) && Covers(b, s[0]) then [s[0]] else []) + CoveredBy(s[1..], a, b)
  }

  function Intersect(left: NodeScope, right: NodeScope): NodeScope {
    if left.Nothing? || right.Nothing? then Nothing
    else if left.EntireOrg? then right
    else if right.EntireOrg? then left
    else if left.org != right.org then Nothing
    else Subtrees(left.org, CoveredBy(Distinct(left.paths + right.paths), left, right))
  }

  lemma {:induction false} CoveredByFacts(s: seq<string>, a: NodeScope, b: NodeScope)
    ensures forall p :: p in CoveredBy(s, a, b) <==> p in s && Covers(a, p) && Covers(b, p)
  {
    if s != [] {
      CoveredByFacts(s[1..], a, b);
      assert s == [s[0]] + s[1..];
    }
  }

  lemma UnderTransitive(p: string, q: string, path: string)
    requires Under(p, q) && Under(q, path)
    ensures Under(p, path)
  {
  }

  /** Two ancestors of one node are ancestors of each other. */
  lemma AncestorsCompare(p: string, q: string, path: string)
    requires Under(p, path) && Under(q, path)
    ensures Under(p, q) || Under(q, p)
  {
    if |p| < |q| {
      assert (p + ".")[|p|] == '.';
      assert p + "." <= q;
    } else if |q| < |p| {
      assert q + "." <= p;
    } else {
      assert p == path[..|p|] && q == path[..|q|];
    }
  }

  lemma CoversDown(scope: NodeScope, p: string, path: string)
    requires Covers(scope, p) && Under(p, path)
    ensures Covers(scope, path)
  {
    if scope.Subtrees? {
      var i :| 0 <= i < |scope.paths| && Under(scope.paths[i], p);
      UnderTransitive(scope.paths[i], p, path);
    }
  }

  lemma SubtreesMeet(a: NodeScope, b: NodeScope, path: string)
    requires a.Subtrees? && b.Subtrees? && a.org == b.org
    ensures Covers(Intersect(a, b), path) <==> Covers(a, path) && Covers(b, path)
  {
    var both := a.paths + b.paths;
    DistinctKeeps(both);
    CoveredByFacts(Distinct(both), a, b);
    var kept := Intersect(a, b).paths;
    if Covers(Intersect(a, b), path) {
      var i :| 0 <= i < |kept| && Under(kept[i], path);
      assert kept[i] in kept;
      CoversDown(a, kept[i], path);
      CoversDown(b, kept[i], path);
    }
    if Covers(a, path) && Covers(b, path) {
      var i :| 0 <= i < |a.paths| && Under(a.paths[i], path);
      var j :| 0 <= j < |b.paths| && Under(b.paths[j], path);
      AncestorsCompare(a.paths[i], b.paths[j], path);
      var deeper := if Under(a.paths[i], b.paths[j]) then b.paths[j] else a.paths[i];
      assert Covers(a, deeper) && Covers(b, deeper);
      assert deeper in both;
      assert deeper in kept;
      var k :| 0 <= k < |kept| && kept[k] == deeper;
      assert Under(kept[k], path);
    }
  }

  /** Within one organization, the intersection covers what both scopes cover. */
  lemma IntersectIsMeet(a: NodeScope, b: NodeScope, path: string)
    requires SameOrg(a, b)
    ensures Covers(Intersect(a, b), path) <==> Covers(a, path) && Covers(b, path)
  {
    if a.Subtrees? && b.Subtrees? { SubtreesMeet(a, b, path); }
  }

  /** A scope selects a node of its own organization only. */
  predicate Sees(scope: NodeScope, org: int, path: string) {
    !scope.Nothing? && scope.org == org && Covers(scope, path)
  }

  /** A scope that selects something. */
  predicate Inhabited(scope: NodeScope) { scope.EntireOrg? || (scope.Subtrees? && scope.paths != []) }

  ghost predicate Meets(a: NodeScope, b: NodeScope) {
    forall org, path :: Sees(Intersect(a, b), org, path) <==> Sees(a, org, path) && Sees(b, org, path)
  }

  /** A scope over a whole organization lets all of another organization's scope pass. */
  predicate LetsPass(a: NodeScope, b: NodeScope) { a.EntireOrg? && Inhabited(b) && b.org != a.org }

  lemma InhabitedSees(b: NodeScope)
    requires Inhabited(b)
    ensures exists path :: Sees(b, b.org, path)
  {
    var path := if b.Subtrees? then b.paths[0] else "";
    if b.Subtrees? { assert Under(b.paths[0], path); }
    assert Sees(b, b.org, path);
  }

  /**
   * Over several organizations the intersection is the meet exactly unless one scope is a
   * whole organization and the other selects something in another one.
   */
  lemma IntersectIsMeetExactly(a: NodeScope, b: NodeScope)
    ensures (forall org, path :: Sees(Intersect(a, b), org, path) <==> Sees(a, org, path) && Sees(b, org, path))
       <==> !LetsPass(a, b) && !LetsPass(b, a)
  {
    if LetsPass(a, b) || LetsPass(b, a) {
      var other := Intersect(a, b);
      InhabitedSees(other);
      var path :| Sees(other, other.org, path);
      assert !(Sees(a, other.org, path) && Sees(b, other.org, path));
      assert !Meets(a, b);
    } else {
      forall org, path ensures Sees(Intersect(a, b), org, path) <==> Sees(a, org, path) && Sees(b, org, path) {
        MeetsAt(a, b, org, path);
      }
    }
  }

  lemma MeetsAt(a: NodeScope, b: NodeScope, org: int, path: string)
    requires !LetsPass(a, b) && !LetsPass(b, a)
    ensures Sees(Intersect(a, b), org, path) <==> Sees(a, org, path) && Sees(b, org, path)
  {
    if SameOrg(a, b) { IntersectIsMeet(a, b, path); }
  }

  /** Intersection never crosses organizations, so it stays within one. */
  lemma IntersectKeepsOrg(a: NodeScope, b: NodeScope, c: NodeScope)
    requires SameOrg(a, b) && SameOrg(a, c) && SameOrg(b, c)
    ensures SameOrg(Intersect(a, b), c)
  {
  }

  /** Up to coverage, intersection commutes, associates and is idempotent. */
  lemma IntersectLaws(a: NodeScope, b: NodeScope, c: NodeScope, path: string)
    requires SameOrg(a, b) && SameOrg(a, c) && SameOrg(b, c)
    ensures Covers(Intersect(a, b), path) <==> Covers(Intersect(b, a), path)
    ensures Covers(Intersect(Intersect(a, b), c), path) <==> Covers(Intersect(a, Intersect(b, c)), path)
    ensures Covers(Intersect(a, a), path) <==> Covers(a, path)
  {
    hide Covers, Intersect;
    IntersectIsMeet(a, b, path);
    IntersectIsMeet(b, a, path);
    IntersectIsMeet(b, c, path);
    IntersectIsMeet(a, a, path);
    IntersectKeepsOrg(a, b, c);
    IntersectKeepsOrg(b, c, a);
    IntersectIsMeet(Intersect(a, b), c, path);
    IntersectIsMeet(a, Intersect(b, c), path);
  }
}
