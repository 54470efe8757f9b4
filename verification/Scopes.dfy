/** Write scopes: Project-relative paths, where "." stands for the whole Project. */
module Scopes {

  type Scope = string

  function Split(s: string, separator: char): (parts: seq<string>)
    ensures |parts| >= 1
  {
    if s == "" then [""]
    else
      var rest := Split(s[1..], separator);
      if s[0] == separator then [""] + rest
      else [[s[0]] + rest[0]] + rest[1..]
  }

  predicate SafeParts(s: string) {
    forall part :: part in Split(s, '/') ==> part != "" && part != "." && part != ".."
  }

  predicate SafeScope(s: Scope) {
    s == "." || (|s| <= 512 && !("/" <= s) && '\\' !in s && SafeParts(s))
  }

  /** A path inside the Project: any safe scope but the Project itself. */
  predicate SafePath(p: string) {
    SafeScope(p) && p != "."
  }

  predicate ContainsScope(parent: Scope, child: Scope) {
    parent == "." || parent == child || parent + "/" <= child
  }

  /** The plan's own overlap test. */
  predicate ScopesOverlap(left: Scope, right: Scope) {
    ContainsScope(left, right) || ContainsScope(right, left)
  }

  /** The plan builder's overlap test, spelt out on two lists of scopes. */
  predicate AnyOverlap(left: seq<Scope>, right: seq<Scope>) {
    exists i, j :: 0 <= i < |left| && 0 <= j < |right| &&
      var a, b := left[i], right[j];
      a == "." || b == "." || a == b || b + "/" <= a || a + "/" <= b
  }

  /** Both files test the same thing. */
  lemma OverlapTestsAgree(left: seq<Scope>, right: seq<Scope>)
    ensures AnyOverlap(left, right) <==> exists a, b :: a in left && b in right && ScopesOverlap(a, b)
  {
    if AnyOverlap(left, right) {
      var i, j :| 0 <= i < |left| && 0 <= j < |right| &&
        var a, b := left[i], right[j];
        a == "." || b == "." || a == b || b + "/" <= a || a + "/" <= b;
      assert left[i] in left && right[j] in right && ScopesOverlap(left[i], right[j]);
    }
    if exists a, b :: a in left && b in right && ScopesOverlap(a, b) {
      var a, b :| a in left && b in right && ScopesOverlap(a, b);
      var i :| 0 <= i < |left| && left[i] == a;
      var j :| 0 <= j < |right| && right[j] == b;
      assert AnyOverlap(left, right);
    }
  }

  lemma OnePartIsSafe()
    ensures SafePath("x")
  {
    var rest := Split("x"[1..], '/');
    assert rest == [""] && ['x'] + rest[0] == "x" && rest[1..] == [];
    assert Split("x", '/') == ["x"];
  }

  lemma PrefixOrder(a: string, b: string, p: string)
    requires a + "/" <= p && b + "/" <= p
    ensures a == b || a + "/" <= b || b + "/" <= a
  {
    if |a| == |b| {
      assert a == p[..|a|] && b == p[..|b|];
    } else if |a| < |b| {
      assert a + "/" == p[..|a| + 1] && b == p[..|b|];
    } else {
      assert b + "/" == p[..|b| + 1] && a == p[..|a|];
    }
  }

  /** The overlap test is exact: two safe scopes overlap when, and only when, some path lies in both. */
  lemma OverlapIsSharedPath(a: Scope, b: Scope)
    requires SafeScope(a) && SafeScope(b)
    ensures ScopesOverlap(a, b) <==> exists p :: SafePath(p) && ContainsScope(a, p) && ContainsScope(b, p)
  {
    if ScopesOverlap(a, b) {
      if a == "." && b == "." {
        OnePartIsSafe();
        assert SafePath("x") && ContainsScope(a, "x") && ContainsScope(b, "x");
      } else if ContainsScope(a, b) && b != "." {
        assert SafePath(b) && ContainsScope(a, b) && ContainsScope(b, b);
      } else {
        DotIsOnlyInDot(a, b);
        assert SafePath(a) && ContainsScope(a, a) && ContainsScope(b, a);
      }
    }
    if exists p :: SafePath(p) && ContainsScope(a, p) && ContainsScope(b, p) {
      var p :| SafePath(p) && ContainsScope(a, p) && ContainsScope(b, p);
      if a + "/" <= p && b + "/" <= p {
        PrefixOrder(a, b, p);
      }
    }
  }

  /** "." lies in no scope but "." itself. */
  lemma DotIsOnlyInDot(a: Scope, b: Scope)
    requires ScopesOverlap(a, b) && !(a == "." && b == ".")
    requires !(ContainsScope(a, b) && b != ".")
    ensures a != "." && ContainsScope(b, a)
  {
    assert !(a + "/" <= ".") by {
      assert (a + "/")[|a|] == '/';
    }
  }

}
