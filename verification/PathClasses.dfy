/** What a path is, by its parts and its ending, as patterns on the path itself. */
module PathClasses {
  import opened Scopes

  predicate EndsWith(s: string, suffix: string) {
    |suffix| <= |s| && s[|s| - |suffix|..] == suffix
  }

  /** Lower-casing, as far as a category can depend on it: of all characters beyond ASCII only the Kelvin sign becomes
      a letter that stands in a pattern. (A dotted capital I becomes an i with a dot on top, which no pattern has.) */
  function Lower(s: string): (r: string)
    ensures |r| == |s|
    ensures forall i :: 0 <= i < |s| && 'A' <= s[i] <= 'Z' ==> r[i] as int == s[i] as int + 32
    ensures forall i :: 0 <= i < |s| && s[i] == '\U{212A}' ==> r[i] == 'k'
    ensures forall i :: 0 <= i < |s| && !('A' <= s[i] <= 'Z') && s[i] != '\U{212A}' ==> r[i] == s[i]
  {
    seq(|s|, i requires 0 <= i < |s| => LowerChar(s[i]))
  }

  function LowerChar(c: char): char {
    if 'A' <= c <= 'Z' then (c as int + 32) as char else if c == '\U{212A}' then 'k' else c
  }

  function LastPart(path: string): string {
    var parts := Split(path, '/');
    parts[|parts| - 1]
  }

  // Parts of a path, without splitting it.

  /** A part begins here. */
  predicate Begins(path: string, i: int) {
    0 <= i <= |path| && (i == 0 || path[i - 1] == '/')
  }

  /** The part stands here, between slashes or at either end of the path. */
  predicate PartAt(path: string, part: string, i: int) {
    && Begins(path, i) && i + |part| <= |path| && path[i..i + |part|] == part
    && (i + |part| == |path| || path[i + |part|] == '/')
  }

  ghost predicate HasPart(path: string, part: string) {
    exists i :: PartAt(path, part, i)
  }

  /** The file has this name. */
  predicate Named(path: string, name: string) {
    path == name || EndsWith(path, "/" + name)
  }

  lemma {:induction false} PartsOfSplit(s: string, part: string)
    requires '/' !in part
    ensures Split(s, '/')[0] == part <==> PartAt(s, part, 0)
    ensures part in Split(s, '/')[1..] <==> exists i :: i > 0 && PartAt(s, part, i)
  {
    if s != "" {
      var t := s[1..];
      PartsOfSplit(t, part);
      if part != "" {
        PartsOfSplit(t, part[1..]);
        assert part == [part[0]] + part[1..];
      }
      forall i | i > 0 && Begins(s, i)
        ensures PartAt(s, part, i) <==> PartAt(t, part, i - 1)
      {
        if i + |part| <= |s| {
          assert s[i..i + |part|] == t[i - 1..i - 1 + |part|];
        }
      }
      if s[0] == '/' {
        SplitAtSlash(s, part);
      } else {
        SplitInside(s, part);
      }
    }
  }

  lemma SplitAtSlash(s: string, part: string)
    requires s != "" && s[0] == '/' && '/' !in part
    requires forall i :: i > 0 && Begins(s, i) ==> (PartAt(s, part, i) <==> PartAt(s[1..], part, i - 1))
    requires Split(s[1..], '/')[0] == part <==> PartAt(s[1..], part, 0)
    requires part in Split(s[1..], '/')[1..] <==> exists i :: i > 0 && PartAt(s[1..], part, i)
    ensures Split(s, '/')[0] == part <==> PartAt(s, part, 0)
    ensures part in Split(s, '/')[1..] <==> exists i :: i > 0 && PartAt(s, part, i)
  {
    var rest := Split(s[1..], '/');
    assert Split(s, '/') == [""] + rest && Split(s, '/')[1..] == rest == [rest[0]] + rest[1..];
    FirstOfPart(s, part);
    if i :| i > 0 && PartAt(s, part, i) {
      assert PartAt(s[1..], part, i - 1);
    }
    if i :| i > 0 && PartAt(s[1..], part, i) {
      assert Begins(s, i + 1);
      assert PartAt(s, part, i + 1);
    }
    if PartAt(s[1..], part, 0) {
      assert Begins(s, 1);
      assert PartAt(s, part, 1);
    }
  }

  lemma FirstOfPart(s: string, part: string)
    ensures PartAt(s, part, 0) && part != "" ==> s != "" && s[0] in part
  {
    if PartAt(s, part, 0) && part != "" {
      assert s[0..|part|][0] == part[0];
    }
  }

  lemma SplitInside(s: string, part: string)
    requires s != "" && s[0] != '/' && '/' !in part
    requires forall i :: i > 0 && Begins(s, i) ==> (PartAt(s, part, i) <==> PartAt(s[1..], part, i - 1))
    requires part != "" ==> (Split(s[1..], '/')[0] == part[1..] <==> PartAt(s[1..], part[1..], 0))
    requires part in Split(s[1..], '/')[1..] <==> exists i :: i > 0 && PartAt(s[1..], part, i)
    ensures Split(s, '/')[0] == part <==> PartAt(s, part, 0)
    ensures part in Split(s, '/')[1..] <==> exists i :: i > 0 && PartAt(s, part, i)
  {
    var t, rest := s[1..], Split(s[1..], '/');
    assert Split(s, '/')[1..] == rest[1..] && Split(s, '/')[0] == [s[0]] + rest[0];
    if part != "" && |part| <= |s| {
      assert s[0..|part|] == [s[0]] + t[0..|part| - 1];
      assert part == [part[0]] + part[1..];
    }
    if i :| i > 0 && PartAt(s, part, i) {
      assert PartAt(t, part, i - 1);
    }
    if i :| i > 0 && PartAt(t, part, i) {
      assert Begins(s, i + 1);
      assert PartAt(s, part, i + 1);
    }
  }

  /** To have a part is to have it among the parts. */
  lemma HasPartIsSplit(s: string, part: string)
    requires '/' !in part
    ensures part in Split(s, '/') <==> HasPart(s, part)
  {
    PartsOfSplit(s, part);
    var parts := Split(s, '/');
    assert parts == [parts[0]] + parts[1..];
    if i :| PartAt(s, part, i) {
      assert i > 0 || i == 0;
    }
  }

  /** No part is empty, and none stays in place or leads upwards. */
  ghost predicate LeadsInside(path: string) {
    !HasPart(path, "") && !HasPart(path, ".") && !HasPart(path, "..")
  }

  /** A safe scope is the whole Project, or leads inside without a backslash. */
  lemma SafeScopeLeadsInside(s: string)
    ensures SafeScope(s) <==> s == "." || (|s| <= 512 && '\\' !in s && LeadsInside(s))
  {
    HasPartIsSplit(s, "");
    HasPartIsSplit(s, ".");
    HasPartIsSplit(s, "..");
    if "/" <= s {
      assert PartAt(s, "", 0);
    }
  }

  /** The last part is what follows the last slash. */
  lemma {:induction false} LastPartEnds(s: string)
    ensures var l := LastPart(s);
      |l| <= |s| && Begins(s, |s| - |l|) && s[|s| - |l|..] == l && '/' !in l
  {
    if s != "" {
      LastPartEnds(s[1..]);
      var rest := Split(s[1..], '/');
      if s[0] == '/' {
        assert Split(s, '/') == [""] + rest;
      } else if |rest| > 1 {
        assert Split(s, '/')[|rest| - 1] == rest[|rest| - 1];
        LaterPartNeedsSlash(s[1..]);
      } else {
        OnlyPart(s[1..]);
      }
    }
  }

  lemma {:induction false} OnlyPart(s: string)
    requires |Split(s, '/')| == 1
    ensures Split(s, '/') == [s]
  {
    if s != "" {
      OnlyPart(s[1..]);
      assert s == [s[0]] + s[1..];
    }
  }

  /** With more than one part, the last one does not begin at the start. */
  lemma {:induction false} LaterPartNeedsSlash(s: string)
    requires |Split(s, '/')| > 1
    ensures |LastPart(s)| < |s|
  {
    var rest := Split(s[1..], '/');
    if s[0] != '/' {
      assert |rest| > 1;
      LaterPartNeedsSlash(s[1..]);
    } else {
      LastPartFits(s[1..]);
    }
  }

  lemma {:induction false} LastPartFits(s: string)
    ensures |LastPart(s)| <= |s|
  {
    if s != "" {
      LastPartFits(s[1..]);
    }
  }

  /** Whatever follows a slash to the end without another one is the last part. */
  lemma LastPartUnique(s: string, i: nat)
    requires Begins(s, i) && '/' !in s[i..]
    ensures LastPart(s) == s[i..]
  {
    LastPartEnds(s);
    var j := |s| - |LastPart(s)|;
    SlashBetween(s, j, i);
    SlashBetween(s, i, j);
  }

  lemma SlashBetween(s: string, i: nat, j: nat)
    requires i <= |s| && Begins(s, j)
    ensures i < j ==> '/' in s[i..]
  {
    if i < j {
      assert s[i..][j - 1 - i] == '/';
    }
  }

  lemma NamedIsLastPart(s: string, name: string)
    requires '/' !in name
    ensures Named(s, name) <==> LastPart(s) == name
  {
    LastPartEnds(s);
    if Named(s, name) {
      var i := |s| - |name|;
      if s != name {
        assert s[i - 1..] == "/" + name;
        assert s[i - 1] == (s[i - 1..])[0];
        assert s[i..] == (s[i - 1..])[1..];
      } else {
        assert s[i..] == s;
      }
      LastPartUnique(s, i);
    }
    if LastPart(s) == name && s != name {
      var i := |s| - |name|;
      assert s[i - 1..] == [s[i - 1]] + s[i..];
    }
  }

  // The classes.

  /** CI, security and release. */
  ghost predicate Sensitive(path: string) {
    ".github/" <= path || ".gitlab/" <= path || HasPart(path, "security") || HasPart(path, "release")
  }

  /** A compiler configuration: the last part starts and ends like one. */
  ghost predicate CompilerConfiguration(path: string) {
    exists i :: Begins(path, i) && '/' !in path[i..] && "tsconfig" <= path[i..] && EndsWith(path[i + 8..], ".json")
  }

  ghost predicate Configures(path: string) {
    || Named(path, "package-lock.json") || Named(path, "pnpm-lock.yaml") || Named(path, "yarn.lock")
    || Named(path, "cargo.lock") || Named(path, "package.json") || Named(path, "dockerfile")
    || Named(path, "compose.yml") || Named(path, "compose.yaml") || CompilerConfiguration(path)
  }

  predicate TestEnding(path: string) {
    exists language ::
      && language in {"js", "jsx", "ts", "tsx", "cjs", "cjsx", "cts", "ctsx", "mjs", "mjsx", "mts", "mtsx"}
      && (EndsWith(path, ".test." + language) || EndsWith(path, ".spec." + language))
  }

  ghost predicate Tests(path: string) {
    || HasPart(path, "test") || HasPart(path, "tests") || HasPart(path, "spec") || HasPart(path, "specs")
    || TestEnding(path)
  }

  predicate Documents(path: string) {
    || EndsWith(path, ".md") || EndsWith(path, ".mdx") || EndsWith(path, ".txt") || EndsWith(path, ".adoc")
    || EndsWith(path, ".rst") || "docs/" <= path
  }

}
