/** POSIX path arithmetic as the tools use it: `os.path.join`, `os.path.normpath`,
    `os.path.abspath` and `str.startswith`, on paths written as strings. The two
    containment guards of the tools are built from these. */
module Paths {
  import opened Util

  /** `os.path.isabs`: the path starts with a slash. */
  predicate IsAbs(p: string)
  {
    |p| > 0 && p[0] == '/'
  }

  /** `s.startswith(prefix)`. */
  predicate StartsWith(s: string, prefix: string)
  {
    |prefix| <= |s| && s[..|prefix|] == prefix
  }

  /** `os.path.join(a, b)`: an absolute `b` discards `a`; otherwise one slash separates them
      unless `a` is empty or already ends with one. Nothing is normalised. */
  function Join(a: string, b: string): string
  {
    if IsAbs(b) then b
    else if a == "" || a[|a| - 1] == '/' then a + b
    else a + "/" + b
  }

  /** The number of leading slashes `normpath` keeps: POSIX leaves exactly two alone and
      folds one, or three and more, into one. */
  function LeadingSlashes(p: string): nat
  {
    if StartsWith(p, "//") && !StartsWith(p, "///") then 2
    else if StartsWith(p, "/") then 1
    else 0
  }

  /** A string of `n` slashes, for the `n` that `LeadingSlashes` returns. */
  function Slashes(n: nat): string
  {
    if n == 0 then "" else Slashes(n - 1) + "/"
  }

  /** One step of `normpath`'s scan over the components: drop empty and `.` components,
      let `..` remove the previous name, keep a `..` that cannot be removed on a relative path. */
  function Step(rooted: bool, acc: seq<string>, c: string): seq<string>
  {
    if c == "" || c == "." then acc
    else if c != ".." || (!rooted && acc == []) || (acc != [] && acc[|acc| - 1] == "..") then acc + [c]
    else if acc != [] then acc[..|acc| - 1]
    else acc
  }

  /** `normpath`'s scan over all components, left to right. */
  function Collapse(rooted: bool, acc: seq<string>, comps: seq<string>): seq<string>
    decreases |comps|
  {
    if comps == [] then acc else Collapse(rooted, Step(rooted, acc, comps[0]), comps[1..])
  }

  /** The components that survive normalisation. */
  function Components(p: string): seq<string>
  {
    Collapse(LeadingSlashes(p) > 0, [], SplitOn(p, '/'))
  }

  /** `os.path.normpath(p)`. */
  function Normpath(p: string): string
  {
    if p == "" then "."
    else
      var r := Slashes(LeadingSlashes(p)) + JoinWith("/", Components(p));
      if r == "" then "." else r
  }

  /** `os.path.abspath(p)` with the process's current directory `cwd`. */
  function Abspath(cwd: string, p: string): string
  {
    Normpath(if IsAbs(p) then p else Join(cwd, p))
  }

  /** A component a normalised absolute path can contain: a name, not `.` or `..`, no slash. */
  predicate IsName(s: string)
  {
    s != "" && s != "." && s != ".." && '/' !in s
  }

  predicate AllNames(segs: seq<string>)
  {
    forall i :: 0 <= i < |segs| ==> IsName(segs[i])
  }

  /** The absolute path whose components are `segs`. */
  function PathOf(segs: seq<string>): string
  {
    "/" + JoinWith("/", segs)
  }

  /** Containment by components, the notion the string-prefix guards approximate: the
      normalised `t` lies at `root` or below it. */
  predicate Within(root: string, t: string)
  {
    var rs, ts := Components(root), Components(t);
    |rs| <= |ts| && ts[..|rs|] == rs
  }

  // ---------------------------------------------------------------------------
  // The unnormalised guard: `join(root, p).startswith(root)`.

  /** The guard of the directory, read and write tools passes exactly when the argument is
      relative, or is absolute and itself starts with the root. So every relative argument
      passes, whatever `..` components it holds. */
  lemma JoinGuardIff(root: string, p: string)
    ensures StartsWith(Join(root, p), root) <==> !IsAbs(p) || StartsWith(p, root)
  {
    if !IsAbs(p) {
      var j := Join(root, p);
      if root == "" || root[|root| - 1] == '/' {
        assert j == root + p;
      } else {
        assert j == root + "/" + p;
      }
      assert j[..|root|] == root;
    }
  }

  // ---------------------------------------------------------------------------
  // Facts about splitting and normalising.

  /** A leading slash contributes one empty component to the split. */
  lemma SplitLeadingSlash(t: string)
    ensures SplitOn("/" + t, '/') == [""] + SplitOn(t, '/')
  {
    SplitAfterPiece("", t, '/');
    assert "" + ['/'] + t == "/" + t;
  }

  /** Splitting names joined with slashes, followed by a slash and more text. */
  lemma {:induction false} SplitJoined(xs: seq<string>, t: string)
    requires |xs| >= 1
    requires forall i :: 0 <= i < |xs| ==> '/' !in xs[i]
    ensures SplitOn(JoinWith("/", xs) + "/" + t, '/') == xs + SplitOn(t, '/')
    decreases |xs|
  {
    if |xs| == 1 {
      SplitAfterPiece(xs[0], t, '/');
    } else {
      var tail := xs[1..];
      assert forall i :: 0 <= i < |tail| ==> '/' !in tail[i] by {
        forall i | 0 <= i < |tail| ensures '/' !in tail[i] { assert tail[i] == xs[i + 1]; }
      }
      SplitJoined(tail, t);
      var rest := JoinWith("/", tail) + "/" + t;
      SlashRegroup(xs[0], JoinWith("/", tail), t);
      assert JoinWith("/", xs) == xs[0] + "/" + JoinWith("/", tail);
      SplitAfterPiece(xs[0], rest, '/');
      assert [xs[0]] + (tail + SplitOn(t, '/')) == xs + SplitOn(t, '/');
    }
  }

  lemma SlashRegroup(a: string, b: string, t: string)
    ensures a + "/" + b + "/" + t == a + ['/'] + (b + "/" + t)
  {
  }

  /** The scan over a concatenation is the scan over the second part started where the
      scan over the first part ended. */
  lemma {:induction false} CollapseAppend(rooted: bool, acc: seq<string>, a: seq<string>, b: seq<string>)
    ensures Collapse(rooted, acc, a + b) == Collapse(rooted, Collapse(rooted, acc, a), b)
    decreases |a|
  {
    if a == [] {
      assert a + b == b;
    } else {
      assert (a + b)[0] == a[0];
      assert (a + b)[1..] == a[1..] + b;
      CollapseAppend(rooted, Step(rooted, acc, a[0]), a[1..], b);
    }
  }

  /** Names pass through the scan unchanged. */
  lemma {:induction false} CollapseNames(rooted: bool, acc: seq<string>, xs: seq<string>)
    requires AllNames(xs)
    ensures Collapse(rooted, acc, xs) == acc + xs
    decreases |xs|
  {
    if xs != [] {
      CollapseNames(rooted, acc + [xs[0]], xs[1..]);
      assert acc + [xs[0]] + xs[1..] == acc + xs;
    }
  }

  /** On a rooted path the scan never produces anything but names: a `..` is only ever
      kept after another kept `..`, and there is none to begin with. */
  lemma {:induction false} CollapseRootedNames(acc: seq<string>, comps: seq<string>)
    requires AllNames(acc)
    requires forall i :: 0 <= i < |comps| ==> '/' !in comps[i]
    ensures AllNames(Collapse(true, acc, comps))
    decreases |comps|
  {
    if comps != [] {
      var next := Step(true, acc, comps[0]);
      assert AllNames(next) by {
        if acc != [] {
          assert acc[|acc| - 1] != "..";
          var front := acc[..|acc| - 1];
          assert AllNames(front) by {
            forall i | 0 <= i < |front| ensures IsName(front[i]) { assert front[i] == acc[i]; }
          }
        }
      }
      assert forall i :: 0 <= i < |comps[1..]| ==> '/' !in comps[1..][i] by {
        forall i | 0 <= i < |comps[1..]| ensures '/' !in comps[1..][i] { assert comps[1..][i] == comps[i + 1]; }
      }
      CollapseRootedNames(next, comps[1..]);
    }
  }

  /** A normalised absolute path is absolute again, and what follows its leading slashes
      is a list of names: no empty component, no `.`, no `..`. */
  lemma NormpathAbsolute(p: string)
    requires IsAbs(p)
    ensures LeadingSlashes(p) in {1, 2}
    ensures IsAbs(Normpath(p))
    ensures AllNames(Components(p))
    ensures Normpath(p) == Slashes(LeadingSlashes(p)) + JoinWith("/", Components(p))
  {
    assert StartsWith(p, "/");
    CollapseRootedNames([], SplitOn(p, '/'));
    var k := LeadingSlashes(p);
    assert Slashes(k)[0] == '/' by {
      assert Slashes(1) == "/";
      assert Slashes(2) == "//";
    }
  }

  /** The first character of names joined with slashes is the first character of the first name. */
  lemma JoinFirstChar(xs: seq<string>)
    requires |xs| >= 1 && AllNames(xs)
    ensures |JoinWith("/", xs)| >= 1 && JoinWith("/", xs)[0] == xs[0][0]
    ensures JoinWith("/", xs)[0] != '/'
  {
    assert IsName(xs[0]);
    assert xs[0][0] in xs[0];
  }

  /** An empty component is skipped by the scan. */
  lemma CollapseSkipEmpty(rooted: bool, acc: seq<string>, xs: seq<string>)
    ensures Collapse(rooted, acc, [""] + xs) == Collapse(rooted, acc, xs)
  {
    assert ([""] + xs)[0] == "";
    assert ([""] + xs)[1..] == xs;
  }

  /** A path of one leading slash normalises to the absolute path of its surviving components. */
  lemma NormpathRooted(t: string)
    requires LeadingSlashes(t) == 1
    ensures Normpath(t) == PathOf(Components(t))
  {
    assert Slashes(1) == "/";
  }

  /** The path built from a list of names is already normal, and its components are the names. */
  lemma ComponentsOfPath(segs: seq<string>)
    requires AllNames(segs)
    ensures LeadingSlashes(PathOf(segs)) == 1
    ensures Components(PathOf(segs)) == segs
    ensures Normpath(PathOf(segs)) == PathOf(segs)
  {
    var j := JoinWith("/", segs);
    var t := PathOf(segs);
    SplitLeadingSlash(j);
    if segs == [] {
      assert t == "/";
      assert SplitOn(j, '/') == [""];
      CollapseSkipEmpty(true, [], [""]);
      CollapseSkipEmpty(true, [], []);
    } else {
      JoinFirstChar(segs);
      assert t[1] == j[0];
      JoinSplit(segs, '/');
      CollapseSkipEmpty(true, [], segs);
      CollapseNames(true, [], segs);
    }
    NormpathRooted(t);
  }

  /** Normalising twice changes nothing more: `normpath(normpath(p)) == normpath(p)` for an
      absolute `p`. */
  lemma NormpathIdempotent(p: string)
    requires IsAbs(p)
    ensures Normpath(Normpath(p)) == Normpath(p)
  {
    NormpathAbsolute(p);
    var k, segs := LeadingSlashes(p), Components(p);
    var j := JoinWith("/", segs);
    var n := Normpath(p);
    assert Slashes(1) == "/" && Slashes(2) == "//";
    if k == 1 {
      assert n == PathOf(segs);
      ComponentsOfPath(segs);
    } else {
      assert n == "//" + j;
      // Two leading slashes are kept: what follows them does not start with a third.
      if segs == [] {
        assert n == "//";
      } else {
        JoinFirstChar(segs);
        assert n[2] == j[0];
      }
      assert LeadingSlashes(n) == 2;
      assert n == "/" + ("/" + j);
      SplitLeadingSlash("/" + j);
      SplitLeadingSlash(j);
      assert SplitOn(n, '/') == [""] + ([""] + SplitOn(j, '/'));
      CollapseSkipEmpty(true, [], [""] + SplitOn(j, '/'));
      CollapseSkipEmpty(true, [], SplitOn(j, '/'));
      if segs == [] {
        assert SplitOn(j, '/') == [""];
        CollapseSkipEmpty(true, [], []);
      } else {
        JoinSplit(segs, '/');
        CollapseNames(true, [], segs);
      }
      assert Components(n) == segs;
    }
  }

  // ---------------------------------------------------------------------------
  // The normalised guard: `abspath(join(root, p)).startswith(root)`.

  /** The last character of names joined with slashes is the last character of the last name. */
  lemma {:induction false} JoinLastChar(xs: seq<string>)
    requires |xs| >= 1 && AllNames(xs)
    ensures |JoinWith("/", xs)| >= 1
    ensures JoinWith("/", xs)[|JoinWith("/", xs)| - 1] == xs[|xs| - 1][|xs[|xs| - 1]| - 1]
    decreases |xs|
  {
    assert IsName(xs[|xs| - 1]);
    if |xs| > 1 {
      assert AllNames(xs[1..]) by {
        forall i | 0 <= i < |xs[1..]| ensures IsName(xs[1..][i]) { assert xs[1..][i] == xs[i + 1]; }
      }
      JoinLastChar(xs[1..]);
    }
  }

  /** The components kept from a list with no `..`: everything but empty and `.` components. */
  function KeepNamed(comps: seq<string>): seq<string>
  {
    if comps == [] then []
    else (if comps[0] == "" || comps[0] == "." then [] else [comps[0]]) + KeepNamed(comps[1..])
  }

  /** Without `..` the scan only drops empty and `.` components. */
  lemma {:induction false} CollapseNoParent(rooted: bool, acc: seq<string>, comps: seq<string>)
    requires forall i :: 0 <= i < |comps| ==> comps[i] != ".."
    ensures Collapse(rooted, acc, comps) == acc + KeepNamed(comps)
    decreases |comps|
  {
    if comps != [] {
      assert forall i :: 0 <= i < |comps[1..]| ==> comps[1..][i] != ".." by {
        forall i | 0 <= i < |comps[1..]| ensures comps[1..][i] != ".." { assert comps[1..][i] == comps[i + 1]; }
      }
      CollapseNoParent(rooted, Step(rooted, acc, comps[0]), comps[1..]);
      var head := if comps[0] == "" || comps[0] == "." then [] else [comps[0]];
      assert Step(rooted, acc, comps[0]) == acc + head;
      assert acc + head + KeepNamed(comps[1..]) == acc + (head + KeepNamed(comps[1..]));
    }
  }

  /** Joining a relative part onto the path of a list of names puts one slash between them;
      the split gives an empty component, the names, and the pieces of the relative part. */
  lemma SplitRootAndRelative(rs: seq<string>, p: string)
    requires |rs| >= 1 && AllNames(rs)
    requires !IsAbs(p)
    ensures Join(PathOf(rs), p) == PathOf(rs) + "/" + p
    ensures SplitOn(Join(PathOf(rs), p), '/') == [""] + (rs + SplitOn(p, '/'))
    ensures LeadingSlashes(Join(PathOf(rs), p)) == 1
  {
    JoinOntoNames(rs, p);
    SplitOntoNames(rs, p);
    SlashesOntoNames(rs, p);
  }

  lemma JoinOntoNames(rs: seq<string>, p: string)
    requires |rs| >= 1 && AllNames(rs)
    requires !IsAbs(p)
    ensures Join(PathOf(rs), p) == PathOf(rs) + "/" + p
  {
    var root, j := PathOf(rs), JoinWith("/", rs);
    JoinLastChar(rs);
    assert root[|root| - 1] == j[|j| - 1];
  }

  lemma SplitOntoNames(rs: seq<string>, p: string)
    requires |rs| >= 1 && AllNames(rs)
    ensures SplitOn(PathOf(rs) + "/" + p, '/') == [""] + (rs + SplitOn(p, '/'))
  {
    var j := JoinWith("/", rs);
    NamesHaveNoSlash(rs);
    assert PathOf(rs) + "/" + p == "/" + (j + "/" + p);
    SplitLeadingSlash(j + "/" + p);
    SplitJoined(rs, p);
  }

  lemma SlashesOntoNames(rs: seq<string>, p: string)
    requires |rs| >= 1 && AllNames(rs)
    ensures LeadingSlashes(PathOf(rs) + "/" + p) == 1
  {
    var j := JoinWith("/", rs);
    JoinFirstChar(rs);
    var whole := PathOf(rs) + "/" + p;
    assert whole[0] == '/' && whole[1] == j[0];
  }

  /** Starting the scan with an empty component and a list of names leaves the names in place. */
  lemma CollapseAfterRoot(rs: seq<string>, pieces: seq<string>)
    requires AllNames(rs)
    ensures Collapse(true, [], [""] + (rs + pieces)) == Collapse(true, rs, pieces)
  {
    CollapseSkipEmpty(true, [], rs + pieces);
    CollapseAppend(true, [], rs, pieces);
    CollapseNames(true, [], rs);
    var none: seq<string> := [];
    assert none + rs == rs;
  }

  /** The surviving components of a relative part joined onto the path of a list of names:
      the scan over the relative part's pieces, started from the names. */
  lemma ComponentsOfJoin(rs: seq<string>, p: string)
    requires |rs| >= 1 && AllNames(rs)
    requires !IsAbs(p)
    ensures LeadingSlashes(Join(PathOf(rs), p)) == 1
    ensures Components(Join(PathOf(rs), p)) == Collapse(true, rs, SplitOn(p, '/'))
  {
    SplitRootAndRelative(rs, p);
    var t := Join(PathOf(rs), p);
    var pieces := SplitOn(p, '/');
    assert Components(t) == Collapse(true, [], [""] + (rs + pieces));
    CollapseAfterRoot(rs, pieces);
  }

  /** No false rejections: a relative argument without `..` components resolves to a path at
      or below the root, and the normalised guard accepts it. */
  lemma DescendantAccepted(rs: seq<string>, p: string)
    requires |rs| >= 1 && AllNames(rs)
    requires !IsAbs(p)
    requires forall i :: 0 <= i < |SplitOn(p, '/')| ==> SplitOn(p, '/')[i] != ".."
    ensures StartsWith(Normpath(Join(PathOf(rs), p)), PathOf(rs))
  {
    var t := Join(PathOf(rs), p);
    var pieces := SplitOn(p, '/');
    ComponentsOfJoin(rs, p);
    CollapseNoParent(true, rs, pieces);
    NormpathRooted(t);
    PathOfExtends(rs, KeepNamed(pieces));
  }

  /** The path of a list of names starts with the path of any non-empty prefix of it. */
  lemma PathOfExtends(rs: seq<string>, more: seq<string>)
    requires |rs| >= 1
    ensures StartsWith(PathOf(rs + more), PathOf(rs))
  {
    if more != [] {
      JoinWithAppend("/", rs, more);
      var j := JoinWith("/", rs);
      assert PathOf(rs + more) == PathOf(rs) + ("/" + JoinWith("/", more));
    } else {
      assert rs + more == rs;
    }
  }

  /** `../` followed by names splits into `..` and the names. */
  lemma SplitParentNames(names: seq<string>)
    requires |names| >= 1 && AllNames(names)
    ensures SplitOn("../" + JoinWith("/", names), '/') == [".."] + names
  {
    var j := JoinWith("/", names);
    NamesHaveNoSlash(names);
    JoinSplit(names, '/');
    SplitAfterPiece("..", j, '/');
    ParentPrefix(j);
  }

  lemma NamesHaveNoSlash(names: seq<string>)
    requires AllNames(names)
    ensures forall i :: 0 <= i < |names| ==> '/' !in names[i]
  {
    forall i | 0 <= i < |names| ensures '/' !in names[i] { assert IsName(names[i]); }
  }

  lemma ParentPrefix(j: string)
    ensures "../" + j == ".." + ['/'] + j
  {
  }

  /** After a list of names, `..` removes the last one and later names are appended. */
  lemma CollapseParentThenNames(rs: seq<string>, names: seq<string>)
    requires |rs| >= 1 && AllNames(rs) && AllNames(names)
    ensures Collapse(true, rs, [".."] + names) == rs[..|rs| - 1] + names
  {
    assert IsName(rs[|rs| - 1]);
    assert ([".."] + names)[0] == ".." && ([".."] + names)[1..] == names;
    assert Step(true, rs, "..") == rs[..|rs| - 1];
    CollapseNames(true, rs[..|rs| - 1], names);
  }

  /** Two lists of names whose paths are compared by components. */
  lemma WithinPaths(rs: seq<string>, ts: seq<string>)
    requires AllNames(rs) && AllNames(ts)
    ensures Within(PathOf(rs), PathOf(ts)) <==> |rs| <= |ts| && ts[..|rs|] == rs
  {
    ComponentsOfPath(rs);
    ComponentsOfPath(ts);
  }

  /** Where `../` followed by names, joined onto the path of `rs`, resolves to. */
  lemma ParentTraversalResolves(rs: seq<string>, names: seq<string>)
    requires |rs| >= 1 && AllNames(rs)
    requires |names| >= 1 && AllNames(names)
    ensures Normpath(Join(PathOf(rs), "../" + JoinWith("/", names))) == PathOf(rs[..|rs| - 1] + names)
    ensures AllNames(rs[..|rs| - 1] + names)
  {
    var p := "../" + JoinWith("/", names);
    SplitParentNames(names);
    assert p[0] == '.';
    ParentPieceResolves(rs, names, p);
    NamesAfterParent(rs, names);
  }

  /** A relative part that splits into `..` and names, joined onto the path of `rs`. */
  lemma ParentPieceResolves(rs: seq<string>, names: seq<string>, p: string)
    requires |rs| >= 1 && AllNames(rs) && AllNames(names)
    requires !IsAbs(p) && SplitOn(p, '/') == [".."] + names
    ensures Normpath(Join(PathOf(rs), p)) == PathOf(rs[..|rs| - 1] + names)
  {
    var t := Join(PathOf(rs), p);
    ComponentsOfJoin(rs, p);
    CollapseParentThenNames(rs, names);
    NormpathRooted(t);
  }

  /** The parent of `rs` followed by names is a list of names. */
  lemma NamesAfterParent(rs: seq<string>, names: seq<string>)
    requires |rs| >= 1 && AllNames(rs) && AllNames(names)
    ensures AllNames(rs[..|rs| - 1] + names)
  {
    var e := rs[..|rs| - 1] + names;
    forall i | 0 <= i < |e| ensures IsName(e[i]) {
      if i < |rs| - 1 { assert e[i] == rs[i]; } else { assert e[i] == names[i - (|rs| - 1)]; }
    }
  }

  /** Replacing the last name of `rs` by a different one leaves the components of `rs`. */
  lemma SiblingNotWithin(rs: seq<string>, names: seq<string>)
    requires |rs| >= 1 && AllNames(rs)
    requires |names| >= 1 && AllNames(names) && names[0] != rs[|rs| - 1]
    ensures !Within(PathOf(rs), PathOf(rs[..|rs| - 1] + names))
  {
    NamesAfterParent(rs, names);
    var e := rs[..|rs| - 1] + names;
    WithinPaths(rs, e);
    assert e[..|rs|][|rs| - 1] == names[0];
  }

  /** The escape the unnormalised guard lets through: `../` followed by names, joined onto a
      root, passes that guard and resolves beside the root, outside it. */
  lemma ParentTraversalEscapes(rs: seq<string>, names: seq<string>)
    requires |rs| >= 1 && AllNames(rs)
    requires |names| >= 1 && AllNames(names) && names[0] != rs[|rs| - 1]
    ensures StartsWith(Join(PathOf(rs), "../" + JoinWith("/", names)), PathOf(rs))
    ensures Normpath(Join(PathOf(rs), "../" + JoinWith("/", names))) == PathOf(rs[..|rs| - 1] + names)
    ensures !Within(PathOf(rs), PathOf(rs[..|rs| - 1] + names))
  {
    JoinGuardIff(PathOf(rs), "../" + JoinWith("/", names));
    ParentTraversalResolves(rs, names);
    SiblingNotWithin(rs, names);
  }

  /** `../bxx/t.py` joined onto `/a/b` resolves to `/a/bxx/t.py`. */
  lemma SiblingResolves()
    ensures Normpath(Join("/a/b", "../bxx/t.py")) == "/a/bxx/t.py"
  {
    var rs, names := ["a", "b"], ["bxx", "t.py"];
    assert AllNames(rs) && AllNames(names);
    assert PathOf(rs) == "/a/b";
    assert "../" + JoinWith("/", names) == "../bxx/t.py";
    assert rs[..1] + names == ["a", "bxx", "t.py"];
    assert PathOf(["a", "bxx", "t.py"]) == "/a/bxx/t.py";
    ParentTraversalResolves(rs, names);
  }

  /** `/a/bxx/t.py` does not lie below `/a/b`. */
  lemma SiblingOutside()
    ensures !Within("/a/b", "/a/bxx/t.py")
  {
    var rs, names := ["a", "b"], ["bxx", "t.py"];
    assert AllNames(rs) && AllNames(names);
    assert PathOf(rs) == "/a/b";
    assert rs[..1] + names == ["a", "bxx", "t.py"];
    assert PathOf(["a", "bxx", "t.py"]) == "/a/bxx/t.py";
    SiblingNotWithin(rs, names);
  }

  /** The normalised guard is a raw string prefix: with root `/a/b` it accepts
      `../bxx/t.py`, which resolves into the sibling directory `/a/bxx`. */
  lemma SiblingPrefixAccepted()
    ensures Normpath(Join("/a/b", "../bxx/t.py")) == "/a/bxx/t.py"
    ensures StartsWith("/a/bxx/t.py", "/a/b")
    ensures !Within("/a/b", "/a/bxx/t.py")
  {
    SiblingResolves();
    SiblingOutside();
  }

  // ---------------------------------------------------------------------------
  // What the normalised guard lets through.

  /** The components `cs` of a path name a sibling of the root `rs` whose last name strictly
      extends the root's: the same earlier components, then a longer name beginning with the
      root's last one. */
  predicate SiblingExtension(rs: seq<string>, cs: seq<string>)
  {
    |rs| >= 1 && |rs| <= |cs| && cs[..|rs| - 1] == rs[..|rs| - 1] &&
    StartsWith(cs[|rs| - 1], rs[|rs| - 1]) && cs[|rs| - 1] != rs[|rs| - 1]
  }

  /** The normalised guard with a root made of names: a relative argument is accepted exactly
      when its target lies within the root by components, or in a sibling directory whose
      name extends the root's last name. Nothing else gets through. */
  lemma NormalisedGuardIff(rs: seq<string>, p: string)
    requires |rs| >= 1 && AllNames(rs)
    requires !IsAbs(p)
    ensures var t := Normpath(Join(PathOf(rs), p));
      StartsWith(t, PathOf(rs)) <==> Within(PathOf(rs), t) || SiblingExtension(rs, Components(t))
  {
    var j := Join(PathOf(rs), p);
    ComponentsOfJoin(rs, p);
    JoinOntoNames(rs, p);
    assert IsAbs(j);
    NormpathAbsolute(j);
    var cs := Components(j);
    NormpathRooted(j);
    ComponentsOfPath(cs);
    WithinPaths(rs, cs);
    PrefixByNames(rs, cs);
  }

  /** The path of `cs` starts with the path of `rs` exactly when `cs` extends `rs`, or differs
      from it only by a longer last name. */
  lemma PrefixByNames(rs: seq<string>, cs: seq<string>)
    requires |rs| >= 1 && AllNames(rs) && AllNames(cs)
    ensures StartsWith(PathOf(cs), PathOf(rs)) <==>
      (|rs| <= |cs| && cs[..|rs|] == rs) || SiblingExtension(rs, cs)
  {
    var k := |rs|;
    SlashPrefix(JoinWith("/", cs), JoinWith("/", rs));
    JoinPrefixByNames(rs, cs);
    if |rs| <= |cs| && cs[..k - 1] == rs[..k - 1] {
      assert cs[..k] == cs[..k - 1] + [cs[k - 1]];
      assert rs == rs[..k - 1] + [rs[k - 1]];
      if cs[k - 1] == rs[k - 1] {
        assert StartsWith(cs[k - 1], rs[k - 1]);
      }
    }
    if |rs| <= |cs| && cs[..k] == rs {
      assert cs[..k - 1] == rs[..k - 1] && cs[k - 1] == rs[k - 1];
    }
  }

  lemma SlashPrefix(a: string, b: string)
    ensures StartsWith("/" + a, "/" + b) <==> StartsWith(a, b)
  {
    if |b| <= |a| {
      var u := a[..|b|];
      assert ("/" + a)[..|b| + 1] == "/" + u;
      assert ("/" + u)[1..] == u && ("/" + b)[1..] == b;
    }
  }

  /** Names joined by slashes: the join of `cs` starts with the join of `rs` exactly when
      all but the last of `rs` match and the last is a prefix of the corresponding name. */
  lemma {:induction false} JoinPrefixByNames(rs: seq<string>, cs: seq<string>)
    requires |rs| >= 1 && AllNames(rs) && AllNames(cs)
    ensures StartsWith(JoinWith("/", cs), JoinWith("/", rs)) <==>
      |rs| <= |cs| && cs[..|rs| - 1] == rs[..|rs| - 1] && StartsWith(cs[|rs| - 1], rs[|rs| - 1])
    decreases |rs|
  {
    var jr, jc := JoinWith("/", rs), JoinWith("/", cs);
    assert IsName(rs[0]);
    JoinFirstChar(rs);
    if cs == [] {
      assert jc == "";
    } else {
      assert IsName(cs[0]);
      if |rs| == 1 {
        assert jr == rs[0];
        if |cs| >= 2 {
          assert jc == cs[0] + "/" + JoinWith("/", cs[1..]);
          NamePrefixOfSlashed(cs[0], rs[0], JoinWith("/", cs[1..]));
        }
      } else {
        var rs', cs' := rs[1..], cs[1..];
        assert jr == rs[0] + "/" + JoinWith("/", rs');
        assert AllNames(rs') by {
          forall i | 0 <= i < |rs'| ensures IsName(rs'[i]) { assert rs'[i] == rs[i + 1]; }
        }
        if |cs| == 1 {
          assert jc == cs[0];
          SlashedNotPrefixOfName(cs[0], rs[0], JoinWith("/", rs'));
        } else {
          assert jc == cs[0] + "/" + JoinWith("/", cs');
          assert AllNames(cs') by {
            forall i | 0 <= i < |cs'| ensures IsName(cs'[i]) { assert cs'[i] == cs[i + 1]; }
          }
          NameSlashPrefix(cs[0], rs[0], JoinWith("/", cs'), JoinWith("/", rs'));
          JoinPrefixByNames(rs', cs');
          var k := |rs|;
          if |rs| <= |cs| {
            assert cs[..k - 1] == [cs[0]] + cs'[..k - 2];
            assert rs[..k - 1] == [rs[0]] + rs'[..k - 2];
            assert cs[k - 1] == cs'[k - 2] && rs[k - 1] == rs'[k - 2];
            if cs[..k - 1] == rs[..k - 1] {
              assert cs[0] == cs[..k - 1][0] == rs[..k - 1][0] == rs[0];
              assert cs'[..k - 2] == cs[..k - 1][1..] == rs[..k - 1][1..] == rs'[..k - 2];
            }
          }
        }
      }
    }
  }

  /** Two slash-terminated leading names: the first string starts with the second exactly
      when the names are equal and the rests are prefixes. */
  lemma NameSlashPrefix(a: string, b: string, s: string, t: string)
    requires '/' !in a && '/' !in b
    ensures StartsWith(a + "/" + s, b + "/" + t) <==> a == b && StartsWith(s, t)
  {
    var x, y := a + "/" + s, b + "/" + t;
    if |a| < |b| {
      assert b[|a|] in b;
      if |y| <= |x| { assert x[..|y|][|a|] == '/' != y[|a|]; }
    } else if |a| > |b| {
      assert a[|b|] in a;
      if |y| <= |x| { assert x[..|y|][|b|] != '/' == y[|b|]; }
    } else if |t| <= |s| {
      var u := s[..|t|];
      assert x[..|y|] == a + "/" + u;
      assert (a + "/" + u)[..|a|] == a && y[..|b|] == b;
      assert (a + "/" + u)[|a| + 1..] == u && y[|b| + 1..] == t;
    }
  }

  /** A name `b` without a slash is a prefix of `a/s` exactly when it is a prefix of `a`. */
  lemma NamePrefixOfSlashed(a: string, b: string, s: string)
    requires '/' !in b
    ensures StartsWith(a + "/" + s, b) <==> StartsWith(a, b)
  {
    var x := a + "/" + s;
    if |b| <= |a| {
      assert x[..|b|] == a[..|b|];
    } else {
      assert b[|a|] in b;
      if |b| <= |x| { assert x[..|b|][|a|] == '/' != b[|a|]; }
    }
  }

  /** A string without a slash does not start with one that has a slash. */
  lemma SlashedNotPrefixOfName(a: string, b: string, t: string)
    requires '/' !in a
    ensures !StartsWith(a, b + "/" + t)
  {
    var y := b + "/" + t;
    if |y| <= |a| {
      assert a[|b|] in a;
      assert a[..|y|][|b|] != '/' == y[|b|];
    }
  }
}
