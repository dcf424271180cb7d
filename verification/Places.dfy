/** Where a path leads: an independent reading of the path operations. A path is walked
    element by element from a directory, ".." going up, and never above the root. */
module Places {
  import opened Strings
  import opened Paths

  function Move(at: seq<string>, seg: string): seq<string> {
    if seg == "" || seg == "." then at
    else if seg == ".." then (if at == [] then [] else at[..|at| - 1])
    else at + [seg]
  }

  function Walk(at: seq<string>, segs: seq<string>): seq<string>
    decreases |segs|
  {
    if segs == [] then at else Walk(Move(at, segs[0]), segs[1..])
  }

  /** Where a path leads, seen from a directory. */
  function Locate(at: seq<string>, p: string): seq<string> {
    Walk(if p != "" && p[0] == '/' then [] else at, Split(p, '/'))
  }

  lemma {:induction false} WalkAppend(at: seq<string>, a: seq<string>, b: seq<string>)
    ensures Walk(at, a + b) == Walk(Walk(at, a), b)
    decreases |a|
  {
    if a == [] {
      assert a + b == b;
    } else {
      assert (a + b)[1..] == a[1..] + b;
      WalkAppend(Move(at, a[0]), a[1..], b);
    }
  }

  lemma WalkOne(at: seq<string>, seg: string)
    ensures Walk(at, [seg]) == Move(at, seg)
  {
    assert [seg][1..] == [];
  }

  /** Keeping one more element leads where moving on leads. */
  lemma PushMoves(at: seq<string>, rooted: bool, stack: seq<string>, seg: string)
    requires Normal(rooted, stack) && (rooted ==> at == [])
    ensures Walk(at, Push(rooted, stack, seg)) == Move(Walk(at, stack), seg)
  {
    WalkAppend(at, stack, [seg]);
    WalkOne(Walk(at, stack), seg);
    if seg == ".." && stack != [] && stack[|stack| - 1] != ".." {
      var m := |stack| - 1;
      assert stack == stack[..m] + [stack[m]] && PlainSegment(stack[m]);
      WalkAppend(at, stack[..m], [stack[m]]);
      WalkOne(Walk(at, stack[..m]), stack[m]);
    } else if seg == ".." && rooted {
      assert stack == [];
    }
  }

  lemma {:induction false} FoldWalks(at: seq<string>, rooted: bool, stack: seq<string>, segs: seq<string>)
    requires Normal(rooted, stack) && (rooted ==> at == []) && forall s :: s in segs ==> '/' !in s
    ensures Walk(at, Fold(rooted, stack, segs)) == Walk(Walk(at, stack), segs)
    decreases |segs|
  {
    if segs != [] {
      assert segs[0] in segs;
      PushMoves(at, rooted, stack, segs[0]);
      FoldNormal(rooted, stack, [segs[0]]);
      assert Fold(rooted, stack, [segs[0]]) == Fold(rooted, Push(rooted, stack, segs[0]), [segs[0]][1..]);
      FoldWalks(at, rooted, Push(rooted, stack, segs[0]), segs[1..]);
    }
  }

  lemma RenderWalks(at: seq<string>, rooted: bool, segs: seq<string>)
    requires Normal(rooted, segs)
    ensures Rooted(Render(rooted, segs)) == rooted && Render(rooted, segs) != ""
    ensures Locate(at, Render(rooted, segs)) == Walk(if rooted then [] else at, segs)
  {
    PlainFree(rooted, segs);
    PiecesSplit(rooted, segs, "x");
    if segs != [] { assert PlainSegment(segs[0]); JoinHead(segs, '/'); assert segs[0][0] in segs[0]; }
    var from := if rooted then [] else at;
    if rooted {
      WalkAppend(from, [""], if segs == [] then [""] else segs);
      WalkOne(from, "");
    } else if segs == [] {
      WalkOne(from, ".");
    }
  }

  /** Nothing can be left out of a path: it has no empty element, no ".", and ".." only in
      front, unless it is the root or the directory itself. */
  ghost predicate Cleaned(p: string) {
    p == "/" || p == "." || (p != "" && Normal(p[0] == '/', Split(if p[0] == '/' then p[1..] else p, '/')))
  }

  lemma RenderIsCleaned(rooted: bool, segs: seq<string>)
    requires Normal(rooted, segs)
    ensures Cleaned(Render(rooted, segs))
  {
    PlainFree(rooted, segs);
    if segs != [] {
      SplitJoin(segs, '/');
      RenderWalks([], rooted, segs);
      var p := Render(rooted, segs);
      assert rooted ==> p[1..] == Join(segs, '/');
    }
  }

  /** A cleaned path leads where the path leads, from everywhere, is rooted if the path is,
      and has no element that could be left out. */
  lemma CleanMeans(at: seq<string>, p: string)
    ensures Locate(at, Clean(p)) == Locate(at, p) && Rooted(Clean(p)) == Rooted(p) && Clean(p) != ""
    ensures Cleaned(Clean(p))
  {
    var rooted, pieces := Rooted(p), Split(p, '/');
    var from := if rooted then [] else at;
    FoldNormal(rooted, [], pieces);
    FoldWalks(from, rooted, [], pieces);
    RenderWalks(at, rooted, Fold(rooted, [], pieces));
    RenderIsCleaned(rooted, Fold(rooted, [], pieces));
  }

  lemma SplitBoth(a: string, b: string)
    ensures Split(a + "/" + b, '/') == Split(a, '/') + Split(b, '/')
  {
    JoinSplit(a, '/');
    JoinSplit(b, '/');
    var parts := Split(a, '/') + Split(b, '/');
    JoinBoth(Split(a, '/'), Split(b, '/'));
    SplitJoin(parts, '/');
  }

  lemma {:induction false} JoinBoth(a: seq<string>, b: seq<string>)
    requires a != [] && b != []
    ensures Join(a + b, '/') == Join(a, '/') + "/" + Join(b, '/')
    decreases |a|
  {
    assert (a + b)[1..] == a[1..] + b;
    if |a| == 1 {
      assert a[1..] + b == b;
    } else {
      JoinBoth(a[1..], b);
      assert Join(a + b, '/') == a[0] + "/" + (Join(a[1..], '/') + "/" + Join(b, '/'));
    }
  }

  /** Joining leads to the element as seen from the directory, by a cleaned path; an empty
      part changes nothing, and two empty parts give the empty path. */
  lemma JoinMeans(at: seq<string>, dir: string, elem: string)
    requires !Rooted(elem)
    ensures Locate(at, JoinPath(dir, elem)) == Locate(Locate(at, dir), elem)
    ensures if dir == "" && elem == "" then JoinPath(dir, elem) == "" else Cleaned(JoinPath(dir, elem))
    ensures Rooted(JoinPath(dir, elem)) == Rooted(dir)
  {
    WalkOne(at, "");
    if dir == "" || elem == "" {
      WalkOne(Locate(at, dir), "");
      CleanMeans(at, dir);
      CleanMeans(at, elem);
    } else {
      CleanMeans(at, dir + "/" + elem);
      SplitBoth(dir, elem);
      WalkAppend(if Rooted(dir) then [] else at, Split(dir, '/'), Split(elem, '/'));
    }
  }

  /** Without a slash at its end, if it has one. */
  lemma TrimMeans(p: string)
    ensures p == TrimSlash(p) + "/" || (p == TrimSlash(p) && (p != "" ==> p[|p| - 1] != '/'))
  {
  }

  /** The directory of a path leads to where its part up to the last slash leads. */
  lemma DirGoesUp(at: seq<string>, p: string, k: nat)
    requires k <= |p| && (k > 0 ==> p[k - 1] == '/') && '/' !in p[k..]
    ensures Locate(at, Dir(p)) == Locate(at, p[..k]) && Cleaned(Dir(p)) && Rooted(Dir(p)) == Rooted(p[..k])
  {
    UpIs(p, k);
    CleanMeans(at, p[..k]);
  }

  lemma {:induction false} UpIs(p: string, k: nat)
    requires k <= |p| && (k > 0 ==> p[k - 1] == '/') && '/' !in p[k..]
    ensures UpToLastSlash(p) == p[..k]
    decreases |p|
  {
    if p != "" && k < |p| {
      assert p[|p| - 1] == p[k..][|p| - 1 - k];
      assert p[..|p| - 1][k..] == p[k..][..|p| - 1 - k] && p[..|p| - 1][..k] == p[..k];
      UpIs(p[..|p| - 1], k);
    } else {
      assert p[..k] == p;
    }
  }
}
