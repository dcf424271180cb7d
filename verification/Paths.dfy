/** The parts of Go's path/filepath (on Unix) that the flag translation and the
    snapshots use: Clean, Dir and Join. */
module Paths {
  import opened Strings

  /** One path element on top of the elements kept so far. */
  function Push(rooted: bool, stack: seq<string>, seg: string): seq<string> {
    if seg == "" || seg == "." then stack
    else if seg == ".." then
      if stack != [] && stack[|stack| - 1] != ".." then stack[..|stack| - 1]
      else if rooted then stack
      else stack + [".."]
    else stack + [seg]
  }

  function Fold(rooted: bool, stack: seq<string>, segs: seq<string>): seq<string>
    decreases |segs|
  {
    if segs == [] then stack else Fold(rooted, Push(rooted, stack, segs[0]), segs[1..])
  }

  predicate Rooted(p: string) {
    p != "" && p[0] == '/'
  }

  function Render(rooted: bool, segs: seq<string>): string {
    if rooted then "/" + Join(segs, '/')
    else if segs == [] then "."
    else Join(segs, '/')
  }

  /** filepath.Clean. */
  function Clean(p: string): string {
    Render(Rooted(p), Fold(Rooted(p), [], Split(p, '/')))
  }

  /** The path up to and including its last slash. */
  function UpToLastSlash(p: string): string {
    if p == "" || p[|p| - 1] == '/' then p else UpToLastSlash(p[..|p| - 1])
  }

  /** filepath.Dir. */
  function Dir(p: string): string {
    Clean(UpToLastSlash(p))
  }

  /** filepath.Join of a non-empty path and one more element. */
  function JoinPath(dir: string, elem: string): string {
    if dir == "" then (if elem == "" then "" else Clean(elem))
    else if elem == "" then Clean(dir)
    else Clean(dir + "/" + elem)
  }

  /** strings.TrimSuffix(p, "/"). */
  function TrimSlash(p: string): string {
    if p != "" && p[|p| - 1] == '/' then p[..|p| - 1] else p
  }

  // ---------- Clean is idempotent ----------

  predicate PlainSegment(s: string) {
    s != "" && s != "." && '/' !in s
  }

  /** The shape of a cleaned path: ".." only in front, and never below the root. */
  ghost predicate Normal(rooted: bool, segs: seq<string>) {
    && (forall i :: 0 <= i < |segs| ==> PlainSegment(segs[i]))
    && (forall i :: 0 <= i < |segs| && segs[i] == ".." ==> !rooted)
    && (forall i, j :: 0 <= i < j < |segs| && segs[j] == ".." ==> segs[i] == "..")
  }

  lemma {:induction false} FoldNormal(rooted: bool, stack: seq<string>, segs: seq<string>)
    requires Normal(rooted, stack) && forall s :: s in segs ==> '/' !in s
    ensures Normal(rooted, Fold(rooted, stack, segs))
    decreases |segs|
  {
    if segs != [] {
      assert segs[0] in segs;
      assert Normal(rooted, Push(rooted, stack, segs[0]));
      FoldNormal(rooted, Push(rooted, stack, segs[0]), segs[1..]);
    }
  }

  lemma {:induction false} FoldAppend(rooted: bool, stack: seq<string>, a: seq<string>, b: seq<string>)
    ensures Fold(rooted, stack, a + b) == Fold(rooted, Fold(rooted, stack, a), b)
    decreases |a|
  {
    if a == [] {
      assert a + b == b;
    } else {
      assert (a + b)[1..] == a[1..] + b;
      FoldAppend(rooted, Push(rooted, stack, a[0]), a[1..], b);
    }
  }

  /** A normal list of elements is kept as it is. */
  lemma {:induction false} FoldKeepsNormal(rooted: bool, done: seq<string>, todo: seq<string>)
    requires Normal(rooted, done + todo)
    ensures Fold(rooted, done, todo) == done + todo
    decreases |todo|
  {
    if todo == [] {
      assert done + todo == done;
    } else {
      assert (done + todo)[|done|] == todo[0];
      assert PlainSegment(todo[0]);
      assert todo[0] == ".." && done != [] ==> (done + todo)[|done| - 1] == "..";
      assert Push(rooted, done, todo[0]) == done + [todo[0]];
      assert (done + [todo[0]]) + todo[1..] == done + todo;
      FoldKeepsNormal(rooted, done + [todo[0]], todo[1..]);
    }
  }

  lemma PlainFree(rooted: bool, segs: seq<string>)
    requires Normal(rooted, segs)
    ensures forall s :: s in segs ==> '/' !in s
  {
    forall s | s in segs ensures '/' !in s {
      var i :| 0 <= i < |segs| && segs[i] == s;
      assert PlainSegment(segs[i]);
    }
  }

  lemma JoinHead(segs: seq<string>, sep: char)
    requires segs != [] && segs[0] != ""
    ensures Join(segs, sep) != "" && Join(segs, sep)[0] == segs[0][0]
  {
  }

  /** A rendered normal path, alone or with one more plain element after it, is read back. */
  lemma RenderRead(rooted: bool, segs: seq<string>, elem: string)
    requires Normal(rooted, segs) && PlainSegment(elem) && elem != ".."
    ensures Clean(Render(rooted, segs)) == Render(rooted, segs)
    ensures Clean(Render(rooted, segs) + "/" + elem) == Render(rooted, segs + [elem])
  {
    var p := Render(rooted, segs);
    var q := p + "/" + elem;
    PlainFree(rooted, segs);
    if segs != [] { assert PlainSegment(segs[0]); JoinHead(segs, '/'); assert segs[0][0] in segs[0]; }
    assert Rooted(p) == rooted && Rooted(q) == rooted;
    var pieces := PiecesOf(rooted, segs);
    assert Split(p, '/') == pieces && Split(q, '/') == pieces + [elem] by {
      PiecesSplit(rooted, segs, elem);
    }
    assert Fold(rooted, [], pieces) == segs by {
      FoldKeepsNormal(rooted, [], segs);
      assert [] + segs == segs;
      if rooted {
        assert pieces == [""] + pieces[1..];
        if segs != [] { assert pieces[1..] == segs; }
      }
    }
    FoldAppend(rooted, [], pieces, [elem]);
    assert Fold(rooted, segs, [elem]) == segs + [elem];
  }

  /** What strings.Split makes of a rendered path. */
  function PiecesOf(rooted: bool, segs: seq<string>): seq<string> {
    if rooted then [""] + (if segs == [] then [""] else segs)
    else if segs == [] then ["."] else segs
  }

  lemma PiecesSplit(rooted: bool, segs: seq<string>, elem: string)
    requires (forall s :: s in segs ==> '/' !in s) && '/' !in elem
    ensures Split(Render(rooted, segs), '/') == PiecesOf(rooted, segs)
    ensures Split(Render(rooted, segs) + "/" + elem, '/') == PiecesOf(rooted, segs) + [elem]
  {
    var pieces := PiecesOf(rooted, segs);
    var p := Render(rooted, segs);
    assert p == Join(pieces, '/') by {
      if rooted && segs != [] {
        assert pieces[1..] == segs;
      }
    }
    SplitJoin(pieces, '/');
    JoinAppend(pieces, elem, '/');
    SplitJoin(pieces + [elem], '/');
  }

  lemma {:induction false} JoinAppend(parts: seq<string>, last: string, sep: char)
    requires parts != []
    ensures Join(parts + [last], sep) == Join(parts, sep) + [sep] + last
  {
    if |parts| > 1 {
      assert (parts + [last])[1..] == parts[1..] + [last];
      JoinAppend(parts[1..], last, sep);
    } else {
      assert (parts + [last])[1..] == [last];
    }
  }

  lemma CleanIdempotent(p: string)
    ensures Clean(Clean(p)) == Clean(p)
  {
    FoldNormal(Rooted(p), [], Split(p, '/'));
    RenderRead(Rooted(p), Fold(Rooted(p), [], Split(p, '/')), "x");
  }

  // ---------- taking the parent and joining the last element again ----------

  lemma {:induction false} UpToLastSlashSplit(p: string)
    ensures var segs := Split(p, '/');
            var front := segs[..|segs| - 1];
            UpToLastSlash(p) == (if front == [] then "" else Join(front, '/') + "/")
            && p == UpToLastSlash(p) + segs[|segs| - 1]
  {
    var segs := Split(p, '/');
    var front, last := segs[..|segs| - 1], segs[|segs| - 1];
    assert last in segs;
    JoinSplit(p, '/');
    assert front + [last] == segs;
    var u := if front == [] then "" else Join(front, '/') + "/";
    if front != [] { JoinAppend(front, last, '/'); }
    assert p == u + last;
    DropsPiece(u, last);
  }

  lemma {:induction false} DropsPiece(u: string, last: string)
    requires (u == "" || u[|u| - 1] == '/') && '/' !in last
    ensures UpToLastSlash(u + last) == u
  {
    if last == "" {
      assert u + last == u;
    } else {
      var p := u + last;
      assert p[..|p| - 1] == u + last[..|last| - 1];
      DropsPiece(u, last[..|last| - 1]);
    }
  }

  /** The last element of a path, as strings.Split sees it. */
  function LastSegment(p: string): string {
    var segs := Split(p, '/');
    segs[|segs| - 1]
  }

  /** The elements of a path above its last slash. */
  function ParentSegments(p: string): seq<string> {
    Fold(Rooted(UpToLastSlash(p)), [], Split(UpToLastSlash(p), '/'))
  }

  lemma ParentThenJoinValue(p: string, elem: string)
    requires PlainSegment(elem) && elem != ".."
    ensures var rooted, kept := Rooted(UpToLastSlash(p)), ParentSegments(p);
            Normal(rooted, kept) && JoinPath(Dir(p), elem) == Render(rooted, kept + [elem])
            && Clean(JoinPath(Dir(p), elem)) == JoinPath(Dir(p), elem)
            && LastSegment(JoinPath(Dir(p), elem)) == elem
  {
    var u := UpToLastSlash(p);
    var rooted, kept := Rooted(u), ParentSegments(p);
    FoldNormal(rooted, [], Split(u, '/'));
    RenderRead(rooted, kept, elem);
    if kept != [] { assert PlainSegment(kept[0]); JoinHead(kept, '/'); }
    CleanIdempotent(Dir(p) + "/" + elem);
    PlainFree(rooted, kept);
    PiecesSplit(rooted, kept + [elem], elem);
  }

  lemma CleanByParent(p: string)
    requires PlainSegment(LastSegment(p)) && LastSegment(p) != ".."
    ensures Clean(p) == Render(Rooted(UpToLastSlash(p)), ParentSegments(p) + [LastSegment(p)])
  {
    UpToLastSlashSplit(p);
    var segs, elem, u := Split(p, '/'), LastSegment(p), UpToLastSlash(p);
    var rooted, front := Rooted(p), segs[..|segs| - 1];
    assert front + [elem] == segs;
    FoldAppend(rooted, [], front, [elem]);
    var kept := Fold(rooted, [], front);
    assert Fold(rooted, kept, [elem]) == kept + [elem];
    if front == [] {
      assert p[0] in elem;
      assert u == "" && Split(u, '/') == [""];
      assert Push(false, [], "") == [] && Fold(false, [], [""]) == Fold(false, [], [""][1..]);
    } else {
      JoinAppend(front, "", '/');
      assert forall s :: s in front ==> s in segs;
      SplitJoin(front + [""], '/');
      assert u == Join(front + [""], '/');
      FoldAppend(rooted, [], front, [""]);
      assert Fold(rooted, kept, [""]) == kept == ParentSegments(p);
    }
  }

  /** Taking the parent directory and joining elem again gives p back exactly when p
      is a cleaned path whose last element is elem. */
  lemma ParentThenJoin(p: string, elem: string)
    requires PlainSegment(elem) && elem != ".."
    ensures JoinPath(Dir(TrimSlash(p)), elem) == p <==> Clean(p) == p && LastSegment(p) == elem
  {
    ParentThenJoinValue(TrimSlash(p), elem);
    if Clean(p) == p && LastSegment(p) == elem {
      NoTrailingSlash(p);
      CleanByParent(p);
    }
  }

  lemma NoTrailingSlash(p: string)
    requires LastSegment(p) != ""
    ensures TrimSlash(p) == p
  {
    hide Split, Join, UpToLastSlash;
    UpToLastSlashSplit(p);
    var segs := Split(p, '/');
    var last := segs[|segs| - 1];
    assert last in segs;
    assert p[|p| - 1] == last[|last| - 1];
    assert last[|last| - 1] in last;
  }
}
