/**
 * The breadcrumb trail: a fixed link to "/" followed by one entry per path segment. Entry `i`
 * points at "/" followed by segments 0..i joined with "/", and only the last entry is shown as
 * the current page instead of a link.
 */
module Breadcrumb {
  import opened Js

  /** One rendered entry. `path` is both its React key and, unless it is the current page, its link target. */
  datatype Crumb = Crumb(text: string, path: string, isCurrent: bool)

  const HomeCrumb := Crumb("Home", "/", false)

  /** `/${path.slice(0, index + 1).join('/')}` */
  function PathTo(path: seq<string>, i: nat): string
    requires i < |path|
  {
    "/" + Join(path[..i + 1], "/")
  }

  /** `path.map((segment, index) => ...)` */
  function Segments(path: seq<string>): (r: seq<Crumb>)
    ensures |r| == |path|
    ensures forall i :: 0 <= i < |path| ==> r[i].text == path[i] && r[i].path == PathTo(path, i)
  {
    seq(|path|, i requires 0 <= i < |path| => Crumb(path[i], PathTo(path, i), i == |path| - 1))
  }

  /** The whole trail: the Home link, then the segments. */
  function Trail(path: seq<string>): (r: seq<Crumb>)
    ensures |r| == |path| + 1 && r[0] == HomeCrumb && r[1..] == Segments(path)
  {
    [HomeCrumb] + Segments(path)
  }

  /** Each entry's path is the previous one's followed by "/" and its own segment. */
  lemma PathToNext(path: seq<string>, i: nat)
    requires i + 1 < |path|
    ensures PathTo(path, i + 1) == PathTo(path, i) + "/" + path[i + 1]
  {
    assert path[..i + 2][..i + 1] == path[..i + 1];
  }

  predicate IsProperPrefix(a: string, b: string) {
    |a| < |b| && b[..|a|] == a
  }

  /** An earlier entry's path is a proper prefix of every later one's. */
  lemma {:induction false} PathsGrow(path: seq<string>, i: nat, j: nat)
    requires i < j < |path|
    ensures IsProperPrefix(PathTo(path, i), PathTo(path, j))
    decreases j - i
  {
    PathToNext(path, j - 1);
    if i < j - 1 {
      PathsGrow(path, i, j - 1);
      var a, b := PathTo(path, i), PathTo(path, j - 1);
      assert (b + "/" + path[j])[..|a|] == b[..|a|];
    }
  }

  /** So the keys are distinct, even when segments repeat. */
  lemma KeysDistinct(path: seq<string>, i: nat, j: nat)
    requires i < |path| && j < |path| && i != j
    ensures Segments(path)[i].path != Segments(path)[j].path
  {
    if i < j { PathsGrow(path, i, j); } else { PathsGrow(path, j, i); }
  }

  /** Exactly the last entry is the current page; the Home link and every earlier entry are links. */
  lemma OnlyLastIsCurrent(path: seq<string>)
    ensures !Trail(path)[0].isCurrent
    ensures forall i :: 0 <= i < |path| ==> (Segments(path)[i].isCurrent <==> i == |path| - 1)
    ensures |path| > 0 ==> |set i | 0 <= i < |Trail(path)| && Trail(path)[i].isCurrent| == 1
    ensures |path| == 0 ==> forall c :: c in Trail(path) ==> !c.isCurrent
  {
    var t := Trail(path);
    var segs := Segments(path);
    assert forall i :: 1 <= i < |t| ==> t[i] == segs[i - 1];
    if |path| > 0 {
      var current := set i | 0 <= i < |t| && t[i].isCurrent;
      assert current <= {|path|} by {
        forall i | i in current ensures i == |path| {
          assert i != 0 && t[i] == segs[i - 1];
        }
      }
      assert |path| in current by {
        assert t[|path|] == segs[|path| - 1];
      }
      assert current == {|path|};
    }
  }

  /** The admin page's trail, `["Admin"]`: Home, then "Admin" at "/Admin" as the current page. */
  lemma AdminTrail()
    ensures Trail(["Admin"]) == [HomeCrumb, Crumb("Admin", "/Admin", true)]
  {
    var path := ["Admin"];
    assert path[..1] == path;
    assert PathTo(path, 0) == "/Admin";
  }
}
