/**
 * The home page's client-side row filter: a row is kept when its name contains the title
 * (ignoring case) and its platform is one of the selected ones; an empty title or an empty
 * selection keeps every row for that test.
 */
module Home {
  import opened Js

  datatype Project = Project(id: string, name: string, interaction: string, platform: string)

  /** `title === "" || name.toLowerCase().includes(title.toLowerCase())` */
  predicate MatchesTitle(p: Project, title: string) {
    title == "" || Includes(Lower(p.name), Lower(title))
  }

  /** `status.length === 0 || status.includes(platform)` */
  predicate MatchesStatus(p: Project, status: seq<string>) {
    |status| == 0 || p.platform in status
  }

  predicate Keep(p: Project, title: string, status: seq<string>) {
    MatchesTitle(p, title) && MatchesStatus(p, status)
  }

  /** `a` is `b` with some elements left out, order kept. */
  ghost predicate IsSubsequence<T>(a: seq<T>, b: seq<T>)
    decreases |b|
  {
    a == [] || (b != [] && ((a[0] == b[0] && IsSubsequence(a[1..], b[1..])) || IsSubsequence(a, b[1..])))
  }

  /** How many times `x` occurs in `s`. */
  function Occurrences(s: seq<Project>, x: Project): nat {
    if s == [] then 0 else (if s[0] == x then 1 else 0) + Occurrences(s[1..], x)
  }

  /** Every kept row occurs in `r` as often as in `data`, and no other row occurs in `r`. */
  ghost predicate KeptCounts(r: seq<Project>, data: seq<Project>, title: string, status: seq<string>) {
    forall x :: Occurrences(r, x) == if Keep(x, title, status) then Occurrences(data, x) else 0
  }

  /** `data.filter(...)`: the kept rows, in their original order, and no others. */
  function FilteredData(data: seq<Project>, title: string, status: seq<string>): (r: seq<Project>)
    ensures IsSubsequence(r, data)
    ensures forall i :: 0 <= i < |r| ==> Keep(r[i], title, status)
    ensures forall i :: 0 <= i < |data| && Keep(data[i], title, status) ==> data[i] in r
    ensures KeptCounts(r, data, title, status)
  {
    if data == [] then []
    else
      var rest := FilteredData(data[1..], title, status);
      assert forall i :: 1 <= i < |data| ==> data[i] == data[1..][i - 1];
      assert ([data[0]] + rest)[1..] == rest;
      if Keep(data[0], title, status) then [data[0]] + rest else rest
  }

  /** Filtering distributes over concatenation, so each row is judged on its own. */
  lemma {:induction false} FilterAppend(a: seq<Project>, b: seq<Project>, title: string, status: seq<string>)
    ensures FilteredData(a + b, title, status) == FilteredData(a, title, status) + FilteredData(b, title, status)
  {
    if a != [] {
      var ab := a + b;
      assert ab[0] == a[0] && ab[1..] == a[1..] + b;
      FilterAppend(a[1..], b, title, status);
      var head := if Keep(a[0], title, status) then [a[0]] else [];
      assert FilteredData(ab, title, status) == head + FilteredData(ab[1..], title, status);
      assert FilteredData(a, title, status) == head + FilteredData(a[1..], title, status);
    } else {
      assert a + b == b;
    }
  }

  /** Filtering an already filtered list changes nothing. */
  lemma {:induction false} FilterIdempotent(data: seq<Project>, title: string, status: seq<string>)
    ensures FilteredData(FilteredData(data, title, status), title, status) == FilteredData(data, title, status)
  {
    if data != [] {
      FilterIdempotent(data[1..], title, status);
      var rest := FilteredData(data[1..], title, status);
      if Keep(data[0], title, status) {
        assert ([data[0]] + rest)[1..] == rest;
      }
    }
  }

  /** With no title and no selected platform every row is kept. */
  lemma {:induction false} NoFilterKeepsAll(data: seq<Project>)
    ensures FilteredData(data, "", []) == data
  {
    if data != [] {
      NoFilterKeepsAll(data[1..]);
    }
  }

  /** The title test ignores the case of ASCII letters in the title. */
  lemma TitleCaseInsensitive(p: Project, title: string)
    ensures MatchesTitle(p, Lower(title)) == MatchesTitle(p, title)
  {
    LowerIdempotent(title);
  }

  /** A non-empty title keeps a row exactly when the lower-cased title occurs in the lower-cased name. */
  lemma TitleIff(p: Project, title: string)
    requires title != ""
    ensures MatchesTitle(p, title) <==> exists i :: OccursAt(Lower(p.name), Lower(title), i)
  {
  }

  const DemoData: seq<Project> := [
    Project("1", "Mark Wasfy", "like", "youtube"),
    Project("2", "John Doe", "comment", "facebook"),
    Project("3", "Jane Smith", "share", "twitter"),
    Project("4", "Omar Abdelghany", "comment", "facebook")
  ]

  /** Selecting the facebook platform on the demo rows keeps the second and the fourth. */
  lemma DemoFacebook()
    ensures FilteredData(DemoData, "", ["facebook"]) == [DemoData[1], DemoData[3]]
  {
    var d := DemoData;
    assert d[3..][1..] == [];
    assert FilteredData(d[3..], "", ["facebook"]) == [d[3]];
    assert d[2..][1..] == d[3..];
    assert FilteredData(d[2..], "", ["facebook"]) == [d[3]];
    assert d[1..][1..] == d[2..];
    assert FilteredData(d[1..], "", ["facebook"]) == [d[1], d[3]];
  }
}
