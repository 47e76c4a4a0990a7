/**
  Go's `path/filepath.Clean` and `filepath.Join` on a Unix system, stated over
  the elements between separators: empty elements and "." are dropped, ".."
  removes the preceding name (or is dropped at the root, or kept at the front
  of a relative path), and an empty result is "." (or "/" when rooted).
 */
module FilePath {

  predicate NoSlash(s: string) {
    forall i :: 0 <= i < |s| ==> s[i] != '/'
  }

  /** An element Clean keeps: not empty, not ".", no separator (it may be ".."). */
  predicate Element(e: string) {
    e != "" && e != "." && NoSlash(e)
  }

  /** A plain name: an element that is not "..". */
  predicate Name(e: string) {
    Element(e) && e != ".."
  }

  /** The pieces between separators, as `strings.Split(s, "/")` returns them. */
  function Split(s: string): (parts: seq<string>)
    ensures |parts| >= 1
    ensures forall i :: 0 <= i < |parts| ==> NoSlash(parts[i])
    decreases |s|
  {
    if s == [] then [""]
    else
      var init := Split(s[..|s| - 1]);
      var c := s[|s| - 1];
      if c == '/' then init + [""]
      else init[..|init| - 1] + [init[|init| - 1] + [c]]
  }

  /** The elements Clean works on: the pieces that are neither empty nor ".". */
  function Elements(parts: seq<string>): (elems: seq<string>)
    requires forall i :: 0 <= i < |parts| ==> NoSlash(parts[i])
    ensures forall i :: 0 <= i < |elems| ==> Element(elems[i])
  {
    if parts == [] then []
    else
      var init := Elements(parts[..|parts| - 1]);
      var last := parts[|parts| - 1];
      if last == "" || last == "." then init else init + [last]
  }

  /**
    A stack Clean can produce: every entry an element, ".." entries only in a
    leading run, and none at all under the root.
   */
  predicate Resolved(rooted: bool, stack: seq<string>) {
    && (forall i :: 0 <= i < |stack| ==> Element(stack[i]))
    && (forall i, j :: 0 <= i < j < |stack| && stack[j] == ".." ==> stack[i] == "..")
    && (rooted ==> forall i :: 0 <= i < |stack| ==> stack[i] != "..")
  }

  /** One element of Clean's scan: ".." pops a preceding name, is dropped at the root, and is kept otherwise. */
  function Push(rooted: bool, stack: seq<string>, elem: string): seq<string> {
    if elem == ".." then
      if |stack| > 0 && stack[|stack| - 1] != ".." then stack[..|stack| - 1]
      else if rooted then stack
      else stack + [".."]
    else stack + [elem]
  }

  function Resolve(rooted: bool, elems: seq<string>): (stack: seq<string>)
    requires forall i :: 0 <= i < |elems| ==> Element(elems[i])
    ensures Resolved(rooted, stack)
  {
    if elems == [] then []
    else
      var init := Resolve(rooted, elems[..|elems| - 1]);
      var stack := Push(rooted, init, elems[|elems| - 1]);
      assert Resolved(rooted, stack) by {
        var last := elems[|elems| - 1];
        if last == ".." && !(|init| > 0 && init[|init| - 1] != "..") && !rooted {
          assert forall i :: 0 <= i < |init| ==> init[i] == "..";
        }
      }
      stack
  }

  /** `strings.Join(xs, "/")`. */
  function JoinSlash(xs: seq<string>): string {
    if xs == [] then ""
    else if |xs| == 1 then xs[0]
    else JoinSlash(xs[..|xs| - 1]) + "/" + xs[|xs| - 1]
  }

  function Render(rooted: bool, stack: seq<string>): string {
    if rooted then "/" + JoinSlash(stack)
    else if stack == [] then "."
    else JoinSlash(stack)
  }

  /** `filepath.Clean`: the shortest lexically equivalent path. */
  function Clean(p: string): string {
    if p == "" then "."
    else
      var rooted := p[0] == '/';
      Render(rooted, Resolve(rooted, Elements(Split(p))))
  }

  /** `filepath.Join`: leading empty elements are skipped; the rest are joined with "/" and cleaned. */
  function Join(elems: seq<string>): (r: string)
    ensures (exists i :: 0 <= i < |elems| && elems[i] != "") ==> r != ""
    ensures (forall i :: 0 <= i < |elems| ==> elems[i] == "") ==> r == ""
  {
    if elems == [] then ""
    else if elems[0] != "" then
      CleanNonEmpty(JoinSlash(elems));
      Clean(JoinSlash(elems))
    else
      assert forall i :: 1 <= i < |elems| ==> elems[1..][i - 1] == elems[i];
      Join(elems[1..])
  }

  // ---------------------------------------------------------------------
  // Lemmas about Split

  lemma {:induction false} SplitSlash(p: string)
    ensures Split(p + "/") == Split(p) + [""]
  {
    assert (p + "/")[..|p|] == p;
  }

  /** Appending "/" and a separator-free piece appends exactly that piece. */
  lemma {:induction false} SplitAppend(p: string, seg: string)
    requires NoSlash(seg)
    ensures Split(p + "/" + seg) == Split(p) + [seg]
    decreases |seg|
  {
    if seg == [] {
      assert p + "/" + seg == p + "/";
      SplitSlash(p);
    } else {
      var init := seg[..|seg| - 1];
      var q := p + "/" + seg;
      assert q[..|q| - 1] == p + "/" + init;
      assert q[|q| - 1] == seg[|seg| - 1];
      SplitAppend(p, init);
      assert init + [seg[|seg| - 1]] == seg;
    }
  }

  /** A string without separators is a single piece. */
  lemma {:induction false} SplitNoSlash(s: string)
    requires NoSlash(s)
    ensures Split(s) == [s]
    decreases |s|
  {
    if s != [] {
      var init := s[..|s| - 1];
      SplitNoSlash(init);
      assert init + [s[|s| - 1]] == s;
    }
  }

  // ---------------------------------------------------------------------
  // Lemmas about Render and JoinSlash

  lemma RenderAppend(rooted: bool, stack: seq<string>, x: string)
    ensures Render(rooted, stack + [x]) ==
      if stack == [] then (if rooted then "/" + x else x) else Render(rooted, stack) + "/" + x
  {
    var s := stack + [x];
    assert s[..|s| - 1] == stack;
  }

  lemma {:induction false} JoinSlashFirst(xs: seq<string>)
    requires |xs| >= 1 && |xs[0]| >= 1
    ensures |JoinSlash(xs)| >= 1 && JoinSlash(xs)[0] == xs[0][0]
    decreases |xs|
  {
    if |xs| > 1 {
      JoinSlashFirst(xs[..|xs| - 1]);
    }
  }

  lemma RenderNonEmpty(rooted: bool, stack: seq<string>)
    requires forall i :: 0 <= i < |stack| ==> Element(stack[i])
    ensures Render(rooted, stack) != ""
    ensures Render(rooted, stack)[0] == '/' <==> rooted
  {
    if !rooted && stack != [] {
      JoinSlashFirst(stack);
    }
  }

  lemma CleanNonEmpty(p: string)
    ensures Clean(p) != ""
  {
    if p != "" {
      var rooted := p[0] == '/';
      RenderNonEmpty(rooted, Resolve(rooted, Elements(Split(p))));
    }
  }

  // ---------------------------------------------------------------------
  // Clean is a normal form

  /** Appending a piece that is an element appends it to the elements. */
  lemma ElementsSnoc(parts: seq<string>, x: string)
    requires forall i :: 0 <= i < |parts| ==> NoSlash(parts[i])
    requires Element(x)
    ensures Elements(parts + [x]) == Elements(parts) + [x]
  {
    var extended := parts + [x];
    assert extended[..|extended| - 1] == parts;
  }

  lemma SplitRoot()
    ensures Split("/") == ["", ""]
  {
    SplitSlash("");
    assert "" + "/" == "/";
  }

  lemma ElementsOfEmptyPieces()
    ensures Elements(["", ""]) == []
  {
    assert ["", ""][..1] == [""];
    assert Elements([""]) == [] by {
      assert [""][..0] == [];
    }
  }

  lemma ElementsOfRenderEmpty(rooted: bool)
    ensures Elements(Split(Render(rooted, []))) == []
  {
    if rooted {
      assert Render(rooted, []) == "/";
      SplitRoot();
      ElementsOfEmptyPieces();
    } else {
      assert Render(rooted, []) == ".";
      SplitNoSlash(".");
      assert ["."][..0] == [];
    }
  }

  lemma ElementsOfRenderSingle(rooted: bool, x: string)
    requires Element(x)
    ensures Elements(Split(Render(rooted, [x]))) == [x]
  {
    RenderAppend(rooted, [], x);
    assert [] + [x] == [x];
    if rooted {
      SplitAppend("", x);
      assert "" + "/" + x == "/" + x;
      ElementsSnoc([""], x);
    } else {
      SplitNoSlash(x);
      ElementsSnoc([], x);
    }
  }

  /** Splitting a rendered stack gives back its elements. */
  lemma {:induction false} ElementsOfRender(rooted: bool, stack: seq<string>)
    requires forall i :: 0 <= i < |stack| ==> Element(stack[i])
    ensures Elements(Split(Render(rooted, stack))) == stack
    decreases |stack|
  {
    if stack == [] {
      ElementsOfRenderEmpty(rooted);
    } else if |stack| == 1 {
      assert stack == [stack[0]];
      ElementsOfRenderSingle(rooted, stack[0]);
    } else {
      var init, x := stack[..|stack| - 1], stack[|stack| - 1];
      assert init + [x] == stack;
      RenderAppend(rooted, init, x);
      var r := Render(rooted, init);
      SplitAppend(r, x);
      ElementsOfRender(rooted, init);
      ElementsSnoc(Split(r), x);
    }
  }

  /** Clean leaves a resolved stack unchanged. */
  lemma {:induction false} ResolveFixed(rooted: bool, stack: seq<string>)
    requires Resolved(rooted, stack)
    ensures Resolve(rooted, stack) == stack
    decreases |stack|
  {
    if stack != [] {
      var init := stack[..|stack| - 1];
      assert Resolved(rooted, init);
      ResolveFixed(rooted, init);
      if stack[|stack| - 1] == ".." {
        assert forall i :: 0 <= i < |init| ==> init[i] == "..";
      }
    }
  }

  /** Clean is idempotent: its output is already clean. */
  lemma CleanIdempotent(p: string)
    ensures Clean(Clean(p)) == Clean(p)
  {
    if p == "" {
      SplitNoSlash(".");
    } else {
      var rooted := p[0] == '/';
      var stack := Resolve(rooted, Elements(Split(p)));
      RenderNonEmpty(rooted, stack);
      ElementsOfRender(rooted, stack);
      ResolveFixed(rooted, stack);
    }
  }

  /** Appending "/" and a plain name to a clean path that is neither "." nor "/" leaves it clean. */
  lemma CleanExtend(p: string, seg: string)
    requires Clean(p) == p && p != "." && p != "/"
    requires Name(seg)
    ensures Clean(p + "/" + seg) == p + "/" + seg
  {
    CleanNonEmpty(p);
    var q := p + "/" + seg;
    var rooted := p[0] == '/';
    assert q[0] == p[0];
    var parts := Split(p);
    SplitAppend(p, seg);
    var extended := parts + [seg];
    assert extended[..|extended| - 1] == parts;
    var elems := Elements(parts);
    assert Elements(Split(q)) == elems + [seg];
    var stack := Resolve(rooted, elems);
    var grown := elems + [seg];
    assert grown[..|grown| - 1] == elems;
    assert Resolve(rooted, grown) == stack + [seg];
    RenderAppend(rooted, stack, seg);
  }

  /** Appending "/" and a plain name always yields a clean path ending in that name: neither "." nor "/". */
  lemma CleanEndsInName(p: string, seg: string)
    requires Name(seg)
    ensures Clean(p + "/" + seg) != "." && Clean(p + "/" + seg) != "/"
  {
    var q := p + "/" + seg;
    var rooted := q[0] == '/';
    var parts := Split(p);
    SplitAppend(p, seg);
    var extended := parts + [seg];
    assert extended[..|extended| - 1] == parts;
    var elems := Elements(parts);
    var grown := elems + [seg];
    assert grown[..|grown| - 1] == elems;
    var stack := Resolve(rooted, elems);
    RenderAppend(rooted, stack, seg);
    if stack != [] {
      RenderNonEmpty(rooted, stack);
    }
  }

  // ---------------------------------------------------------------------
  // Small cases

  lemma JoinSlashPair(a: string, b: string)
    ensures JoinSlash([a, b]) == a + "/" + b
  {
    assert [a, b][..1] == [a];
  }

  lemma JoinSlashTriple(a: string, b: string, c: string)
    ensures JoinSlash([a, b, c]) == a + "/" + b + "/" + c
  {
    assert [a, b, c][..2] == [a, b];
    JoinSlashPair(a, b);
  }

  /** `filepath.Join` of two or three elements whose first is not empty. */
  lemma JoinSmall(a: string, b: string, c: string)
    requires a != ""
    ensures Join([a, b]) == Clean(a + "/" + b)
    ensures Join([a, b, c]) == Clean(a + "/" + b + "/" + c)
  {
    JoinSlashPair(a, b);
    JoinSlashTriple(a, b, c);
  }

  /** `filepath.Join("", b, c)` skips the empty first element. */
  lemma JoinSkipsEmpty(b: string, c: string)
    requires b != ""
    ensures Join(["", b, c]) == Clean(b + "/" + c)
  {
    assert ["", b, c][1..] == [b, c];
    JoinSlashPair(b, c);
  }

  /** A single relative name is clean. */
  lemma CleanName(name: string)
    requires Name(name)
    ensures Clean(name) == name
  {
    SplitNoSlash(name);
    ElementsSnoc([], name);
    assert [] + [name] == [name];
    assert [name][..0] == [];
    assert Resolve(false, [name]) == [name];
  }

  /** A single name under the root is clean. */
  lemma CleanRootedName(name: string)
    requires Name(name)
    ensures Clean("/" + name) == "/" + name
  {
    SplitAppend("", name);
    assert "" + "/" + name == "/" + name;
    ElementsSnoc([""], name);
    assert [""][..0] == [];
    assert Elements([""]) == [];
    assert [name][..0] == [];
    assert Resolve(true, [name]) == [name];
  }
}
