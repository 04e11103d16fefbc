/** `pathlib.PurePosixPath` as far as the core uses it: parsing a string
    into components, `str()`, `.name`, `.suffix`, `.stem`, `with_suffix`,
    `with_name` and `/`. The suffix rule is the one of Python up to 3.13: a
    final dot, or a dot that starts the name, makes no suffix. The root
    follows POSIX: exactly two leading slashes are kept as `//`, one or
    three and more become `/`. */
module Paths {
  import opened PyText

  /** A normalised path: its root (`""` for a relative path, `"/"` or
      `"//"`) and its components, none of which is empty, `.` or holds a `/`. */
  datatype PathValue = PathValue(root: string, parts: seq<string>)

  predicate IsRoot(root: string) {
    root == "" || root == "/" || root == "//"
  }

  predicate IsComponent(s: string) {
    s != "" && s != "." && '/' !in s
  }

  predicate WellFormed(p: PathValue) {
    IsRoot(p.root) && forall k :: 0 <= k < |p.parts| ==> IsComponent(p.parts[k])
  }

  /** The root `Path(s)` keeps: `//` for exactly two leading slashes, `/`
      for one or for three and more, none otherwise. */
  function RootOf(s: string): (root: string)
    ensures IsRoot(root)
    ensures root == "//" <==> |s| >= 2 && s[..2] == "//" && (|s| == 2 || s[2] != '/')
    ensures root == "" <==> |s| == 0 || s[0] != '/'
  {
    if |s| >= 2 && s[0] == '/' && s[1] == '/' && (|s| == 2 || s[2] != '/') then "//"
    else if |s| > 0 && s[0] == '/' then "/"
    else ""
  }

  /** The pieces of a `/`-split that survive normalisation: empty pieces and
      `.` are dropped. */
  function Components(pieces: seq<string>): (parts: seq<string>)
    ensures forall k :: 0 <= k < |parts| ==> parts[k] != "" && parts[k] != "."
    ensures |parts| <= |pieces|
  {
    if |pieces| == 0 then []
    else
      var rest := Components(pieces[1..]);
      if pieces[0] == "" || pieces[0] == "." then rest else [pieces[0]] + rest
  }

  /** Every piece of a `/`-split is free of `/`. */
  lemma {:induction false} SplitPiecesHaveNoSlash(s: string)
    ensures forall k :: 0 <= k < |Split(s, '/')| ==> '/' !in Split(s, '/')[k]
    decreases |s|
  {
    var i := IndexOf(s, '/');
    if i < |s| {
      SplitPiecesHaveNoSlash(s[i + 1..]);
    }
  }

  lemma {:induction false} ComponentsKeepNoSlash(pieces: seq<string>)
    requires forall k :: 0 <= k < |pieces| ==> '/' !in pieces[k]
    ensures forall k :: 0 <= k < |Components(pieces)| ==> '/' !in Components(pieces)[k]
  {
    if |pieces| > 0 {
      ComponentsKeepNoSlash(pieces[1..]);
    }
  }

  /** `Path(s)`. */
  function Parse(s: string): (p: PathValue)
    ensures WellFormed(p)
  {
    SplitPiecesHaveNoSlash(s);
    ComponentsKeepNoSlash(Split(s, '/'));
    PathValue(RootOf(s), Components(Split(s, '/')))
  }

  /** `str(path)`. */
  function Str(p: PathValue): string {
    if p.root == "" && p.parts == [] then "." else p.root + Join(p.parts, "/")
  }

  /** `path.name`: the last component, or "" for `/` and `.`. */
  function Name(p: PathValue): string {
    if |p.parts| == 0 then "" else p.parts[|p.parts| - 1]
  }

  /** `path.suffix` of a name: from its last dot, provided that dot neither
      starts nor ends the name. */
  function Suffix(name: string): (suf: string)
    ensures suf == "" || (|suf| >= 2 && suf[0] == '.' && EndsWith(name, suf) && |suf| < |name|)
  {
    var i := LastIndexOf(name, '.');
    if 0 < i < |name| - 1 then name[i..] else ""
  }

  /** `path.stem` of a name: the name without its suffix. */
  function Stem(name: string): (stem: string)
    ensures stem + Suffix(name) == name
  {
    name[..|name| - |Suffix(name)|]
  }

  /** The components of `Str(p)` split at `/` are the components of `p`, so
      parsing what `str` prints gives the path back. */
  lemma {:induction false} ParseStr(p: PathValue)
    requires WellFormed(p)
    ensures Parse(Str(p)) == p
  {
    var s := Str(p);
    var j := Join(p.parts, "/");
    if |p.parts| > 0 {
      SplitJoin(p.parts, '/');
      ComponentsOfComponents(p.parts);
      JoinHead(p.parts, "/");
      assert j[0] != '/' by { assert IsComponent(p.parts[0]); }
    } else {
      assert Split(j, '/') == [""];
    }
    if p.root == "/" {
      SplitAfterSlash(j);
      assert s == "/" + j;
      assert |s| > 1 ==> s[1] == j[0];
      assert ([""] + Split(j, '/'))[1..] == Split(j, '/');
      assert RootOf(s) == "/";
      assert Components(Split(j, '/')) == p.parts;
      assert Components(Split(s, '/')) == p.parts;
    } else if p.root == "//" {
      SplitAfterSlash(j);
      SplitAfterSlash("/" + j);
      assert s == "/" + ("/" + j);
      assert s[..2] == "//";
      assert |s| > 2 ==> s[2] == j[0];
      assert ([""] + ([""] + Split(j, '/')))[1..] == [""] + Split(j, '/');
      assert ([""] + Split(j, '/'))[1..] == Split(j, '/');
      assert RootOf(s) == "//";
      assert Components(Split(j, '/')) == p.parts;
      assert Components(Split(s, '/')) == p.parts;
    } else if |p.parts| == 0 {
      assert Split(".", '/') == ["."];
      assert Components(["."]) == [];
    } else {
      assert s == j;
    }
  }

  /** Before a name, two leading slashes are kept as the root `//` and
      three collapse to the root `/`, with the same components either way. */
  lemma {:induction false} RootSlashes(j: string)
    requires |j| > 0 && j[0] != '/'
    ensures Parse("//" + j) == PathValue("//", Parse(j).parts)
    ensures Parse("///" + j) == Parse("/" + j) == PathValue("/", Parse(j).parts)
  {
    var x := Split(j, '/');
    SplitAfterSlash(j);
    SplitAfterSlash("/" + j);
    SplitAfterSlash("//" + j);
    assert "//" + j == "/" + ("/" + j) && "///" + j == "/" + ("//" + j);
    assert ([""] + x)[1..] == x;
    assert ([""] + ([""] + x))[1..] == [""] + x;
    assert ([""] + ([""] + ([""] + x)))[1..] == [""] + ([""] + x);
    assert ("//" + j)[2] == j[0] && ("/" + j)[1] == j[0];
    assert ("//" + j)[..2] == "//";
    assert RootOf("//" + j) == "//";
    assert Split("//" + j, '/') == [""] + ([""] + x);
    assert Components([""] + ([""] + x)) == Components(x);
  }

  /** A leading slash splits off an empty first piece. */
  lemma {:induction false} SplitAfterSlash(j: string)
    ensures Split("/" + j, '/') == [""] + Split(j, '/')
  {
    var s := "/" + j;
    assert IndexOf(s, '/') == 0;
    assert s[1..] == j;
  }

  /** A string without `/` parses to a relative path whose only component
      is that string (when it is a component at all). */
  lemma {:induction false} ParseSingle(s: string)
    requires IsComponent(s)
    ensures Parse(s) == PathValue("", [s]) && Name(Parse(s)) == s
  {
    var i := IndexOf(s, '/');
    assert s[..i] == s[..|s|];
    assert Split(s, '/') == [s];
  }

  /** Components of a list of components is the list itself. */
  lemma {:induction false} ComponentsOfComponents(parts: seq<string>)
    requires forall k :: 0 <= k < |parts| ==> IsComponent(parts[k])
    ensures Components(parts) == parts
  {
    if |parts| > 0 {
      ComponentsOfComponents(parts[1..]);
    }
  }

  /** A join whose first part is not empty starts with that part's first character. */
  lemma {:induction false} JoinHead(parts: seq<string>, sep: string)
    requires |parts| > 0 && |parts[0]| > 0
    ensures |Join(parts, sep)| > 0 && Join(parts, sep)[0] == parts[0][0]
  {
  }

  /** `path.with_name(name)`, for a path that has a name (pathlib raises otherwise). */
  function WithName(p: PathValue, name: string): (q: PathValue)
    requires |p.parts| > 0
    ensures q.root == p.root && |q.parts| == |p.parts| && q.parts[..|q.parts| - 1] == p.parts[..|p.parts| - 1]
    ensures Name(q) == name
  {
    PathValue(p.root, p.parts[..|p.parts| - 1] + [name])
  }

  /** `path.with_suffix(suffix)`, for a path that has a name. */
  function WithSuffix(p: PathValue, suffix: string): PathValue
    requires |p.parts| > 0
  {
    WithName(p, Stem(Name(p)) + suffix)
  }

  /** `directory / name` for a single component. */
  function Child(directory: PathValue, name: string): (q: PathValue)
    requires IsComponent(name)
    ensures q.root == directory.root && |q.parts| == |directory.parts| + 1
    ensures q.parts[..|q.parts| - 1] == directory.parts
    ensures Name(q) == name
  {
    PathValue(directory.root, directory.parts + [name])
  }

  /** The name of a well-formed path holds no `/`. */
  lemma {:induction false} NameHasNoSlash(p: PathValue)
    requires WellFormed(p)
    ensures '/' !in Name(p)
  {
    if |p.parts| > 0 {
      assert IsComponent(p.parts[|p.parts| - 1]);
    }
  }

  /** A well-formed directory and a component make a well-formed child. */
  lemma {:induction false} ChildWellFormed(directory: PathValue, name: string)
    requires WellFormed(directory) && IsComponent(name)
    ensures WellFormed(Child(directory, name))
  {
    var q := Child(directory, name);
    forall k | 0 <= k < |q.parts|
      ensures IsComponent(q.parts[k])
    {
      if k < |directory.parts| {
        assert q.parts[k] == directory.parts[k];
      }
    }
  }

  /** A stem followed by a suffix that holds no other dot splits back into
      that stem and suffix. */
  lemma {:induction false} SuffixOfAppended(stem: string, suffix: string)
    requires stem != "" && |suffix| >= 2 && suffix[0] == '.'
    requires forall k :: 1 <= k < |suffix| ==> suffix[k] != '.'
    ensures Suffix(stem + suffix) == suffix && Stem(stem + suffix) == stem
  {
    var name := stem + suffix;
    assert name[|stem|] == '.';
    forall k | |stem| < k < |name|
      ensures name[k] != '.'
    {
      assert name[k] == suffix[k - |stem|];
    }
    assert name[|stem|..] == suffix;
  }

  /** A stem is never empty when there is a suffix. */
  lemma {:induction false} StemNotEmpty(name: string)
    requires Suffix(name) != ""
    ensures Stem(name) != ""
  {
  }

  /** `str(path).endswith(suffix)` is decided by the last component, for a
      suffix of at least two characters without `/`. */
  lemma {:induction false} EndsWithName(p: PathValue, suffix: string)
    requires WellFormed(p) && |suffix| >= 2 && '/' !in suffix
    ensures EndsWith(Str(p), suffix) <==> EndsWith(Name(p), suffix)
  {
    var n := |p.parts|;
    if n > 0 {
      var name := Name(p);
      var s := Str(p);
      var head := JoinPrefix(p);
      StrIsPrefixAndName(p);
      if |name| < |suffix| && |suffix| <= |s| {
        var k := |s| - |name| - 1;
        assert s[k] == '/';
        assert s[|s| - |suffix|..][k - (|s| - |suffix|)] == '/';
      } else if |suffix| <= |name| {
        assert s[|s| - |suffix|..] == name[|name| - |suffix|..];
      }
    }
  }

  /** What `str(path)` prints before the name: nothing or `/` for a single
      component, otherwise the parent's components followed by `/`. */
  function JoinPrefix(p: PathValue): (head: string)
    requires |p.parts| > 0 && IsRoot(p.root)
    ensures head == "" || head[|head| - 1] == '/'
  {
    var n := |p.parts|;
    if n == 1 then p.root else p.root + Join(p.parts[..n - 1], "/") + "/"
  }

  /** `str(path)` is its prefix followed by its name. */
  lemma {:induction false} StrIsPrefixAndName(p: PathValue)
    requires |p.parts| > 0 && IsRoot(p.root)
    ensures Str(p) == JoinPrefix(p) + Name(p)
  {
    var n := |p.parts|;
    if n > 1 {
      JoinSnoc(p.parts[..n - 1], p.parts[n - 1], "/");
      assert p.parts[..n - 1] + [p.parts[n - 1]] == p.parts;
    }
  }
}
