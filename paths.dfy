/** The part of `pathlib` both runners rely on, over normalised POSIX path
    text: the final component (`name`), its `stem`, the `parent`, joining
    with `/` and `with_name`. */
module Paths {
  import opened Common

  /** `Path.name`: the text after the last '/'. */
  function Name(p: Path): (n: string)
    ensures |n| <= |p|
  {
    if p == [] then []
    else if p[|p| - 1] == '/' then []
    else Name(p[..|p| - 1]) + [p[|p| - 1]]
  }

  /** The final component is the longest suffix without '/'. */
  lemma NameIsLastComponent(p: Path)
    ensures '/' !in Name(p)
    ensures |Name(p)| <= |p| && p[|p| - |Name(p)|..] == Name(p)
    ensures |Name(p)| < |p| ==> p[|p| - |Name(p)| - 1] == '/'
  {
    NameHasNoSeparator(p);
    NameIsSuffix(p);
    NameFollowsSeparator(p);
  }

  lemma {:induction false} NameHasNoSeparator(p: Path)
    ensures '/' !in Name(p)
    decreases |p|
  {
    if p != [] && p[|p| - 1] != '/' {
      NameHasNoSeparator(p[..|p| - 1]);
    }
  }

  lemma {:induction false} NameIsSuffix(p: Path)
    ensures p == p[..|p| - |Name(p)|] + Name(p)
    decreases |p|
  {
    if p != [] && p[|p| - 1] != '/' {
      var q, c := p[..|p| - 1], p[|p| - 1];
      NameIsSuffix(q);
      assert |Name(p)| == |Name(q)| + 1;
      assert p[..|p| - |Name(p)|] == q[..|q| - |Name(q)|];
      assert p == q + [c];
    }
  }

  lemma {:induction false} NameFollowsSeparator(p: Path)
    ensures |Name(p)| < |p| ==> p[|p| - |Name(p)| - 1] == '/'
    decreases |p|
  {
    if p != [] && p[|p| - 1] != '/' {
      var q := p[..|p| - 1];
      NameFollowsSeparator(q);
      assert |Name(p)| == |Name(q)| + 1;
      if |Name(p)| < |p| {
        assert p[|p| - |Name(p)| - 1] == q[|q| - |Name(q)| - 1];
      }
    }
  }

  /** `Path.parent`: everything before the final component and its
      separator; "." for a bare name and "/" for a child of the root. */
  function Parent(p: Path): Path {
    var n := Name(p);
    if |n| == |p| then "."
    else if |n| + 1 == |p| then "/"
    else p[..|p| - |n| - 1]
  }

  /** `base / rel` for a relative `rel`. */
  function Join(base: Path, rel: string): Path {
    if base == [] || base == "." then rel
    else if base[|base| - 1] == '/' then base + rel
    else base + "/" + rel
  }

  /** `Path.with_name`: the sibling called `name`. */
  function WithName(p: Path, name: string): Path {
    Join(Parent(p), name)
  }

  /** `str.rfind(c)`: the last index of `c`, or -1. */
  function LastIndexOf(s: string, c: char): (i: int)
    ensures -1 <= i < |s|
    ensures i >= 0 ==> s[i] == c
    ensures forall j :: i < j < |s| ==> s[j] != c
  {
    if s == [] then -1
    else if s[|s| - 1] == c then |s| - 1
    else LastIndexOf(s[..|s| - 1], c)
  }

  /** `Path.stem` of a final component: the name without its last suffix.
      A suffix starts at the last '.', which must be neither the first nor
      the last character (the rule of Python 3.13 and earlier). */
  function Stem(name: string): (s: string)
    ensures |s| <= |name| && name[..|s|] == s
    ensures s != name <==> 0 < LastIndexOf(name, '.') < |name| - 1
    ensures s != name ==> 0 < |s| < |name| - 1 && name[|s|] == '.'
    ensures s != name ==> forall j :: |s| < j < |name| ==> name[j] != '.'
  {
    var i := LastIndexOf(name, '.');
    if 0 < i < |name| - 1 then name[..i] else name
  }

  /** Appending one character: a separator empties the final component,
      anything else extends it. */
  lemma NameSnoc(z: Path, c: char)
    ensures Name(z + [c]) == if c == '/' then [] else Name(z) + [c]
  {
    assert (z + [c])[..|z|] == z;
  }

  lemma {:induction false} NameOfConcat(x: Path, y: string)
    ensures Name(x + y) == if '/' in y then Name(y) else Name(x) + y
    decreases |y|
  {
    if y == [] {
      assert x + y == x;
    } else {
      var y', c := y[..|y| - 1], y[|y| - 1];
      assert y == y' + [c];
      assert x + y == (x + y') + [c];
      NameSnoc(x + y', c);
      NameSnoc(y', c);
      NameOfConcat(x, y');
      if c != '/' && '/' !in y' {
        assert Name(y') == y' by {
          NameOfConcat([], y');
          assert [] + y' == y';
        }
        assert Name(x) + y' + [c] == Name(x) + y;
      }
    }
  }

  /** A name without '/' is its own final component. */
  lemma NameOfPlain(s: string)
    requires '/' !in s
    ensures Name(s) == s
  {
    NameOfConcat([], s);
    assert [] + s == s;
  }

  /** The final component of `base / rel` is that of `rel`, whatever the
      base: names built by `Join` depend only on what is joined last. */
  lemma NameOfJoin(base: Path, rel: string)
    ensures Name(Join(base, rel)) == Name(rel)
  {
    if base == [] || base == "." {
    } else if base[|base| - 1] == '/' {
      NameOfConcat(base, rel);
      assert Name(base) == [];
      NameOfConcat([], rel);
      assert [] + rel == rel;
    } else {
      assert base + "/" + rel == (base + "/") + rel;
      NameOfConcat(base + "/", rel);
      NameOfConcat([], rel);
      assert [] + rel == rel;
    }
  }

  /** Joining to a fixed base never maps two relative paths to one path. */
  lemma JoinInjective(base: Path, r1: string, r2: string)
    requires Join(base, r1) == Join(base, r2)
    ensures r1 == r2
  {
    if base == [] || base == "." {
    } else if base[|base| - 1] == '/' {
      assert r1 == (base + r1)[|base|..];
      assert r2 == (base + r2)[|base|..];
    } else {
      assert r1 == (base + "/" + r1)[|base| + 1..];
      assert r2 == (base + "/" + r2)[|base| + 1..];
    }
  }
}
