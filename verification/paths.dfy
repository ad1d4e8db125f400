/** `Path::new(uri).file_name()` of the Rust standard library, on '/'-separated
    paths: the last component of the path, where empty components (repeated
    or trailing separators) and "." components are skipped, and there is no
    file name when the path has no component left or its last one is "..". */
module Paths {
  import opened Gpu

  /** The pieces of `s` between '/' separators, empty pieces included. */
  function Split(s: string): (parts: seq<string>)
    ensures |parts| >= 1
    ensures forall k :: 0 <= k < |parts| ==> '/' !in parts[k]
    decreases |s|
  {
    if |s| == 0 then [""]
    else if s[|s| - 1] == '/' then Split(s[..|s| - 1]) + [""]
    else
      var p := Split(s[..|s| - 1]);
      p[..|p| - 1] + [p[|p| - 1] + [s[|s| - 1]]]
  }

  /** A piece that names something: neither empty nor ".". */
  predicate Named(piece: string)
  {
    piece != "" && piece != "."
  }

  /** The pieces joined back with '/' between them. */
  function Join(parts: seq<string>): string
  {
    if |parts| <= 1 then (if parts == [] then "" else parts[0])
    else Join(parts[..|parts| - 1]) + "/" + parts[|parts| - 1]
  }

  /** The path's normal components, in order. */
  function Components(parts: seq<string>): (cs: seq<string>)
    ensures forall k :: 0 <= k < |cs| ==> Named(cs[k]) && cs[k] in parts
  {
    if parts == [] then []
    else
      var last := parts[|parts| - 1];
      Components(parts[..|parts| - 1]) + (if Named(last) then [last] else [])
  }

  /** Every named piece is among the components. */
  lemma {:induction false} ComponentsKeepNamed(parts: seq<string>)
    ensures forall k :: 0 <= k < |parts| && Named(parts[k]) ==> parts[k] in Components(parts)
    decreases |parts|
  {
    if parts != [] {
      var init := parts[..|parts| - 1];
      ComponentsKeepNamed(init);
      assert forall k :: 0 <= k < |init| ==> init[k] == parts[k];
    }
  }

  /** Keeping the named pieces distributes over concatenation, so together
      with the one-piece case it keeps the pieces' order. */
  lemma {:induction false} ComponentsAppend(a: seq<string>, b: seq<string>)
    ensures Components(a + b) == Components(a) + Components(b)
    ensures |b| == 1 ==> Components(b) == (if Named(b[0]) then b else [])
    decreases |b|
  {
    if b != [] {
      var init := b[..|b| - 1];
      assert (a + b)[..|a + b| - 1] == a + init;
      assert (a + b)[|a + b| - 1] == b[|b| - 1];
      ComponentsAppend(a, init);
      if |b| == 1 {
        assert init == [];
      }
    } else {
      assert a + b == a;
    }
  }

  /** Joining the pieces of a split gives the path back. */
  lemma {:induction false} SplitJoinsBack(s: string)
    ensures Join(Split(s)) == s
    decreases |s|
  {
    if |s| > 0 {
      var init, c := s[..|s| - 1], s[|s| - 1];
      assert init + [c] == s;
      SplitJoinsBack(init);
      var p := Split(init);
      if c == '/' {
        assert Split(s) == p + [""];
        var q := p + [""];
        assert q[..|q| - 1] == p && q[|q| - 1] == "";
        assert Join(q) == Join(p) + "/" + "";
        assert Join(p) + "/" + "" == init + [c];
      } else {
        assert Split(s) == p[..|p| - 1] + [p[|p| - 1] + [c]];
        JoinExtendLast(p, c);
      }
    }
  }

  /** Appending a character to the last piece appends it to the joined path. */
  lemma {:induction false} JoinExtendLast(p: seq<string>, c: char)
    requires |p| >= 1
    ensures Join(p[..|p| - 1] + [p[|p| - 1] + [c]]) == Join(p) + [c]
  {
    var init, last := p[..|p| - 1], p[|p| - 1];
    var q := init + [last + [c]];
    assert q[..|q| - 1] == init && q[|q| - 1] == last + [c] && |q| == |p|;
    if |p| > 1 {
      assert Join(q) == Join(init) + "/" + (last + [c]);
      assert Join(p) == Join(init) + "/" + last;
    } else {
      assert Join(q) == last + [c] && Join(p) == last;
    }
  }

  /** `file_name()`: the last component, unless there is none or it is "..". */
  function FileName(path: string): (r: Option<string>)
    ensures r.Some? ==> Named(r.value) && r.value != ".." && '/' !in r.value
  {
    var cs := Components(Split(path));
    if cs == [] || cs[|cs| - 1] == ".." then None else Some(cs[|cs| - 1])
  }

  /** Splitting `dir + "/" + name` splits `dir` and adds `name` as a last piece. */
  lemma {:induction false} SplitJoin(dir: string, name: string)
    requires '/' !in name
    ensures Split(dir + "/" + name) == Split(dir) + [name]
    decreases |name|
  {
    if name == [] {
      assert dir + "/" + name == dir + "/";
      assert (dir + "/")[..|dir + "/"| - 1] == dir;
    } else {
      var s := dir + "/" + name;
      var init := name[..|name| - 1];
      assert s[..|s| - 1] == dir + "/" + init;
      assert s[|s| - 1] == name[|name| - 1];
      SplitJoin(dir, init);
      assert init + [name[|name| - 1]] == name;
    }
  }

  /** The file name of `dir/name` is `name` whenever `name` is a proper file
      name, whatever the directory part is. */
  lemma FileNameOfJoin(dir: string, name: string)
    requires '/' !in name && Named(name) && name != ".."
    ensures FileName(dir + "/" + name) == Some(name)
  {
    SplitJoin(dir, name);
    var parts := Split(dir) + [name];
    assert parts[..|parts| - 1] == Split(dir);
  }

  /** A bare name without separators is its own file name. */
  lemma FileNameOfBareName(name: string)
    requires '/' !in name && Named(name) && name != ".."
    ensures FileName(name) == Some(name)
  {
    BareSplit(name);
  }

  lemma {:induction false} BareSplit(name: string)
    requires '/' !in name
    ensures Split(name) == [name]
    decreases |name|
  {
    if name != [] {
      var init := name[..|name| - 1];
      assert forall i :: 0 <= i < |init| ==> init[i] == name[i];
      assert '/' !in init;
      BareSplit(init);
      assert name[..|name| - 1] == init && name[|name| - 1] != '/';
      assert Split(name) == Split(init)[..0] + [Split(init)[0] + [name[|name| - 1]]];
      assert init + [name[|name| - 1]] == name;
    }
  }

  /** The parent directory ".." has no file name. */
  lemma ParentAloneHasNoFileName()
    ensures FileName("..") == None
  {
    BareSplit("..");
    assert Components([".."]) == Components([]) + [".."];
  }

  /** A path without a named piece, such as "", "/" or ".", has no file name. */
  lemma NoComponentNoFileName()
    ensures FileName("") == None && FileName("/") == None && FileName(".") == None
  {
    assert Split("") == [""];
    assert "/"[..0] == "";
    assert Split("/") == [""] + [""];
    assert "."[..0] == "";
    assert Split(".") == [] + [[] + ['.']];
    assert Components(["", ""]) == Components([""]) + [];
  }

  /** A path ending in ".." has no file name, whatever comes before it. */
  lemma ParentHasNoFileName(dir: string)
    ensures FileName(dir + "/..") == None
  {
    var path := dir + "/..";
    assert path == dir + "/" + "..";
    SplitJoin(dir, "..");
    ComponentsAppend(Split(dir), [".."]);
    assert Named("..");
    var cs := Components(Split(path));
    assert cs == Components(Split(dir)) + [".."];
    assert cs != [] && cs[|cs| - 1] == "..";
  }

  /** A path that ends in a separator has the file name of the path without it. */
  lemma TrailingSeparatorIgnored(path: string)
    ensures FileName(path + "/") == FileName(path)
  {
    assert (path + "/")[..|path + "/"| - 1] == path;
    var parts := Split(path) + [""];
    assert parts[..|parts| - 1] == Split(path);
  }
}
