/** The handler specification of a function, "file.export": `split('.')` of the
    string, the module file (first segment) and the export name (second segment). */
module HandlerSpec {
  import opened Wrappers

  /** `s.split('.')`: the maximal dot-free pieces between the dots, at least one
      (the empty string splits into `[""]`). */
  function Split(s: string): (r: seq<string>)
    ensures |r| >= 1
    ensures forall i :: 0 <= i < |r| ==> '.' !in r[i]
    decreases |s|
  {
    if s == [] then [""]
    else
      var rest := Split(s[1..]);
      if s[0] == '.' then [""] + rest
      else [[s[0]] + rest[0]] + rest[1..]
  }

  /** `segments.join('.')`. */
  function Join(segments: seq<string>): string
    requires |segments| >= 1
    decreases |segments|
  {
    if |segments| == 1 then segments[0] else segments[0] + "." + Join(segments[1..])
  }

  /** Joining the pieces of a split with dots gives back the original string. */
  lemma {:induction false} JoinSplit(s: string)
    ensures Join(Split(s)) == s
    decreases |s|
  {
    if s != [] {
      var rest := Split(s[1..]);
      JoinSplit(s[1..]);
      if s[0] != '.' {
        var r := Split(s);
        assert r[0] == [s[0]] + rest[0] && r[1..] == rest[1..];
        if |rest| > 1 {
          assert Join(rest) == rest[0] + "." + Join(rest[1..]);
          assert Join(r) == ([s[0]] + rest[0]) + "." + Join(rest[1..]);
        }
      } else {
        assert Split(s) == [""] + rest;
      }
      assert s == [s[0]] + s[1..];
    }
  }

  /** A dot-free string is a single piece. */
  lemma {:induction false} SplitDotFree(a: string)
    requires '.' !in a
    ensures Split(a) == [a]
    decreases |a|
  {
    if a != [] {
      SplitDotFree(a[1..]);
      assert a == [a[0]] + a[1..];
    }
  }

  /** A dot-free prefix followed by a dot is the first piece; the split goes on with the rest. */
  lemma {:induction false} SplitAfterSegment(a: string, b: string)
    requires '.' !in a
    ensures Split(a + "." + b) == [a] + Split(b)
    decreases |a|
  {
    var s := a + "." + b;
    if a == [] {
      assert s[0] == '.' && s[1..] == b;
    } else {
      assert s[0] == a[0] && s[1..] == a[1..] + "." + b;
      SplitAfterSegment(a[1..], b);
      assert [a[0]] + a[1..] == a;
    }
  }

  /** Splitting dot-free pieces joined with dots gives the pieces back. */
  lemma {:induction false} SplitJoin(segments: seq<string>)
    requires |segments| >= 1
    requires forall i :: 0 <= i < |segments| ==> '.' !in segments[i]
    ensures Split(Join(segments)) == segments
    decreases |segments|
  {
    if |segments| == 1 {
      SplitDotFree(segments[0]);
    } else {
      SplitAfterSegment(segments[0], Join(segments[1..]));
      SplitJoin(segments[1..]);
    }
  }

  /** The first piece of a join is a prefix of it. */
  lemma JoinStartsWithFirst(segments: seq<string>)
    requires |segments| >= 1
    ensures segments[0] <= Join(segments)
  {
  }

  /** `const [handlerFile, handler] = spec.split('.')`: the module file, the longest
      dot-free prefix of the spec. */
  function HandlerFile(spec: string): (r: string)
    ensures '.' !in r && r <= spec
    ensures |r| < |spec| ==> spec[|r|] == '.'
  {
    var parts := Split(spec);
    JoinSplit(spec);
    JoinStartsWithFirst(parts);
    parts[0]
  }

  /** The export name: the dot-free piece after the first dot, `undefined` when the
      spec has no dot. */
  function HandlerName(spec: string): (r: Option<string>)
    ensures r.None? <==> '.' !in spec
    ensures r.Some? ==> '.' !in r.value && HandlerFile(spec) + "." + r.value <= spec
    ensures r.Some? ==> var e := |HandlerFile(spec)| + 1 + |r.value|; e == |spec| || spec[e] == '.'
  {
    var parts := Split(spec);
    JoinSplit(spec);
    if |parts| >= 2 then
      JoinStartsWithFirst(parts[1..]);
      assert spec == parts[0] + "." + Join(parts[1..]);
      assert spec[|parts[0]|] == '.';
      assert |parts[1..]| == 1 || Join(parts[1..]) == parts[1] + "." + Join(parts[2..]);
      Some(parts[1])
    else
      None
  }

  /** For "file.export" and "file.export.anything" the module file is `file` and the
      export name is `export`; further segments are ignored. A spec without a dot
      names only a file. */
  lemma HandlerParts(file: string, name: string, tail: string)
    requires '.' !in file && '.' !in name
    ensures HandlerFile(file + "." + name) == file && HandlerName(file + "." + name) == Some(name)
    ensures HandlerFile(file + "." + name + "." + tail) == file
    ensures HandlerName(file + "." + name + "." + tail) == Some(name)
    ensures HandlerFile(file) == file && HandlerName(file) == None
  {
    SplitDotFree(file);
    SplitDotFree(name);
    SplitAfterSegment(file, name);
    SplitAfterSegment(name, tail);
    assert file + "." + name + "." + tail == file + "." + (name + "." + tail);
    SplitAfterSegment(file, name + "." + tail);
  }
}
