/** filepath.Clean and filepath.Join on slash-separated paths, as far as mount paths need them. */
module FilePaths {

  /** The pieces between slashes, empty ones included. */
  function Segments(path: string): (r: seq<string>)
    ensures |r| > 0
  {
    if path == "" then [""]
    else if path[0] == '/' then [""] + Segments(path[1..])
    else var rest := Segments(path[1..]); [[path[0]] + rest[0]] + rest[1..]
  }

  /** One step of cleaning: drop "" and ".", let ".." take back one element where there is one. */
  function Push(rooted: bool, stack: seq<string>, segment: string): seq<string> {
    if segment == "" || segment == "." then stack
    else if segment == ".." then
      if stack != [] && stack[|stack| - 1] != ".." then stack[..|stack| - 1]
      else if rooted then stack
      else stack + [segment]
    else stack + [segment]
  }

  function Elements(rooted: bool, segments: seq<string>): seq<string> {
    if segments == [] then []
    else Push(rooted, Elements(rooted, segments[..|segments| - 1]), segments[|segments| - 1])
  }

  function Rooted(path: string): bool { path != "" && path[0] == '/' }

  /** The elements in order, each followed by a slash. */
  function WithSlashes(elements: seq<string>): string {
    if elements == [] then "" else WithSlashes(elements[..|elements| - 1]) + elements[|elements| - 1] + "/"
  }

  /** The directory part to which a file name is appended. */
  function Prefix(rooted: bool, elements: seq<string>): string {
    (if rooted then "/" else "") + WithSlashes(elements)
  }

  function Render(rooted: bool, elements: seq<string>): string {
    if elements == [] then (if rooted then "/" else ".")
    else Prefix(rooted, elements[..|elements| - 1]) + elements[|elements| - 1]
  }

  function Clean(path: string): string {
    Render(Rooted(path), Elements(Rooted(path), Segments(path)))
  }

  function Join(dir: string, file: string): string {
    if dir == "" && file == "" then ""
    else if dir == "" then Clean(file)
    else if file == "" then Clean(dir)
    else Clean(dir + "/" + file)
  }

  /** A file name as a ConfigMap key can be: not empty, no slash, not a dot or two dots. */
  predicate Simple(file: string) {
    file != "" && '/' !in file && file != "." && file != ".."
  }

  /** What an element of a cleaned path looks like. */
  predicate Element(s: string) {
    s != "" && '/' !in s && s != "."
  }

  lemma {:induction false} SegmentsOfSimple(file: string)
    requires '/' !in file
    ensures Segments(file) == [file]
  {
    if file != "" {
      SegmentsOfSimple(file[1..]);
      assert [file[0]] + file[1..] == file;
    }
  }

  lemma {:induction false} SegmentsAppend(dir: string, file: string)
    requires '/' !in file
    ensures Segments(dir + "/" + file) == Segments(dir) + [file]
  {
    if dir == "" {
      assert (dir + "/" + file)[1..] == file;
      SegmentsOfSimple(file);
    } else {
      assert (dir + "/" + file)[1..] == dir[1..] + "/" + file;
      SegmentsAppend(dir[1..], file);
      var rest := Segments(dir[1..]);
      assert (rest + [file])[1..] == rest[1..] + [file];
    }
  }

  lemma {:induction false} SegmentsSlashFree(path: string)
    ensures forall s :: s in Segments(path) ==> '/' !in s
  {
    if path != "" {
      SegmentsSlashFree(path[1..]);
    }
  }

  lemma {:induction false} ElementsAreElements(rooted: bool, segments: seq<string>)
    requires forall s :: s in segments ==> '/' !in s
    ensures forall e :: e in Elements(rooted, segments) ==> Element(e)
  {
    if segments != [] {
      ElementsAreElements(rooted, segments[..|segments| - 1]);
    }
  }

  /** Joining a simple file name onto a directory puts it behind the cleaned directory. */
  lemma JoinIsPrefixed(dir: string, file: string)
    requires Simple(file)
    ensures Join(dir, file) == Prefix(Rooted(dir), Elements(Rooted(dir), Segments(dir))) + file
  {
    var r := Rooted(dir);
    if dir == "" {
      SegmentsOfSimple(file);
      assert Elements(false, [file]) == [file] by {
        assert [file][..0] == [];
      }
      assert Elements(false, [""]) == [] by {
        assert [""][..0] == [];
      }
    } else {
      SegmentsAppend(dir, file);
      var s := Segments(dir);
      assert (s + [file])[..|s|] == s;
      var es := Elements(r, s);
      assert Elements(r, s + [file]) == es + [file];
      assert (es + [file])[..|es|] == es;
    }
  }

  predicate EndsWithSlash(s: string) { s == "" || s[|s| - 1] == '/' }

  lemma CleanTail(dir: string, tail: string)
    requires dir != "" && '/' !in tail
    ensures Clean(dir + "/" + tail)
         == Render(Rooted(dir), Push(Rooted(dir), Elements(Rooted(dir), Segments(dir)), tail))
  {
    SegmentsAppend(dir, tail);
    ElementsStep(Rooted(dir), Segments(dir), tail);
  }

  /** Cleaning drops empty elements. */
  lemma CleanDropsEmpty(dir: string)
    requires dir != ""
    ensures Clean(dir + "/") == Clean(dir)
  {
    CleanTail(dir, "");
    assert dir + "/" + "" == dir + "/";
  }

  /** Cleaning drops dots. */
  lemma CleanDropsDot(dir: string)
    requires dir != ""
    ensures Clean(dir + "/.") == Clean(dir)
  {
    CleanTail(dir, ".");
    assert dir + "/" + "." == dir + "/.";
  }

  /** Two dots take back the element before them. */
  lemma CleanTakesBack(dir: string, file: string)
    requires dir != "" && Simple(file)
    ensures Clean(dir + "/" + file + "/..") == Clean(dir)
  {
    SegmentsAppend(dir, file);
    ElementsStep(Rooted(dir), Segments(dir), file);
    CleanTail(dir + "/" + file, "..");
    assert dir + "/" + file + "/" + ".." == dir + "/" + file + "/..";
  }

  lemma ElementsStep(rooted: bool, segments: seq<string>, segment: string)
    ensures Elements(rooted, segments + [segment]) == Push(rooted, Elements(rooted, segments), segment)
  {
    assert (segments + [segment])[..|segments|] == segments;
  }

  lemma NoSlashInside(longer: string, p: string, f: string)
    requires '/' !in f && EndsWithSlash(longer) && |p| < |longer| <= |p + f|
    ensures longer != (p + f)[..|longer|]
  {
    assert (p + f)[|longer| - 1] == f[|longer| - 1 - |p|];
  }

  lemma SplitAtSlash(p1: string, f1: string, p2: string, f2: string)
    requires '/' !in f1 && '/' !in f2 && EndsWithSlash(p1) && EndsWithSlash(p2)
    requires p1 + f1 == p2 + f2
    ensures p1 == p2 && f1 == f2
  {
    var s := p1 + f1;
    assert p1 == s[..|p1|] && p2 == s[..|p2|];
    if |p1| > |p2| {
      NoSlashInside(p1, p2, f2);
    } else if |p2| > |p1| {
      NoSlashInside(p2, p1, f1);
    }
    assert p1 == s[..|p1|] && f1 == s[|p1|..];
    assert p2 == s[..|p2|] && f2 == s[|p2|..];
  }

  /** Cleaned paths render equal exactly when their prefixes are equal. */
  lemma RenderTellsPrefix(r1: bool, e1: seq<string>, r2: bool, e2: seq<string>)
    requires forall e :: e in e1 ==> Element(e)
    requires forall e :: e in e2 ==> Element(e)
    ensures Render(r1, e1) == Render(r2, e2) <==> Prefix(r1, e1) == Prefix(r2, e2)
  {
    RenderShape(r1, e1);
    RenderShape(r2, e2);
    if Prefix(r1, e1) == Prefix(r2, e2) && e1 != [] && e2 != [] {
      assert Render(r1, e1) == (Render(r1, e1) + "/")[..|Prefix(r1, e1)| - 1];
      assert Render(r2, e2) == (Render(r2, e2) + "/")[..|Prefix(r2, e2)| - 1];
    }
  }

  lemma RenderShape(r: bool, es: seq<string>)
    requires forall e :: e in es ==> Element(e)
    ensures es != [] ==> Prefix(r, es) == Render(r, es) + "/"
    ensures es != [] ==> Render(r, es) != "" && Render(r, es) != "." && Render(r, es) != "/"
    ensures EndsWithSlash(Prefix(r, es))
  {
    if es != [] {
      var last := es[|es| - 1];
      assert last in es;
      var p := Prefix(r, es[..|es| - 1]);
      assert Prefix(r, es) == p + last + "/";
      assert Render(r, es)[|Render(r, es)| - 1] == last[|last| - 1];
      PrefixEndsWithSlash(r, es[..|es| - 1]);
    }
  }

  lemma PrefixEndsWithSlash(r: bool, es: seq<string>)
    ensures EndsWithSlash(Prefix(r, es))
  {
  }

  /** Two joined paths are equal exactly when the cleaned directories and the file names are. */
  lemma JoinIsInjective(d1: string, f1: string, d2: string, f2: string)
    requires Simple(f1) && Simple(f2)
    ensures Join(d1, f1) == Join(d2, f2) <==> Clean(d1) == Clean(d2) && f1 == f2
  {
    var r1, r2 := Rooted(d1), Rooted(d2);
    var e1, e2 := Elements(r1, Segments(d1)), Elements(r2, Segments(d2));
    JoinIsPrefixed(d1, f1);
    JoinIsPrefixed(d2, f2);
    SegmentsSlashFree(d1);
    SegmentsSlashFree(d2);
    ElementsAreElements(r1, Segments(d1));
    ElementsAreElements(r2, Segments(d2));
    RenderTellsPrefix(r1, e1, r2, e2);
    PrefixEndsWithSlash(r1, e1);
    PrefixEndsWithSlash(r2, e2);
    if Join(d1, f1) == Join(d2, f2) {
      SplitAtSlash(Prefix(r1, e1), f1, Prefix(r2, e2), f2);
    }
  }
}
