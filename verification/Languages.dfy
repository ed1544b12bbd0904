/** Which language a file is in, by its extension (crates/visp-codegraph/src/parser.rs and index.rs). */
module Languages {
  import opened Collections

  /** What is before and after the last occurrence of `c`. */
  function SplitLast(s: string, c: char): Option<(string, string)> {
    if s == [] then None
    else
      var init, last := s[..|s| - 1], s[|s| - 1];
      if last == c then Some((init, ""))
      else match SplitLast(init, c)
        case None => None
        case Some(parts) => Some((parts.0, parts.1 + [last]))
  }

  function FileName(path: string): string {
    match SplitLast(path, '/') case None => path case Some(parts) => parts.1
  }

  /** What follows the last dot of the file name, if something is before it. */
  function Extension(path: string): Option<string> {
    if FileName(path) == ".." then None
    else match SplitLast(FileName(path), '.')
      case None => None
      case Some(parts) => if parts.0 == "" then None else Some(parts.1)
  }

  /** The language a file is parsed in; no other file is supported. */
  function LanguageOf(path: string): Option<string> {
    match Extension(path)
    case None => None
    case Some(ext) => LanguageFor(ext)
  }

  function LanguageFor(ext: string): Option<string> {
    match ext
    case "rs" => Some("rust")
    case "py" => Some("python")
    case "ts" | "tsx" => Some("typescript")
    case "c" | "h" => Some("c")
    case "cpp" | "hpp" | "cc" => Some("cpp")
    case "go" => Some("go")
    case _ => None
  }

  predicate EndsWith(s: string, suffix: string) {
    |suffix| <= |s| && s[|s| - |suffix|..] == suffix
  }

  /** The language a file is recorded under, by the end of its path. */
  function LanguageName(path: string): string {
    if EndsWith(path, ".rs") then "rust"
    else if EndsWith(path, ".py") then "python"
    else if EndsWith(path, ".ts") || EndsWith(path, ".tsx") then "typescript"
    else if EndsWith(path, ".c") || EndsWith(path, ".h") then "c"
    else if EndsWith(path, ".cpp") || EndsWith(path, ".hpp") || EndsWith(path, ".cc") then "cpp"
    else if EndsWith(path, ".go") then "go"
    else "unknown"
  }

  // ---- What the extension of a path is ----

  lemma {:induction false} SplitJoin(front: string, c: char, tail: string)
    requires c !in tail
    ensures SplitLast(front + [c] + tail, c) == Some((front, tail))
    decreases |tail|
  {
    var s := front + [c] + tail;
    if tail == [] {
      assert s[..|s| - 1] == front;
    } else {
      var init := tail[..|tail| - 1];
      assert s[..|s| - 1] == front + [c] + init;
      assert tail == init + [tail[|tail| - 1]];
      SplitJoin(front, c, init);
    }
  }

  /** In any directory the extension is what follows the last dot. */
  lemma ExtensionOf(dir: string, name: string, ext: string)
    requires name != "" && ext != "" && '/' !in name && '/' !in ext && '.' !in ext
    ensures Extension(name + ['.'] + ext) == Some(ext)
    ensures Extension(dir + ['/'] + (name + ['.'] + ext)) == Some(ext)
  {
    hide Extension;
    var file := name + ['.'] + ext;
    assert '/' !in file;
    SplitIs(file, '/');
    SplitJoin(name, '.', ext);
    FileExtension(file, name, ext);
    SplitJoin(dir, '/', file);
    FileExtension(dir + ['/'] + file, name, ext);
  }

  lemma FileExtension(path: string, name: string, ext: string)
    requires FileName(path) == name + ['.'] + ext && name != "" && ext != ""
    requires SplitLast(name + ['.'] + ext, '.') == Some((name, ext))
    ensures Extension(path) == Some(ext)
  {
    assert |FileName(path)| > 2;
  }

  /** The supported extensions and their languages. */
  lemma LanguageTable(ext: string)
    ensures LanguageFor("rs") == Some("rust") && LanguageFor("py") == Some("python") && LanguageFor("go") == Some("go")
    ensures LanguageFor("ts") == LanguageFor("tsx") == Some("typescript")
    ensures LanguageFor("c") == LanguageFor("h") == Some("c")
    ensures LanguageFor("cpp") == LanguageFor("hpp") == LanguageFor("cc") == Some("cpp")
    ensures LanguageFor(ext).Some? ==> ext in ["rs", "py", "go", "ts", "tsx", "c", "h", "cpp", "hpp", "cc"]
  {
  }

  // ---- The two agree ----

  lemma {:induction false} SplitIs(s: string, c: char)
    ensures SplitLast(s, c).None? ==> c !in s
    ensures SplitLast(s, c).Some? ==>
              var parts := SplitLast(s, c).value; s == parts.0 + [c] + parts.1 && c !in parts.1
  {
    if s != [] {
      var init, last := s[..|s| - 1], s[|s| - 1];
      assert s == init + [last];
      SplitIs(init, c);
      if last != c && SplitLast(init, c).Some? {
        var parts := SplitLast(init, c).value;
        assert s == parts.0 + [c] + (parts.1 + [last]);
      }
    }
  }

  /** A path with an extension ends with a dot and the extension, which has no dot. */
  lemma ExtensionIs(path: string)
    ensures Extension(path).Some? ==>
              var ext := Extension(path).value; '.' !in ext && exists before :: path == before + ['.'] + ext
  {
    SplitIs(path, '/');
    var name := FileName(path);
    SplitIs(name, '.');
    if Extension(path).Some? {
      var front := if SplitLast(path, '/').None? then "" else SplitLast(path, '/').value.0 + ['/'];
      assert path == front + name;
      var parts := SplitLast(name, '.').value;
      assert path == (front + parts.0) + ['.'] + parts.1;
    }
  }

  lemma LongerTailHasDot(a: string, s: string, b: string, t: string)
    requires a + ['.'] + s == b + ['.'] + t && |s| > |t|
    ensures '.' in s
  {
    var path := a + ['.'] + s;
    assert path[|b|] == (b + ['.'] + t)[|b|] == '.';
    assert path[|b|] == s[|b| - |a| - 1];
  }

  /** No other dotless ending fits. */
  lemma EndsWithIff(before: string, ext: string, other: string)
    requires '.' !in ext && '.' !in other
    ensures EndsWith(before + ['.'] + ext, ['.'] + other) <==> other == ext
  {
    var path := before + ['.'] + ext;
    assert path[|before|..] == ['.'] + ext;
    if EndsWith(path, ['.'] + other) {
      var front := path[..|path| - |other| - 1];
      assert path == front + ['.'] + other;
      if |ext| > |other| {
        LongerTailHasDot(before, ext, front, other);
      }
      if |other| > |ext| {
        LongerTailHasDot(front, other, before, ext);
      }
      assert path[|path| - |ext|..] == ext && path[|path| - |other|..] == other;
    }
  }

  /** A supported file is recorded under the language it is parsed in. */
  lemma RecordedAsParsed(path: string)
    ensures LanguageOf(path).Some? ==> LanguageName(path) == LanguageOf(path).value
  {
    hide EndsWith, Extension, LanguageName, LanguageFor;
    ExtensionIs(path);
    if Extension(path).Some? {
      var ext := Extension(path).value;
      var before :| path == before + ['.'] + ext;
      forall other | '.' !in other
        ensures EndsWith(path, ['.'] + other) <==> other == ext
      {
        EndsWithIff(before, ext, other);
      }
      Suffixes(path, ext);
      NamesFor(path, ext);
    }
  }

  lemma NamesFor(path: string, ext: string)
    requires EndsWith(path, ".rs") <==> ext == "rs"
    requires EndsWith(path, ".py") <==> ext == "py"
    requires EndsWith(path, ".ts") <==> ext == "ts"
    requires EndsWith(path, ".tsx") <==> ext == "tsx"
    requires EndsWith(path, ".c") <==> ext == "c"
    requires EndsWith(path, ".h") <==> ext == "h"
    requires EndsWith(path, ".cpp") <==> ext == "cpp"
    requires EndsWith(path, ".hpp") <==> ext == "hpp"
    requires EndsWith(path, ".cc") <==> ext == "cc"
    requires EndsWith(path, ".go") <==> ext == "go"
    ensures LanguageFor(ext).Some? ==> LanguageName(path) == LanguageFor(ext).value
  {
    hide EndsWith;
  }

  lemma Suffixes(path: string, ext: string)
    requires forall other | '.' !in other :: EndsWith(path, ['.'] + other) <==> other == ext
    ensures EndsWith(path, ".rs") <==> ext == "rs"
    ensures EndsWith(path, ".py") <==> ext == "py"
    ensures EndsWith(path, ".ts") <==> ext == "ts"
    ensures EndsWith(path, ".tsx") <==> ext == "tsx"
    ensures EndsWith(path, ".c") <==> ext == "c"
    ensures EndsWith(path, ".h") <==> ext == "h"
    ensures EndsWith(path, ".cpp") <==> ext == "cpp"
    ensures EndsWith(path, ".hpp") <==> ext == "hpp"
    ensures EndsWith(path, ".cc") <==> ext == "cc"
    ensures EndsWith(path, ".go") <==> ext == "go"
  {
    hide EndsWith;
    assert ['.'] + "rs" == ".rs" && ['.'] + "py" == ".py" && ['.'] + "ts" == ".ts" && ['.'] + "tsx" == ".tsx";
    assert ['.'] + "c" == ".c" && ['.'] + "h" == ".h" && ['.'] + "cpp" == ".cpp" && ['.'] + "hpp" == ".hpp";
    assert ['.'] + "cc" == ".cc" && ['.'] + "go" == ".go";
  }
}
