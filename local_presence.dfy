/** Presence bundles defined as local files: a changed file becomes a record of
    its name and its contents when its name ends in ".json" (parsed) or ".js"
    (kept as text); other files are skipped. */
module LocalPresence {
  import opened Types

  /** A JSON value. */
  datatype Value =
    | Null
    | Bool(b: bool)
    | Number(n: real)
    | String(s: string)
    | Array(items: seq<Value>)
    | Object(fields: map<string, Value>)

  datatype LocalFile = LocalFile(file: string, contents: Value)

  /** `LocalFiles::new(files)` is this constructor: it keeps `files` as given. */
  datatype LocalFiles = LocalFiles(files: seq<LocalFile>)

  /** A change notification for the file at `path`, with the text read from it. */
  datatype FileEvent = FileEvent(path: string, contents: string)

  predicate EndsWith(s: string, suffix: string)
  {
    |suffix| <= |s| && s[|s| - |suffix|..] == suffix
  }

  /** The last component of `path`: everything after its last '/'. */
  function FileName(path: string): (name: string)
    ensures '/' !in name
    ensures EndsWith(path, name)
    ensures |name| < |path| ==> path[|path| - |name| - 1] == '/'
  {
    if path == [] || path[|path| - 1] == '/' then []
    else
      var init := path[..|path| - 1];
      var prev := FileName(init);
      var name := prev + [path[|path| - 1]];
      assert path == init + [path[|path| - 1]];
      assert path[|path| - |name|..] == init[|init| - |prev|..] + [path[|path| - 1]];
      assert |name| < |path| ==> path[|path| - |name| - 1] == init[|init| - |prev| - 1];
      name
  }

  /** A path without separator is its own file name. */
  lemma {:induction false} FileNameWithoutSeparator(path: string)
    requires '/' !in path
    ensures FileName(path) == path
  {
    if path != [] {
      var init := path[..|path| - 1];
      assert '/' !in init by {
        forall c | c in init ensures c != '/' {
          var i :| 0 <= i < |init| && init[i] == c;
          assert path[i] == c;
        }
      }
      FileNameWithoutSeparator(init);
      assert path == init + [path[|path| - 1]];
    }
  }

  /** The file name of `dir/name` is `name`, whatever `dir` is. */
  lemma {:induction false} FileNameOfJoin(dir: string, name: string)
    requires '/' !in name
    ensures FileName(dir + "/" + name) == name
    decreases |name|
  {
    var path := dir + "/" + name;
    if name != [] {
      var init := name[..|name| - 1];
      assert '/' !in init by {
        forall c | c in init ensures c != '/' {
          var i :| 0 <= i < |init| && init[i] == c;
          assert name[i] == c;
        }
      }
      assert path[..|path| - 1] == dir + "/" + init;
      FileNameOfJoin(dir, init);
      assert name == init + [name[|name| - 1]];
    }
  }

  /** A ".json" name never ends in ".js", so the two arms of the classification
      never both apply. */
  lemma JsonIsNotJs(name: string)
    ensures EndsWith(name, ".json") ==> !EndsWith(name, ".js")
  {
    if EndsWith(name, ".json") {
      assert name[|name| - 1] == name[|name| - 5..][4] == 'n';
      assert |name| >= 3 && name[|name| - 3..][2] == name[|name| - 1];
    }
  }

  /** The name, after the last separator, of the file an event is about. */
  function EventName(e: FileEvent): string
  {
    FileName(e.path)
  }

  /** `LocalFile::new`: `parse` stands for the JSON parser, which the source
      unwraps (a malformed ".json" file panics). A file is kept iff its name ends
      in ".json" or ".js", under its own name; a ".json" file holds the parsed
      text and a ".js" file the raw text. */
  function NewLocalFile(e: FileEvent, parse: string -> Value): (r: Option<LocalFile>)
    ensures r.Some? <==> EndsWith(EventName(e), ".json") || EndsWith(EventName(e), ".js")
    ensures r.Some? ==> r.value.file == EventName(e)
    ensures EndsWith(EventName(e), ".json") ==> r == Some(LocalFile(EventName(e), parse(e.contents)))
    ensures EndsWith(EventName(e), ".js") ==> r == Some(LocalFile(EventName(e), String(e.contents)))
  {
    var file := FileName(e.path);
    JsonIsNotJs(file);
    if EndsWith(file, ".json") then Some(LocalFile(file, parse(e.contents)))
    else if EndsWith(file, ".js") then Some(LocalFile(file, String(e.contents)))
    else None
  }

  /** The present values of `rs`, in order: the `filter_map` filter. */
  function Somes<T>(rs: seq<Option<T>>): (xs: seq<T>)
    ensures |xs| <= |rs|
  {
    if rs == [] then [] else (if rs[0].Some? then [rs[0].value] else []) + Somes(rs[1..])
  }

  /** A value is kept iff it is present somewhere in `rs`. */
  lemma {:induction false} SomesMembers<T>(rs: seq<Option<T>>, x: T)
    ensures x in Somes(rs) <==> Some(x) in rs
  {
    if rs != [] {
      SomesMembers(rs[1..], x);
      assert rs == [rs[0]] + rs[1..];
    }
  }

  /** Filtering keeps order: the filter of a concatenation is the concatenation
      of the filters. */
  lemma {:induction false} SomesAppend<T>(a: seq<Option<T>>, b: seq<Option<T>>)
    ensures Somes(a + b) == Somes(a) + Somes(b)
  {
    if a == [] {
      assert a + b == b;
    } else {
      assert (a + b)[0] == a[0];
      assert (a + b)[1..] == a[1..] + b;
      SomesAppend(a[1..], b);
    }
  }

  /** `f` applied to every element of `xs`, in order: the `map` half of
      `filter_map`. */
  function Map<A, B>(xs: seq<A>, f: A -> B): (ys: seq<B>)
    ensures |ys| == |xs|
    ensures forall i :: 0 <= i < |xs| ==> ys[i] == f(xs[i])
  {
    seq(|xs|, i requires 0 <= i < |xs| => f(xs[i]))
  }

  lemma MapAppend<A, B>(a: seq<A>, b: seq<A>, f: A -> B)
    ensures Map(a + b, f) == Map(a, f) + Map(b, f)
  {
    forall i | 0 <= i < |a + b| ensures Map(a + b, f)[i] == (Map(a, f) + Map(b, f))[i] {
      if i < |a| {
        assert (a + b)[i] == a[i];
      } else {
        assert (a + b)[i] == b[i - |a|];
      }
    }
  }

  /** `LocalFile::new` as the closure the batch is mapped with. */
  function Classify(parse: string -> Value): FileEvent -> Option<LocalFile>
  {
    e => NewLocalFile(e, parse)
  }

  /** The `filter_map(..).collect()` over one batch of events: the records of the
      classified files, skipped ones dropped. */
  function CollectFiles(events: seq<FileEvent>, parse: string -> Value): (files: seq<LocalFile>)
    ensures |files| <= |events|
  {
    Somes(Map(events, Classify(parse)))
  }

  /** A record is collected iff some event of the batch classifies to it. */
  lemma CollectFilesMembers(events: seq<FileEvent>, parse: string -> Value, f: LocalFile)
    ensures f in CollectFiles(events, parse) <==>
              exists i :: 0 <= i < |events| && NewLocalFile(events[i], parse) == Some(f)
  {
    var rs := Map(events, Classify(parse));
    SomesMembers(rs, f);
    if Some(f) in rs {
      var i :| 0 <= i < |rs| && rs[i] == Some(f);
      assert NewLocalFile(events[i], parse) == Some(f);
    }
  }

  /** Collecting keeps event order: a batch split in two collects to the two
      halves' results one after the other. */
  lemma CollectFilesAppend(a: seq<FileEvent>, b: seq<FileEvent>, parse: string -> Value)
    ensures CollectFiles(a + b, parse) == CollectFiles(a, parse) + CollectFiles(b, parse)
  {
    MapAppend(a, b, Classify(parse));
    SomesAppend(Map(a, Classify(parse)), Map(b, Classify(parse)));
  }

  /** A batch reporting "dir/a.json" and "dir/b.js" yields two records in that
      order: the first with the parsed text, the second with the raw text. */
  lemma JsonThenJsBatch(dir: string, aText: string, bText: string, parse: string -> Value)
    ensures CollectFiles([FileEvent(dir + "/" + "a.json", aText), FileEvent(dir + "/" + "b.js", bText)], parse)
            == [LocalFile("a.json", parse(aText)), LocalFile("b.js", String(bText))]
  {
    var a := FileEvent(dir + "/" + "a.json", aText);
    var b := FileEvent(dir + "/" + "b.js", bText);
    JsonFileOfJoin(dir, aText, parse);
    JsFileOfJoin(dir, bText, parse);
    var fa, fb := LocalFile("a.json", parse(aText)), LocalFile("b.js", String(bText));
    var rs := [Some(fa), Some(fb)];
    assert Map([a, b], Classify(parse)) == rs;
    assert rs[1..] == [Some(fb)] && rs[1..][1..] == [];
    assert Somes(rs) == [fa] + Somes([Some(fb)]);
  }

  lemma JsonFileOfJoin(dir: string, text: string, parse: string -> Value)
    ensures NewLocalFile(FileEvent(dir + "/" + "a.json", text), parse)
            == Some(LocalFile("a.json", parse(text)))
  {
    assert '/' !in "a.json";
    FileNameOfJoin(dir, "a.json");
    assert "a.json"[1..] == ".json";
  }

  lemma JsFileOfJoin(dir: string, text: string, parse: string -> Value)
    ensures NewLocalFile(FileEvent(dir + "/" + "b.js", text), parse)
            == Some(LocalFile("b.js", String(text)))
  {
    assert '/' !in "b.js";
    FileNameOfJoin(dir, "b.js");
    assert "b.js"[1..] == ".js";
    assert !EndsWith("b.js", ".json");
  }
}
