/** The file tools agents use: saving content under `outputs/`, loading it
    back from the first of three places it may be, listing a directory, and
    rendering and saving a report. The file system is a value of paths to
    files and a set of directory paths; sizes and modification times are
    what the operating system reports, and the clock is a parameter. */
module FileTools {
  import opened Wrappers
  import opened Text
  import opened Paths
  import opened Sorting
  import opened OrderedMaps
  import opened Agents
  import opened JsonText

  const OUTPUT_DIR := "outputs"
  const DATA_DIR := "data"

  /** The message `json.load` raises for text that does not start with a
      JSON value. */
  const JSON_DECODE_ERROR := "Expecting value: line 1 column 1 (char 0)"

  /** One reading of the clock in the three forms the tools print it:
      `isoformat()`, `%Y-%m-%d %H:%M:%S` and `%Y%m%d_%H%M%S`. */
  datatype Clock = Clock(iso: string, seconds: string, compact: string)

  /** What a file holds: text, or a JSON object together with the text
      that encodes it. */
  datatype Body = Raw(text: string) | Json(doc: Dict, text: string)

  /** A file with what `os.stat` reports about it. */
  datatype FileInfo = FileInfo(body: Body, size: nat, modified: string)

  /** The file system: files by path, and the directories that exist. The
      working directory is the empty path and always exists. */
  datatype Disk = Disk(files: map<string, FileInfo>, dirs: set<string>)

  /** `os.path.exists(p)`. */
  predicate Exists(d: Disk, p: string) {
    p in d.files || p in d.dirs
  }

  /** `os.path.isfile(p)`. */
  predicate IsFile(d: Disk, p: string) {
    p in d.files && p !in d.dirs
  }

  /** The number of bytes `s` takes in UTF-8. */
  function Utf8Length(s: string): (n: nat)
    ensures |s| <= n <= 4 * |s|
  {
    if |s| == 0 then 0
    else
      var c := s[0] as int;
      (if c < 0x80 then 1 else if c < 0x800 then 2 else if c < 0x10000 then 3 else 4) + Utf8Length(s[1..])
  }

  /** `str(e)` of an `OSError` about `path`. */
  function OsError(errno: nat, reason: string, path: string): string {
    "[Errno " + NatToString(errno) + "] " + reason + ": '" + path + "'"
  }

  /** The directory a path lies in: empty for the working directory. */
  function ParentDir(p: string): (r: string)
    ensures |r| <= |p|
  {
    var i := LastIndexOf(p, '/');
    if i < 0 then "" else if i == 0 then "/" else p[..i]
  }

  // ---------------------------------------------------------------------
  // save_content

  /** The saved file's name: `.file_type` is appended unless the name
      already ends with it. */
  function SaveName(filename: string, fileType: string): (r: string)
    ensures EndsWith(r, "." + fileType)
    ensures EndsWith(filename, "." + fileType) ==> r == filename
    ensures !EndsWith(filename, "." + fileType) ==> r == filename + "." + fileType
  {
    if EndsWith(filename, "." + fileType) then filename
    else
      var r := filename + "." + fileType;
      assert r[|filename|..] == "." + fileType;
      r
  }

  /** Naming a file twice names it once. */
  lemma SaveNameIdempotent(filename: string, fileType: string)
    ensures SaveName(SaveName(filename, fileType), fileType) == SaveName(filename, fileType)
  {
  }

  /** Where the content is written: the saved name under `outputs`. */
  function SavePath(filename: string, fileType: string): (r: string)
    ensures EndsWith(r, "." + fileType)
    ensures !StartsWith(filename, "/") ==> r == OUTPUT_DIR + "/" + SaveName(filename, fileType)
  {
    var name := SaveName(filename, fileType);
    if StartsWith(filename, "/") then
      assert StartsWith(name, "/");
      JoinPath(OUTPUT_DIR, name)
    else
      assert !StartsWith(name, "/") by {
        if !EndsWith(filename, "." + fileType) && filename == "" { assert name[0] == '.'; }
      }
      JoinPath(OUTPUT_DIR, name)
  }

  /** What `json.dump(…, indent=2)` writes for a saved JSON file. */
  function SavedJson(content: string, timestamp: string): Body {
    Json(
      Empty<string, Data>().Put("content", Text(content)).Put("timestamp", Text(timestamp)),
      Object([("content", Quote(content)), ("timestamp", Quote(timestamp))], 0))
  }

  /** The body written: the JSON object for type `json`, else the text. */
  function SavedBody(content: string, fileType: string, clock: Clock): Body {
    if fileType == "json" then SavedJson(content, clock.iso) else Raw(content)
  }

  /** The message of a successful save. */
  function SavedMessage(path: string): string {
    "Content successfully saved to " + path
  }

  /** The disk after a tool call and the text the tool returns. */
  datatype Outcome = Outcome(disk: Disk, message: string)

  /** The error `SaveContentTool._run` meets, if any, when `outputs` has
      already been created where it was missing: `outputs` is a file, the
      file's directory is missing or is a file, or the path is a
      directory. */
  function SaveError(d: Disk, path: string): Option<string> {
    var parent := ParentDir(path);
    if OUTPUT_DIR in d.files then Some(OsError(17, "File exists", OUTPUT_DIR))
    else if parent != "" && parent !in d.dirs + {OUTPUT_DIR} then
      if parent in d.files then Some(OsError(20, "Not a directory", path))
      else Some(OsError(2, "No such file or directory", path))
    else if path in d.dirs + {OUTPUT_DIR} then Some(OsError(21, "Is a directory", path))
    else None
  }

  /** `SaveContentTool._run`: create `outputs` if missing, then write the
      file. A failed call leaves every file as it was; a successful one
      writes the file at the save path and no other. */
  function SaveFile(d: Disk, content: string, filename: string, fileType: string, clock: Clock): (r: Outcome)
    ensures var path := SavePath(filename, fileType);
            var e := SaveError(d, path);
            && r.message == (if e.Some? then "Error saving file: " + e.value else SavedMessage(path))
            && (OUTPUT_DIR in d.files ==> r.disk == d)
            && (OUTPUT_DIR !in d.files ==> r.disk.dirs == d.dirs + {OUTPUT_DIR})
            && (e.Some? ==> r.disk.files == d.files)
            && (e.None? ==> r.disk.files.Keys == d.files.Keys + {path})
            && (e.None? ==> r.disk.files[path].body == SavedBody(content, fileType, clock))
            && (e.None? ==> forall p :: p in d.files && p != path ==> r.disk.files[p] == d.files[p])
  {
    var path := SavePath(filename, fileType);
    if OUTPUT_DIR in d.files then Outcome(d, "Error saving file: " + SaveError(d, path).value)
    else
      var d1 := d.(dirs := d.dirs + {OUTPUT_DIR});
      var e := SaveError(d, path);
      if e.Some? then Outcome(d1, "Error saving file: " + e.value)
      else
        var body := SavedBody(content, fileType, clock);
        Outcome(d1.(files := d1.files[path := FileInfo(body, Utf8Length(body.text), clock.seconds)]), SavedMessage(path))
  }

  /** A save into `outputs` succeeds whenever `outputs` is not a file, the
      name is plain, and no directory has the saved name. */
  lemma SaveSucceeds(d: Disk, content: string, filename: string, fileType: string, clock: Clock)
    requires OUTPUT_DIR !in d.files
    requires '/' !in filename && '/' !in fileType
    requires OUTPUT_DIR + "/" + SaveName(filename, fileType) !in d.dirs
    ensures SaveFile(d, content, filename, fileType, clock).message == SavedMessage(SavePath(filename, fileType))
  {
    var name := SaveName(filename, fileType);
    assert !StartsWith(filename, "/") by {
      if |filename| > 0 { assert filename[0] in filename; }
    }
    assert '/' !in name by {
      if !EndsWith(filename, "." + fileType) { DottedNameIsPlain(filename, fileType); }
    }
    var path := SavePath(filename, fileType);
    assert path == OUTPUT_DIR + "/" + name;
    ParentOfPlain(OUTPUT_DIR, name);
    assert SaveError(d, path).None?;
  }

  /** The directory of `dir/name` is `dir` when `name` is plain. */
  lemma ParentOfPlain(dir: string, name: string)
    requires dir != "" && '/' !in name
    ensures ParentDir(dir + "/" + name) == dir
  {
    var path := dir + "/" + name;
    assert path[|dir|] == '/';
    assert forall j :: |dir| < j < |path| ==> path[j] == name[j - |dir| - 1];
    assert LastIndexOf(path, '/') == |dir|;
    assert path[..|dir|] == dir;
  }

  // ---------------------------------------------------------------------
  // load_content

  /** The places a file is looked for, in order. */
  function Candidates(filename: string): (r: seq<string>)
    ensures |r| == 3 && r[0] == filename
  {
    [filename, JoinPath(OUTPUT_DIR, filename), JoinPath(DATA_DIR, filename)]
  }

  /** The first of `paths` that exists. */
  function FirstExisting(d: Disk, paths: seq<string>): (r: Option<nat>)
    ensures r.Some? ==> r.value < |paths| && Exists(d, paths[r.value])
    ensures r.Some? ==> forall j :: 0 <= j < r.value ==> !Exists(d, paths[j])
    ensures r.None? <==> forall j :: 0 <= j < |paths| ==> !Exists(d, paths[j])
  {
    if |paths| == 0 then None
    else if Exists(d, paths[0]) then Some(0)
    else
      var r := FirstExisting(d, paths[1..]);
      assert forall j :: 1 <= j < |paths| ==> paths[j] == paths[1..][j - 1];
      if r.Some? then Some(r.value + 1) else None
  }

  /** Reading an existing path: a directory cannot be opened; a `.json`
      file yields its `content` member, or the printed object when it has
      none; any other file yields its text as text mode reads it, with
      universal newlines. */
  function ReadFile(d: Disk, p: string): string
    requires Exists(d, p)
  {
    if p in d.dirs then "Error loading file: " + OsError(21, "Is a directory", p)
    else
      var body := d.files[p].body;
      if EndsWith(p, ".json") then
        match body
        case Json(doc, _) => Get(doc, "content", Text(DictRepr(doc))).Show()
        case Raw(_) => "Error loading file: " + JSON_DECODE_ERROR
      else UniversalNewlines(body.text)
  }

  /** What saved `content` reads back as: exactly the content through the
      JSON object, and with its line breaks translated otherwise. */
  function ReadBack(content: string, fileType: string): (r: string)
    ensures fileType == "json" || '\r' !in content ==> r == content
    ensures fileType != "json" ==> '\r' !in r && Unbroken(r) == Unbroken(content)
  {
    if fileType == "json" then content
    else
      UniversalNewlinesKeepsText(content);
      UniversalNewlines(content)
  }

  /** `LoadContentTool._run`. */
  function LoadText(d: Disk, filename: string): string {
    var paths := Candidates(filename);
    var i := FirstExisting(d, paths);
    if i.None? then "File not found: " + filename else ReadFile(d, paths[i.value])
  }

  /** The name as given wins over `outputs/` and `data/`, and `outputs/`
      wins over `data/`; nothing found is reported by name. */
  lemma LoadOrder(d: Disk, filename: string)
    ensures Exists(d, filename) ==> LoadText(d, filename) == ReadFile(d, filename)
    ensures !Exists(d, filename) && Exists(d, JoinPath(OUTPUT_DIR, filename)) ==>
              LoadText(d, filename) == ReadFile(d, JoinPath(OUTPUT_DIR, filename))
    ensures !Exists(d, filename) && !Exists(d, JoinPath(OUTPUT_DIR, filename)) && Exists(d, JoinPath(DATA_DIR, filename)) ==>
              LoadText(d, filename) == ReadFile(d, JoinPath(DATA_DIR, filename))
    ensures (LoadText(d, filename) == "File not found: " + filename) <==
              (!Exists(d, filename) && !Exists(d, JoinPath(OUTPUT_DIR, filename)) && !Exists(d, JoinPath(DATA_DIR, filename)))
  {
    var paths := Candidates(filename);
    assert paths[1] == JoinPath(OUTPUT_DIR, filename) && paths[2] == JoinPath(DATA_DIR, filename);
    var i := FirstExisting(d, paths);
    if Exists(d, paths[0]) {
      assert i == Some(0);
    } else if Exists(d, paths[1]) {
      assert i == Some(1);
    } else if Exists(d, paths[2]) {
      assert i == Some(2);
    } else {
      assert i == None;
    }
  }

  /** A JSON file is saved under a `.json` name. */
  lemma JsonSavePath(filename: string)
    ensures EndsWith(SavePath(filename, "json"), ".json")
  {
    assert "." + "json" == ".json";
  }

  /** What the save writes reads back as the content: exactly, through the
      `content` member of the JSON object for type `json`; as the text with
      universal newlines otherwise, so unchanged when it holds no "\r". */
  lemma SavedBodyReadsBack(d: Disk, path: string, content: string, fileType: string, clock: Clock)
    requires path in d.files && path !in d.dirs && d.files[path].body == SavedBody(content, fileType, clock)
    requires fileType == "json" || !EndsWith(path, ".json")
    requires fileType == "json" ==> EndsWith(path, ".json")
    ensures ReadFile(d, path) == ReadBack(content, fileType)
  {
    if fileType == "json" {
      var doc := Empty<string, Data>().Put("content", Text(content)).Put("timestamp", Text(clock.iso));
      assert "content" in doc.items && doc.items["content"] == Text(content);
      assert d.files[path].body.doc == doc;
    }
  }

  /** A save that reports success wrote its body at the save path, which
      is not a directory. */
  lemma SaveWrites(d: Disk, content: string, filename: string, fileType: string, clock: Clock)
    ensures var o := SaveFile(d, content, filename, fileType, clock);
            var path := SavePath(filename, fileType);
            o.message == SavedMessage(path) ==>
              path in o.disk.files && path !in o.disk.dirs && o.disk.files[path].body == SavedBody(content, fileType, clock)
  {
    var o := SaveFile(d, content, filename, fileType, clock);
    var path := SavePath(filename, fileType);
    if SaveError(d, path).Some? {
      assert o.message[0] == 'E';
    }
  }

  /** A written body loads back by its path, and by its name alone when
      that path is `outputs/` + the name and the name is not in the
      working directory. */
  lemma WrittenLoadsBack(d: Disk, path: string, name: string, content: string, fileType: string, clock: Clock)
    requires path in d.files && path !in d.dirs && d.files[path].body == SavedBody(content, fileType, clock)
    requires fileType == "json" || !EndsWith(path, ".json")
    requires fileType == "json" ==> EndsWith(path, ".json")
    ensures LoadText(d, path) == ReadBack(content, fileType)
    ensures JoinPath(OUTPUT_DIR, name) == path && !Exists(d, name) ==> LoadText(d, name) == ReadBack(content, fileType)
  {
    SavedBodyReadsBack(d, path, content, fileType, clock);
    LoadOrder(d, path);
    LoadOrder(d, name);
  }

  /** Saved content loads back: through the path the save reports, and
      through the saved name when no file or directory of that name is in
      the working directory. A text file reads back with universal
      newlines. A file saved with another type whose name ends in `.json`
      is the exception: its text is not JSON. */
  lemma SaveThenLoad(d: Disk, content: string, filename: string, fileType: string, clock: Clock)
    requires fileType == "json" || !EndsWith(SavePath(filename, fileType), ".json")
    ensures var o := SaveFile(d, content, filename, fileType, clock);
            var path := SavePath(filename, fileType);
            o.message == SavedMessage(path) ==>
              && LoadText(o.disk, path) == ReadBack(content, fileType)
              && (!StartsWith(filename, "/") && !Exists(o.disk, SaveName(filename, fileType)) ==>
                    LoadText(o.disk, SaveName(filename, fileType)) == ReadBack(content, fileType))
  {
    var o := SaveFile(d, content, filename, fileType, clock);
    var path := SavePath(filename, fileType);
    SaveWrites(d, content, filename, fileType, clock);
    if fileType == "json" {
      JsonSavePath(filename);
    }
    if o.message == SavedMessage(path) {
      WrittenLoadsBack(o.disk, path, SaveName(filename, fileType), content, fileType, clock);
    }
  }

  // ---------------------------------------------------------------------
  // list_files

  /** `os.listdir(dir)`: the names of the entries directly inside `dir`. */
  function Entries(d: Disk, dir: string): set<string> {
    var prefix := JoinPath(dir, "");
    set p | p in d.files.Keys + d.dirs && StartsWith(p, prefix) && |p| > |prefix| && '/' !in p[|prefix|..] :: p[|prefix|..]
  }

  /** Whether a file type was asked for: `if file_type:`. */
  predicate Typed(fileType: Option<string>) {
    fileType.Some? && fileType.value != ""
  }

  /** The entries kept: those ending in `.file_type` when a type is asked
      for, all of them otherwise. */
  function Filtered(names: set<string>, fileType: Option<string>): (r: set<string>)
    ensures r <= names
    ensures Typed(fileType) ==> forall n :: n in r <==> n in names && EndsWith(n, "." + fileType.value)
    ensures !Typed(fileType) ==> r == names
  {
    if Typed(fileType) then set n | n in names && EndsWith(n, "." + fileType.value) else names
  }

  /** One line of the listing. */
  function FileLine(name: string, info: FileInfo): string {
    name + " (" + NatToString(info.size) + " bytes, modified: " + info.modified + ")"
  }

  /** The lines for the files among `names`, in order; directories are
      skipped. */
  function FileLines(d: Disk, dir: string, names: seq<string>): (r: seq<string>)
    ensures |r| <= |names|
  {
    if |names| == 0 then []
    else
      var init := FileLines(d, dir, names[..|names| - 1]);
      var name := names[|names| - 1];
      var p := JoinPath(dir, name);
      if IsFile(d, p) then init + [FileLine(name, d.files[p])] else init
  }

  /** The names `list_files` shows, in the order it shows them: the kept
      entries in sorted order, directories skipped. */
  function ListedNames(d: Disk, dir: string, names: seq<string>): (r: seq<string>)
    ensures |r| == |FileLines(d, dir, names)|
    ensures forall i :: 0 <= i < |r| ==> IsFile(d, JoinPath(dir, r[i])) && FileLines(d, dir, names)[i] == FileLine(r[i], d.files[JoinPath(dir, r[i])])
    ensures forall n :: n in r <==> n in names && IsFile(d, JoinPath(dir, n))
  {
    if |names| == 0 then []
    else
      var init := ListedNames(d, dir, names[..|names| - 1]);
      var name := names[|names| - 1];
      assert forall n :: n in names <==> n in names[..|names| - 1] || n == name;
      if IsFile(d, JoinPath(dir, name)) then init + [name] else init
  }

  /** `ListFilesTool._run`. */
  function ListingText(d: Disk, dir: string, fileType: Option<string>): string {
    if !Exists(d, dir) then "Directory not found: " + dir
    else if dir !in d.dirs then "Error listing files: " + OsError(20, "Not a directory", dir)
    else
      var names := Filtered(Entries(d, dir), fileType);
      if names == {} then
        "No files found in " + dir + (if Typed(fileType) then " with type " + fileType.value else "")
      else "Files in " + dir + ":\n" + Join(FileLines(d, dir, SortedSet(names)), "\n")
  }

  /** A listing of an existing directory shows one line per kept file, in
      increasing order of name, each name once; the kept names are those
      ending in `.file_type` when a type is asked for. With no kept name the
      reply says that no files were found, naming the type when one is asked
      for. */
  lemma ListingOrder(d: Disk, dir: string, fileType: Option<string>)
    requires dir in d.dirs
    ensures var names := Filtered(Entries(d, dir), fileType);
            var shown := ListedNames(d, dir, SortedSet(names));
            && (names == {} ==>
                  ListingText(d, dir, fileType) == "No files found in " + dir + (if Typed(fileType) then " with type " + fileType.value else ""))
            && (names != {} ==> ListingText(d, dir, fileType) == "Files in " + dir + ":\n" + Join(FileLines(d, dir, SortedSet(names)), "\n"))
            && SortedBy(shown, StrLe)
            && (forall i, j :: 0 <= i < j < |shown| ==> shown[i] != shown[j])
            && (forall n :: n in shown <==>
                  (n in Entries(d, dir) && IsFile(d, JoinPath(dir, n)) && (Typed(fileType) ==> EndsWith(n, "." + fileType.value))))
  {
    var names := Filtered(Entries(d, dir), fileType);
    SubsequenceSorted(d, dir, SortedSet(names));
  }

  /** The listed names keep the order and distinctness of the names they
      are taken from. */
  lemma {:induction false} SubsequenceSorted(d: Disk, dir: string, names: seq<string>)
    requires SortedBy(names, StrLe)
    requires forall i, j :: 0 <= i < j < |names| ==> names[i] != names[j]
    ensures SortedBy(ListedNames(d, dir, names), StrLe)
    ensures forall i, j :: 0 <= i < j < |ListedNames(d, dir, names)| ==> ListedNames(d, dir, names)[i] != ListedNames(d, dir, names)[j]
  {
    if |names| > 0 {
      var init := names[..|names| - 1];
      var last := names[|names| - 1];
      SubsequenceSorted(d, dir, init);
      var r := ListedNames(d, dir, init);
      forall n | n in r ensures StrLe(n, last) && n != last {
        var k :| 0 <= k < |init| && init[k] == n;
        assert names[k] == n;
      }
      if IsFile(d, JoinPath(dir, last)) {
        SnocSorted(r, last);
      }
    }
  }

  /** A sorted list of distinct names stays so when a name after all of
      them is added at the end. */
  lemma SnocSorted(r: seq<string>, x: string)
    requires SortedBy(r, StrLe) && forall i, j :: 0 <= i < j < |r| ==> r[i] != r[j]
    requires forall n :: n in r ==> StrLe(n, x) && n != x
    ensures SortedBy(r + [x], StrLe) && forall i, j :: 0 <= i < j < |r + [x]| ==> (r + [x])[i] != (r + [x])[j]
  {
    forall i, j | 0 <= i < j < |r + [x]| ensures StrLe((r + [x])[i], (r + [x])[j]) && (r + [x])[i] != (r + [x])[j] {
      assert (r + [x])[i] == r[i];
      if j == |r| {
        assert r[i] in r;
      }
    }
  }

  // ---------------------------------------------------------------------
  // create_report

  /** The report format `format_type` selects; anything else than
      `markdown` and `json` is plain text. */
  datatype ReportFormat = Markdown | JsonReport | PlainText

  function FormatOf(formatType: string): ReportFormat {
    if formatType == "markdown" then Markdown
    else if formatType == "json" then JsonReport
    else PlainText
  }

  /** The title lines of a markdown or text report. */
  function Header(format: ReportFormat, title: string, timestamp: string): string {
    if format == Markdown then "# " + title + "\n\n" + "*Generated on " + timestamp + "*\n\n"
    else title + "\n" + Repeat('=', |title|) + "\n\n" + "Generated on " + timestamp + "\n\n"
  }

  /** The lines of one section of a markdown or text report; in text the
      section title is underlined with as many dashes as it has
      characters. */
  function Block(format: ReportFormat, sectionTitle: string, content: string): string {
    if format == Markdown then "## " + sectionTitle + "\n\n" + content + "\n\n"
    else sectionTitle + "\n" + Repeat('-', |sectionTitle|) + "\n" + content + "\n\n"
  }

  /** The blocks of the sections, in dictionary order. */
  function SectionBlocks(format: ReportFormat, sections: OrderedMap<string, string>): (r: seq<string>)
    requires sections.Valid()
    ensures |r| == |sections.keys|
  {
    seq(|sections.keys|, i requires 0 <= i < |sections.keys| => Block(format, sections.keys[i], sections.items[sections.keys[i]]))
  }

  /** The texts of `parts` one after the other. */
  function Concat(parts: seq<string>): string {
    if |parts| == 0 then "" else Concat(parts[..|parts| - 1]) + parts[|parts| - 1]
  }

  /** The concatenation of the first `m` parts begins that of the first `n`,
      and part `m` follows it. */
  lemma {:induction false} ConcatPrefix(parts: seq<string>, m: nat, n: nat)
    requires m < n <= |parts|
    ensures |Concat(parts[..m]) + parts[m]| <= |Concat(parts[..n])|
    ensures Concat(parts[..n])[..|Concat(parts[..m])| + |parts[m]|] == Concat(parts[..m]) + parts[m]
    decreases n - m
  {
    assert parts[..n][..n - 1] == parts[..n - 1];
    if m < n - 1 {
      ConcatPrefix(parts, m, n - 1);
    } else {
      assert parts[..m + 1][..m] == parts[..m];
    }
  }

  /** The sections as `json.dumps` renders a dictionary inside the report. */
  function SectionMembers(sections: OrderedMap<string, string>): (r: seq<(string, string)>)
    requires sections.Valid()
    ensures |r| == |sections.keys|
  {
    seq(|sections.keys|, i requires 0 <= i < |sections.keys| => (sections.keys[i], Quote(sections.items[sections.keys[i]])))
  }

  /** The JSON report: title, timestamp and sections as one object. */
  function JsonReportText(title: string, timestamp: string, sections: OrderedMap<string, string>): string
    requires sections.Valid()
  {
    Object([("title", Quote(title)), ("timestamp", Quote(timestamp)), ("sections", Object(SectionMembers(sections), 1))], 0)
  }

  /** The report text for each format. */
  function ReportText(formatType: string, title: string, timestamp: string, sections: OrderedMap<string, string>): string
    requires sections.Valid()
  {
    var format := FormatOf(formatType);
    if format == JsonReport then JsonReportText(title, timestamp, sections)
    else Header(format, title, timestamp) + Concat(SectionBlocks(format, sections))
  }

  /** Part `i` of `parts` sits in their concatenation right after the parts
      before it. */
  lemma ConcatHolds(parts: seq<string>, i: nat)
    requires i < |parts|
    ensures |Concat(parts[..i])| + |parts[i]| <= |Concat(parts)|
    ensures Concat(parts)[|Concat(parts[..i])|..|Concat(parts[..i])| + |parts[i]|] == parts[i]
  {
    ConcatPrefix(parts, i, |parts|);
    assert parts[..|parts|] == parts;
  }

  /** A markdown or text report starts with its header and holds every
      section's block, one after the other in dictionary order: block `i`
      starts where the header and the blocks before it end. */
  lemma ReportSections(formatType: string, title: string, timestamp: string, sections: OrderedMap<string, string>, i: nat)
    requires sections.Valid() && i < |sections.keys| && FormatOf(formatType) != JsonReport
    ensures var format := FormatOf(formatType);
            var r := ReportText(formatType, title, timestamp, sections);
            var h := Header(format, title, timestamp);
            var blocks := SectionBlocks(format, sections);
            var o := |h| + |Concat(blocks[..i])|;
            && blocks[i] == Block(format, sections.keys[i], sections.items[sections.keys[i]])
            && StartsWith(r, h)
            && o + |blocks[i]| <= |r|
            && r[o..o + |blocks[i]|] == blocks[i]
  {
    var format := FormatOf(formatType);
    var h := Header(format, title, timestamp);
    var blocks := SectionBlocks(format, sections);
    ConcatHolds(blocks, i);
    SliceAfter(h, Concat(blocks), |Concat(blocks[..i])|, |blocks[i]|);
  }

  lemma SliceAfter(h: string, rest: string, o: nat, n: nat)
    requires o + n <= |rest|
    ensures StartsWith(h + rest, h)
    ensures (h + rest)[|h| + o..|h| + o + n] == rest[o..o + n]
  {
    assert (h + rest)[..|h|] == h;
  }

  /** The rendering step of `CreateReportTool._run`: the markdown and text
      reports are built up section by section. */
  method RenderReport(formatType: string, title: string, timestamp: string, sections: OrderedMap<string, string>)
    returns (report: string)
    requires sections.Valid()
    ensures report == ReportText(formatType, title, timestamp, sections)
  {
    var format := FormatOf(formatType);
    if format == JsonReport {
      return JsonReportText(title, timestamp, sections);
    }
    ghost var blocks := SectionBlocks(format, sections);
    report := Header(format, title, timestamp);
    for i := 0 to |sections.keys|
      invariant report == Header(format, title, timestamp) + Concat(blocks[..i])
    {
      var sectionTitle := sections.keys[i];
      assert blocks[..i + 1][..i] == blocks[..i];
      report := report + Block(format, sectionTitle, sections.items[sectionTitle]);
    }
    assert blocks[..|sections.keys|] == blocks;
  }

  /** The name a report is saved under, before its extension: the title
      lower-cased with spaces turned into underscores, between `report_`
      and the time. */
  function ReportName(title: string, clock: Clock): (r: string)
    ensures StartsWith(r, "report_") && EndsWith(r, "_" + clock.compact)
    ensures |r| == |"report_"| + |title| + 1 + |clock.compact|
    ensures forall i :: 0 <= i < |title| ==> r[|"report_"| + i] == if title[i] == ' ' then '_' else LowerChar(title[i])
  {
    var r := "report_" + ReplaceChar(Lower(title), ' ', '_') + "_" + clock.compact;
    assert r[|r| - |"_" + clock.compact|..] == "_" + clock.compact;
    r
  }

  /** The class around the disk: the tools read and write it in place. */
  class FileSystem {
    var files: map<string, FileInfo>
    var dirs: set<string>

    function Value(): Disk
      reads this
    {
      Disk(files, dirs)
    }

    constructor (d: Disk)
      ensures Value() == d
    {
      files := d.files;
      dirs := d.dirs;
    }

    /** `SaveContentTool._run`. */
    method Save(content: string, filename: string, fileType: string, clock: Clock) returns (message: string)
      modifies this
      ensures Outcome(Value(), message) == SaveFile(old(Value()), content, filename, fileType, clock)
    {
      if OUTPUT_DIR in files {
        return "Error saving file: " + OsError(17, "File exists", OUTPUT_DIR);
      }
      dirs := dirs + {OUTPUT_DIR};
      var path := SavePath(filename, fileType);
      var parent := ParentDir(path);
      if parent != "" && parent !in dirs {
        if parent in files {
          return "Error saving file: " + OsError(20, "Not a directory", path);
        }
        return "Error saving file: " + OsError(2, "No such file or directory", path);
      }
      if path in dirs {
        return "Error saving file: " + OsError(21, "Is a directory", path);
      }
      var body := SavedBody(content, fileType, clock);
      files := files[path := FileInfo(body, Utf8Length(body.text), clock.seconds)];
      message := SavedMessage(path);
    }

    /** `LoadContentTool._run`: the candidates are tried in order. */
    method Load(filename: string) returns (text: string)
      ensures text == LoadText(Value(), filename)
    {
      var paths := Candidates(filename);
      for i := 0 to |paths|
        invariant forall j :: 0 <= j < i ==> !Exists(Value(), paths[j])
      {
        if paths[i] in files || paths[i] in dirs {
          return ReadFile(Value(), paths[i]);
        }
      }
      return "File not found: " + filename;
    }

    /** `ListFilesTool._run`. */
    method ListFiles(directory: string, fileType: Option<string>) returns (text: string)
      ensures text == ListingText(Value(), directory, fileType)
    {
      if !(directory in files || directory in dirs) {
        return "Directory not found: " + directory;
      }
      if directory !in dirs {
        return "Error listing files: " + OsError(20, "Not a directory", directory);
      }
      var names := Filtered(Entries(Value(), directory), fileType);
      if names == {} {
        return "No files found in " + directory + (if Typed(fileType) then " with type " + fileType.value else "");
      }
      var lines := DescribeFiles(directory, SortedSet(names));
      text := "Files in " + directory + ":\n" + Join(lines, "\n");
    }

    /** The loop of `ListFilesTool._run` over the sorted names: one line
        per name that is a file. */
    method DescribeFiles(directory: string, ordered: seq<string>) returns (lines: seq<string>)
      ensures lines == FileLines(Value(), directory, ordered)
    {
      lines := [];
      for i := 0 to |ordered|
        invariant lines == FileLines(Value(), directory, ordered[..i])
      {
        assert ordered[..i + 1][..i] == ordered[..i];
        var p := JoinPath(directory, ordered[i]);
        if p in files && p !in dirs {
          lines := lines + [FileLine(ordered[i], files[p])];
        }
      }
      assert ordered[..|ordered|] == ordered;
    }

    /** `CreateReportTool._run`: render the report, save it under its
      report name with the format as extension, and announce it as
      created whatever the save returned. */
    method CreateReport(title: string, sections: OrderedMap<string, string>, formatType: string, clock: Clock)
      returns (message: string)
      requires sections.Valid()
      modifies this
      ensures var o := SaveFile(old(Value()), ReportText(formatType, title, clock.seconds, sections),
                                ReportName(title, clock), formatType, clock);
              Value() == o.disk && message == "Report created successfully.\n" + o.message
    {
      var report := RenderReport(formatType, title, clock.seconds, sections);
      var saved := Save(report, ReportName(title, clock), formatType, clock);
      message := "Report created successfully.\n" + saved;
    }
  }

  /** A report is saved with its format as extension (so a markdown report
      ends in `.markdown`), and when the save succeeds it loads back as
      the rendered report, with universal newlines unless it is JSON. */
  lemma ReportSaved(d: Disk, title: string, sections: OrderedMap<string, string>, formatType: string, clock: Clock)
    requires sections.Valid()
    requires formatType == "json" || !EndsWith(SavePath(ReportName(title, clock), formatType), ".json")
    ensures var report := ReportText(formatType, title, clock.seconds, sections);
            var path := SavePath(ReportName(title, clock), formatType);
            var o := SaveFile(d, report, ReportName(title, clock), formatType, clock);
            && EndsWith(path, "." + formatType)
            && (o.message == SavedMessage(path) ==> LoadText(o.disk, path) == ReadBack(report, formatType))
  {
    SaveThenLoad(d, ReportText(formatType, title, clock.seconds, sections), ReportName(title, clock), formatType, clock);
  }
}
