/** The memory repository over its files: writes, the uniqueness check they make, and the active keyword catalog. */
module MemoryRepository {
  import opened Wrappers
  import opened Text
  import opened MemoryMarkdown
  import opened MemoryPaths

  datatype Files = Files(active: map<string, string>, passive: map<string, string>)

  datatype WriteRequest =
    WriteRequest(memoryType: MemoryType, path: string, title: string, content: string, keywords: seq<string>)

  /** The YAML library is faithful, and never prints a line that looks like a fence. */
  ghost predicate ReliableYaml(yaml: Yaml) {
    Faithful(yaml) && forall m: Metadata :: FenceFree(Trim(yaml.show(m)))
  }

  // ---- What a scan sees ------------------------------------------------------------------------

  function ActiveDocument(yaml: Yaml, active: map<string, string>, path: string): Result<Document, MemoryError>
    requires path in active
  {
    Parse(yaml, Active, path, active[path])
  }

  /** Every active file the scan takes parses. */
  predicate Readable(yaml: Yaml, active: map<string, string>) {
    forall p | p in active && ScanSees(p) :: ActiveDocument(yaml, active, p).Ok?
  }

  /** Some other active document that the scan sees has one of these keywords, ASCII case aside. */
  predicate Clashes(yaml: Yaml, active: map<string, string>, path: string, keywords: seq<string>)
    requires Readable(yaml, active)
  {
    exists p | p in active && ScanSees(p) && p != path ::
      SharesKeyword(keywords, ActiveDocument(yaml, active, p).value.metadata.keywords)
  }

  // ---- Writing -----------------------------------------------------------------------------------

  /** Everything `write` checks before it touches the disk: the normalized path and keywords. */
  function Validate(yaml: Yaml, files: Files, request: WriteRequest): Result<(string, seq<string>), MemoryError> {
    var path, keywords := ValidatePath(request.path), NormalizeKeywords(request.keywords);
    if path.None? then Err(BadPath)
    else if Trim(request.title) == "" then Err(BlankTitle)
    else if keywords.Err? then Err(keywords.error)
    else if request.memoryType.Passive? then
      if keywords.value != [] then Err(KeywordsForbidden) else Ok((path.value, []))
    else if keywords.value == [] then Err(KeywordsRequired)
    else if !Readable(yaml, files.active) then Err(Unreadable)
    else if Clashes(yaml, files.active, path.value, keywords.value) then Err(DuplicateKeyword)
    else Ok((path.value, keywords.value))
  }

  /** A rewrite keeps the creation time of a document that still parses. */
  function CreatedAt(yaml: Yaml, memoryType: MemoryType, files: map<string, string>, path: string, now: int): int {
    if path !in files then now
    else
      var existing := Parse(yaml, memoryType, path, files[path]);
      if existing.Ok? then existing.value.metadata.createdAt else now
  }

  function Of(files: Files, memoryType: MemoryType): map<string, string> {
    if memoryType.Active? then files.active else files.passive
  }

  function Put(files: Files, memoryType: MemoryType, path: string, raw: string): Files {
    if memoryType.Active? then files.(active := files.active[path := raw])
        else files.(passive := files.passive[path := raw])
  }

  /** `write`; a failing file system leaves the files as they were. */
  function Write(yaml: Yaml, files: Files, request: WriteRequest, now: int, diskFails: bool): (Files,
      Result<Document, MemoryError>)
  {
    var valid := Validate(yaml, files, request);
    if valid.Err? then (files, Err(valid.error))
    else if diskFails then (files, Err(IoError))
    else
      var (path, keywords) := valid.value;
      var createdAt := CreatedAt(yaml, request.memoryType, Of(files, request.memoryType), path, now);
      var metadata := Metadata(Trim(request.title), createdAt, now, keywords);
      (Put(files, request.memoryType, path, Render(yaml, metadata, request.memoryType, request.content)),
       Ok(Document(request.memoryType, path, metadata, request.content)))
  }

  /** A request, when it is made, and whether the disk fails it. */
  datatype Attempt = Attempt(request: WriteRequest, now: int, diskFails: bool)

  function WriteAll(yaml: Yaml, files: Files, attempts: seq<Attempt>): Files
    decreases |attempts|
  {
    if attempts == [] then files
    else WriteAll(yaml, Write(yaml, files, attempts[0].request, attempts[0].now, attempts[0].diskFails).0,
                  attempts[1..])
  }

  /** The keywords of an active document are some, and no other document that the scan sees has one of them. */
  predicate Indexable(yaml: Yaml, active: map<string, string>, path: string, keywords: seq<string>) {
    && keywords != []
    && forall p | p in active && ScanSees(p) ::
         && ActiveDocument(yaml, active, p).Ok?
         && (p != path ==> !SharesKeyword(keywords, ActiveDocument(yaml, active, p).value.metadata.keywords))
  }

  /**
   * A write is accepted exactly when its path names a document, its title is not blank, its keywords are normalized,
   * and they are none for a passive document and indexable for an active one; nothing else changes a file.
   */
  lemma AcceptedExactly(yaml: Yaml, files: Files, request: WriteRequest, now: int, diskFails: bool)
    ensures var (files', result), path := Write(yaml, files, request, now, diskFails), ValidatePath(request.path);
            && (result.Ok?
                <==> && !diskFails && path.Some? && Trim(request.title) != "" && Normalized(TrimAll(request.keywords))
                     && (if request.memoryType.Passive? then request.keywords == []
                         else Indexable(yaml, files.active, path.value, TrimAll(request.keywords))))
            && (result.Err? ==> files' == files)
  {
    hide Trim, Parse, Render, ValidatePath, ScanSees, SharesKeyword, Normalized, NormalizeKeywords, AsciiLower;
    NormalizeIs(request.keywords);
  }

  // ---- The keyword index stays consistent ----------------------------------------------------------

  /** The scan reads every active document, and no two of them share a keyword. */
  predicate Consistent(yaml: Yaml, active: map<string, string>) {
    && Readable(yaml, active)
    && forall p, q | p in active && q in active && ScanSees(p) && ScanSees(q) && p != q ::
         !SharesKeyword(ActiveDocument(yaml, active, p).value.metadata.keywords,
                        ActiveDocument(yaml, active, q).value.metadata.keywords)
  }

  lemma SharingIsSymmetric(a: seq<string>, b: seq<string>)
    ensures SharesKeyword(a, b) <==> SharesKeyword(b, a)
  {
    hide AsciiLower;
    if SharesKeyword(a, b) {
      var i, j :| 0 <= i < |a| && 0 <= j < |b| && AsciiLower(a[i]) == AsciiLower(b[j]);
      assert AsciiLower(b[j]) == AsciiLower(a[i]);
    }
    if SharesKeyword(b, a) {
      var i, j :| 0 <= i < |b| && 0 <= j < |a| && AsciiLower(b[i]) == AsciiLower(a[j]);
      assert AsciiLower(a[j]) == AsciiLower(b[i]);
    }
  }

  /**
   * The document that an accepted request asks for: its title trimmed, updated now, and created when the document
   * it replaces was, if there is one that still parses, and otherwise now.
   */
  function Requested(yaml: Yaml, files: Files, request: WriteRequest, now: int): Document
    requires Validate(yaml, files, request).Ok?
  {
    var path, stored := ValidatePath(request.path).value, Of(files, request.memoryType);
    var replaced := if path in stored then Parse(yaml, request.memoryType, path, stored[path]) else Err(Unreadable);
    Document(
      request.memoryType, path,
      Metadata(Trim(request.title), if replaced.Ok? then replaced.value.metadata.createdAt else now, now,
               NormalizeKeywords(request.keywords).value),
      TrimNewlines(request.content))
  }

  /** Of all the files of both types, at most the one at `path` is new or changed. */
  predicate OthersKept(files: Files, files': Files, memoryType: MemoryType, path: string) {
    var before, after := Of(files, memoryType), Of(files', memoryType);
    && after.Keys == before.Keys + {path}
    && (forall p | p in before && p != path :: after[p] == before[p])
    && (if memoryType.Active? then files'.passive == files.passive else files'.active == files.active)
  }

  /**
   * An accepted write puts on disk what reads back as the document it was asked for, and touches no other file; it
   * replies with that document, the content as it was given.
   */
  lemma WrittenReadsBack(yaml: Yaml, files: Files, request: WriteRequest, now: int)
    requires ReliableYaml(yaml) && Validate(yaml, files, request).Ok?
    ensures var (files', result) := Write(yaml, files, request, now, false);
            var asked := Requested(yaml, files, request, now);
            && (asked.path, asked.metadata.keywords) == Validate(yaml, files, request).value
            && OthersKept(files, files', request.memoryType, asked.path)
            && Parse(yaml, request.memoryType, asked.path, Of(files', request.memoryType)[asked.path]) == Ok(asked)
            && result == Ok(asked.(content := request.content))
  {
    hide Trim, Trimmed, FenceFree, NormalizeKeywords, Parse, Render, Clashes, ValidatePath, Normalized;
    TrimFixesTrimmed(request.title);
    NormalizeIs(request.keywords);
    NoneIsNormalized();
    var (path, keywords) := Validate(yaml, files, request).value;
    var createdAt := CreatedAt(yaml, request.memoryType, Of(files, request.memoryType), path, now);
    var metadata := Metadata(Trim(request.title), createdAt, now, keywords);
    RoundTrip(yaml, metadata, request.memoryType, path, request.content);
    assert FenceFree(Trim(yaml.show(metadata)));
  }

  lemma NoneIsNormalized()
    ensures Normalized([])
  {
  }

  /** Every write keeps the index consistent, whatever it is asked to write. */
  lemma WriteKeeps(yaml: Yaml, files: Files, request: WriteRequest, now: int, diskFails: bool)
    requires ReliableYaml(yaml) && Consistent(yaml, files.active)
    ensures Consistent(yaml, Write(yaml, files, request, now, diskFails).0.active)
  {
    hide Trim, Parse, Render, NormalizeKeywords, SharesKeyword, ReliableYaml, ValidatePath, ScanSees;
    var valid := Validate(yaml, files, request);
    if valid.Ok? && !diskFails && request.memoryType.Active? {
      WrittenReadsBack(yaml, files, request, now);
      var active' := Write(yaml, files, request, now, diskFails).0.active;
      var path, keywords := valid.value.0, valid.value.1;
      forall p | p in active' && p != path
        ensures p in files.active && ActiveDocument(yaml, active', p) == ActiveDocument(yaml, files.active, p)
      {
      }
      forall p | p in active' && p != path && ScanSees(p)
        ensures !SharesKeyword(keywords, ActiveDocument(yaml, active', p).value.metadata.keywords)
        ensures !SharesKeyword(ActiveDocument(yaml, active', p).value.metadata.keywords, keywords)
      {
        SharingIsSymmetric(keywords, ActiveDocument(yaml, files.active, p).value.metadata.keywords);
      }
    }
  }

  /** After any sequence of writes from a consistent repository, an empty one for instance, the index is consistent. */
  lemma {:induction false} WritesKeep(yaml: Yaml, files: Files, attempts: seq<Attempt>)
    requires ReliableYaml(yaml) && Consistent(yaml, files.active)
    ensures Consistent(yaml, WriteAll(yaml, files, attempts).active)
    decreases |attempts|
  {
    hide Write, Consistent, ReliableYaml;
    if attempts != [] {
      var a := attempts[0];
      WriteKeeps(yaml, files, a.request, a.now, a.diskFails);
      WritesKeep(yaml, Write(yaml, files, a.request, a.now, a.diskFails).0, attempts[1..]);
    }
  }

  // ---- The catalog -------------------------------------------------------------------------------

  /** A directory listing: every file once, in whatever order the file system gives. */
  predicate Listing(order: seq<string>, active: map<string, string>) {
    && (forall i | 0 <= i < |order| :: order[i] in active)
    && (forall p | p in active :: p in order)
    && forall i, j | 0 <= i < j < |order| :: order[i] != order[j]
  }

  lemma ParseNamesPath(yaml: Yaml, path: string, raw: string)
    ensures var parsed := Parse(yaml, Active, path, raw);
            parsed.Ok? ==> parsed.value.path == path && Normalized(parsed.value.metadata.keywords)
  {
    hide Trim, Normalized, SplitFrontmatter, NormalizeKeywords;
    var split := SplitFrontmatter(raw);
    if split.Ok? && yaml.read(split.value.0).Some? {
      NormalizeIs(yaml.read(split.value.0).value.keywords);
    }
  }

  predicate AllIn(order: seq<string>, active: map<string, string>) {
    forall i | 0 <= i < |order| :: order[i] in active
  }

  /** The documents of a scan, in listing order. */
  function Scan(yaml: Yaml, active: map<string, string>, order: seq<string>): seq<Document>
    requires Readable(yaml, active) && AllIn(order, active)
  {
    if order == [] then []
    else
      var front, last := order[..|order| - 1], order[|order| - 1];
      assert AllIn(front, active);
      Scan(yaml, active, front) + (if ScanSees(last) then [ActiveDocument(yaml, active, last).value] else [])
  }

  /** A scan yields exactly the active documents that it sees, each once. */
  ghost predicate ScanIs(yaml: Yaml, active: map<string, string>, order: seq<string>, documents: seq<Document>) {
    && (forall i | 0 <= i < |documents| ::
          && documents[i].path in order && documents[i].path in active && ScanSees(documents[i].path)
          && ActiveDocument(yaml, active, documents[i].path) == Ok(documents[i])
          && Normalized(documents[i].metadata.keywords))
    && (forall i, j | 0 <= i < j < |documents| :: documents[i].path != documents[j].path)
    && forall p | p in order && ScanSees(p) :: exists i :: 0 <= i < |documents| && documents[i].path == p
  }

  lemma {:induction false} ScanSeesAll(yaml: Yaml, active: map<string, string>, order: seq<string>)
    requires Readable(yaml, active) && AllIn(order, active)
    requires forall i, j | 0 <= i < j < |order| :: order[i] != order[j]
    ensures ScanIs(yaml, active, order, Scan(yaml, active, order))
  {
    hide Parse, ScanSees, Normalized;
    if order != [] {
      var front, last := order[..|order| - 1], order[|order| - 1];
      assert AllIn(front, active);
      ScanSeesAll(yaml, active, front);
      assert order == front + [last];
      ParseNamesPath(yaml, last, active[last]);
      var before, documents := Scan(yaml, active, front), Scan(yaml, active, order);
      assert forall i | 0 <= i < |before| :: documents[i] == before[i];
      forall p | p in order && ScanSees(p)
        ensures exists i :: 0 <= i < |documents| && documents[i].path == p
      {
        if p in front {
          var i :| 0 <= i < |before| && before[i].path == p;
          assert documents[i].path == p;
        } else {
          assert documents[|before|].path == p;
        }
      }
    }
  }

  predicate Disjoint(documents: seq<Document>) {
    forall i, j | 0 <= i < j < |documents| ::
      !SharesKeyword(documents[i].metadata.keywords, documents[j].metadata.keywords)
  }

  /** The scan is free of shared keywords exactly when the files are. */
  lemma DisjointIsConsistent(yaml: Yaml, active: map<string, string>, order: seq<string>)
    requires Listing(order, active) && Readable(yaml, active)
    ensures AllIn(order, active)
    ensures Disjoint(Scan(yaml, active, order)) <==> Consistent(yaml, active)
  {
    hide Parse, ScanSees, Normalized, SharesKeyword, Scan;
    assert AllIn(order, active);
    var documents := Scan(yaml, active, order);
    ScanSeesAll(yaml, active, order);
    if Disjoint(documents) {
      forall p, q | p in active && q in active && ScanSees(p) && ScanSees(q) && p != q
        ensures !SharesKeyword(ActiveDocument(yaml, active, p).value.metadata.keywords,
                               ActiveDocument(yaml, active, q).value.metadata.keywords)
      {
        assert p in order && q in order;
        var i :| 0 <= i < |documents| && documents[i].path == p;
        var j :| 0 <= j < |documents| && documents[j].path == q;
        SharingIsSymmetric(documents[i].metadata.keywords, documents[j].metadata.keywords);
      }
    }
  }

  datatype CatalogEntry = CatalogEntry(keywords: seq<string>, path: string)

  function EntryOf(document: Document): CatalogEntry {
    CatalogEntry(document.metadata.keywords, document.path)
  }

  /** Insertion in path order; paths differ, so the keywords never decide. */
  function InsertEntry(entries: seq<CatalogEntry>, e: CatalogEntry): seq<CatalogEntry> {
    if entries == [] || Before(e.path, entries[0].path) then [e] + entries
    else [entries[0]] + InsertEntry(entries[1..], e)
  }

  function SortedEntries(documents: seq<Document>): seq<CatalogEntry> {
    if documents == [] then []
    else InsertEntry(SortedEntries(documents[..|documents| - 1]), EntryOf(documents[|documents| - 1]))
  }

  predicate SortedByPath(entries: seq<CatalogEntry>) {
    forall i, j | 0 <= i < j < |entries| :: Before(entries[i].path, entries[j].path)
  }

  lemma {:induction false} InsertEntrySorts(entries: seq<CatalogEntry>, e: CatalogEntry)
    requires SortedByPath(entries) && forall i | 0 <= i < |entries| :: entries[i].path != e.path
    ensures SortedByPath(InsertEntry(entries, e))
    ensures multiset(InsertEntry(entries, e)) == multiset(entries) + multiset{e}
  {
    hide Before;
    var r := InsertEntry(entries, e);
    if entries == [] {
    } else if Before(e.path, entries[0].path) {
      forall j | 0 <= j < |entries| ensures Before(e.path, entries[j].path) {
        if j > 0 {
          BeforeTransitive(e.path, entries[0].path, entries[j].path);
        }
      }
    } else {
      BeforeTotal(e.path, entries[0].path);
      InsertEntrySorts(entries[1..], e);
      assert entries == [entries[0]] + entries[1..];
      var rest := InsertEntry(entries[1..], e);
      forall j | 0 <= j < |rest| ensures Before(entries[0].path, rest[j].path) {
        assert rest[j] in multiset(rest);
        assert rest[j] == e || rest[j] in multiset(entries[1..]);
        if rest[j] != e {
          var k :| 0 <= k < |entries[1..]| && entries[1..][k] == rest[j];
          assert entries[1..][k] == entries[k + 1];
        }
      }
    }
  }

  lemma {:induction false} SortingKeeps(documents: seq<Document>)
    requires forall i, j | 0 <= i < j < |documents| :: documents[i].path != documents[j].path
    ensures SortedByPath(SortedEntries(documents)) && |SortedEntries(documents)| == |documents|
    ensures forall e :: e in SortedEntries(documents)
              <==> exists i :: 0 <= i < |documents| && e == EntryOf(documents[i])
  {
    hide SortedByPath, InsertEntry;
    if documents == [] {
      assert SortedByPath([]) by { NothingSorted(); }
    } else {
      var front, last := documents[..|documents| - 1], documents[|documents| - 1];
      SortingKeeps(front);
      var before, after := SortedEntries(front), SortedEntries(documents);
      forall k | 0 <= k < |before| ensures before[k].path != EntryOf(last).path {
        assert before[k] in before;
        var i :| 0 <= i < |front| && before[k] == EntryOf(front[i]);
      }
      InsertEntrySorts(before, EntryOf(last));
      assert |after| == |multiset(after)|;
      forall e ensures e in after <==> exists i :: 0 <= i < |documents| && e == EntryOf(documents[i]) {
        assert e in after <==> e in multiset(after);
        assert e in before <==> e in multiset(before);
        if e in before {
          var i :| 0 <= i < |front| && e == EntryOf(front[i]);
          assert documents[i] == front[i];
        }
        if i :| 0 <= i < |documents| && e == EntryOf(documents[i]) {
          assert i < |front| ==> front[i] == documents[i];
        }
      }
    }
  }

  lemma NothingSorted()
    ensures SortedByPath([])
  {
  }

  /** What `load_active_catalog` reports for the documents of a scan. */
  function Catalog(documents: seq<Document>): Result<seq<CatalogEntry>, MemoryError> {
    if Disjoint(documents) then Ok(SortedEntries(documents)) else Err(DuplicateKeyword)
  }

  /**
   * A catalog lists each active document that the scan sees once, sorted by path, and no keyword leads to
   * two paths.
   */
  ghost predicate CatalogOf(yaml: Yaml, active: map<string, string>, entries: seq<CatalogEntry>) {
    && SortedByPath(entries)
    && (forall e :: e in entries <==>
          e.path in active && ScanSees(e.path) && ActiveDocument(yaml, active, e.path).Ok?
          && e.keywords == ActiveDocument(yaml, active, e.path).value.metadata.keywords)
    && forall e, f | e in entries && f in entries && SharesKeyword(e.keywords, f.keywords) :: e == f
  }

  lemma CatalogIs(yaml: Yaml, active: map<string, string>, order: seq<string>)
    requires Listing(order, active) && Consistent(yaml, active)
    ensures AllIn(order, active)
    ensures Catalog(Scan(yaml, active, order)).Ok?
    ensures CatalogOf(yaml, active, Catalog(Scan(yaml, active, order)).value)
  {
    hide Parse, ScanSees, Normalized, SharesKeyword, Scan, SortedByPath, SortedEntries;
    DisjointIsConsistent(yaml, active, order);
    var documents := Scan(yaml, active, order);
    ScanSeesAll(yaml, active, order);
    SortingKeeps(documents);
    var entries := Catalog(documents).value;
    forall e ensures e in entries <==>
          e.path in active && ScanSees(e.path) && ActiveDocument(yaml, active, e.path).Ok?
          && e.keywords == ActiveDocument(yaml, active, e.path).value.metadata.keywords
    {
      if e.path in active && ScanSees(e.path) {
        assert e.path in order;
        var i :| 0 <= i < |documents| && documents[i].path == e.path;
        assert EntryOf(documents[i]).path == e.path;
      }
    }
  }

  /** From an empty repository, after any writes and however the directory is listed, the catalog loads. */
  lemma CatalogNeverFails(yaml: Yaml, attempts: seq<Attempt>, order: seq<string>)
    requires ReliableYaml(yaml) && Listing(order, WriteAll(yaml, Files(map[], map[]), attempts).active)
    ensures var active := WriteAll(yaml, Files(map[], map[]), attempts).active;
            && Consistent(yaml, active) && AllIn(order, active)
            && Catalog(Scan(yaml, active, order)).Ok?
            && CatalogOf(yaml, active, Catalog(Scan(yaml, active, order)).value)
  {
    hide ReliableYaml, WriteAll, Scan, Catalog, CatalogOf, Parse, SharesKeyword;
    WritesKeep(yaml, Files(map[], map[]), attempts);
    CatalogIs(yaml, WriteAll(yaml, Files(map[], map[]), attempts).active, order);
  }

  // ---- Every stored document, scanned or not -------------------------------------------------------

  /** No two active files that parse share a keyword, whether or not the scan sees them. */
  predicate UniqueEverywhere(yaml: Yaml, active: map<string, string>) {
    forall p, q | p in active && q in active && p != q
                  && ActiveDocument(yaml, active, p).Ok? && ActiveDocument(yaml, active, q).Ok? ::
      !SharesKeyword(ActiveDocument(yaml, active, p).value.metadata.keywords,
                     ActiveDocument(yaml, active, q).value.metadata.keywords)
  }

  /** Some file that no scan sees, other than the one about to be written, has one of the keywords. */
  predicate HiddenClash(yaml: Yaml, active: map<string, string>, path: string, keywords: seq<string>) {
    exists p | p in active && !ScanSees(p) && p != path ::
      && ActiveDocument(yaml, active, p).Ok?
      && SharesKeyword(keywords, ActiveDocument(yaml, active, p).value.metadata.keywords)
  }

  /** A write that the repository accepts and the disk takes, of an active document. */
  predicate WritesActive(yaml: Yaml, files: Files, request: WriteRequest, diskFails: bool) {
    request.memoryType.Active? && !diskFails && Validate(yaml, files, request).Ok?
  }

  lemma OthersUntouched(yaml: Yaml, files: Files, request: WriteRequest, now: int)
    requires WritesActive(yaml, files, request, false)
    ensures var active, active' := files.active, Write(yaml, files, request, now, false).0.active;
            && active'.Keys == active.Keys + {Validate(yaml, files, request).value.0}
            && forall p | p in active && p != Validate(yaml, files, request).value.0 ::
                 ActiveDocument(yaml, active', p) == ActiveDocument(yaml, active, p)
  {
    hide Validate, Parse, Render, Trim;
  }

  lemma AcceptedMeetsNoScanned(yaml: Yaml, files: Files, request: WriteRequest)
    requires WritesActive(yaml, files, request, false)
    ensures var path, keywords := Validate(yaml, files, request).value.0, Validate(yaml, files, request).value.1;
            forall p | p in files.active && ScanSees(p) && p != path ::
              && ActiveDocument(yaml, files.active, p).Ok?
              && !SharesKeyword(keywords, ActiveDocument(yaml, files.active, p).value.metadata.keywords)
  {
    hide Trim, Parse, NormalizeKeywords, ValidatePath, ScanSees, SharesKeyword;
  }

  /**
   * A write keeps the keywords of all stored active documents unique exactly when no file that the
   * scan does not see, the target aside, has one of them; a write that is refused always does.
   */
  lemma UniqueExactly(yaml: Yaml, files: Files, request: WriteRequest, now: int, diskFails: bool)
    requires ReliableYaml(yaml) && UniqueEverywhere(yaml, files.active)
    ensures var active' := Write(yaml, files, request, now, diskFails).0.active;
            if WritesActive(yaml, files, request, diskFails) then
              var (path, keywords) := Validate(yaml, files, request).value;
              (UniqueEverywhere(yaml, active') <==> !HiddenClash(yaml, files.active, path, keywords))
            else active' == files.active
  {
    hide ReliableYaml, Validate, Parse, Render, SharesKeyword, ScanSees, Trim;
    if WritesActive(yaml, files, request, diskFails) {
      var path, keywords := Validate(yaml, files, request).value.0, Validate(yaml, files, request).value.1;
      var active, active' := files.active, Write(yaml, files, request, now, diskFails).0.active;
      WrittenReadsBack(yaml, files, request, now);
      OthersUntouched(yaml, files, request, now);
      AcceptedMeetsNoScanned(yaml, files, request);
      assert ActiveDocument(yaml, active', path).Ok?
             && ActiveDocument(yaml, active', path).value.metadata.keywords == keywords;
      hide Write, WritesActive;
      if HiddenClash(yaml, active, path, keywords) {
        var p :| p in active && !ScanSees(p) && p != path && ActiveDocument(yaml, active, p).Ok?
                 && SharesKeyword(keywords, ActiveDocument(yaml, active, p).value.metadata.keywords);
        assert ActiveDocument(yaml, active', p) == ActiveDocument(yaml, active, p);
      } else {
        forall p | p in active && p != path && ActiveDocument(yaml, active, p).Ok?
          ensures !SharesKeyword(keywords, ActiveDocument(yaml, active, p).value.metadata.keywords)
          ensures !SharesKeyword(ActiveDocument(yaml, active, p).value.metadata.keywords, keywords)
        {
          SharingIsSymmetric(keywords, ActiveDocument(yaml, active, p).value.metadata.keywords);
        }
      }
    }
  }

  /** Every active document that these requests could store is one that the scan sees. */
  predicate AllSeen(attempts: seq<Attempt>) {
    forall i | 0 <= i < |attempts| ::
      attempts[i].request.memoryType.Active? && ValidatePath(attempts[i].request.path).Some? ==>
        ScanSees(ValidatePath(attempts[i].request.path).value)
  }

  lemma WriteStaysSeen(yaml: Yaml, files: Files, a: Attempt)
    requires forall p | p in files.active :: ScanSees(p)
    requires a.request.memoryType.Active? && ValidatePath(a.request.path).Some? ==>
               ScanSees(ValidatePath(a.request.path).value)
    ensures forall p | p in Write(yaml, files, a.request, a.now, a.diskFails).0.active :: ScanSees(p)
  {
    hide Trim, Parse, Render, NormalizeKeywords, ValidatePath, ScanSees, Clashes, Readable;
  }

  /** While only paths that the scan sees are written, no two stored active documents ever share a keyword. */
  lemma {:induction false} UniqueWhileSeen(yaml: Yaml, files: Files, attempts: seq<Attempt>)
    requires ReliableYaml(yaml) && Consistent(yaml, files.active) && AllSeen(attempts)
    requires forall p | p in files.active :: ScanSees(p)
    ensures var active := WriteAll(yaml, files, attempts).active;
            && (forall p | p in active :: ScanSees(p))
            && UniqueEverywhere(yaml, active)
    decreases |attempts|
  {
    hide Write, ReliableYaml, Parse, ScanSees, SharesKeyword, ValidatePath, Readable;
    if attempts == [] {
      SeenIsEverywhere(yaml, files.active);
    } else {
      var a, rest := attempts[0], attempts[1..];
      assert AllSeen(rest) by { assert forall i | 0 <= i < |rest| :: rest[i] == attempts[i + 1]; }
      WriteKeeps(yaml, files, a.request, a.now, a.diskFails);
      WriteStaysSeen(yaml, files, a);
      UniqueWhileSeen(yaml, Write(yaml, files, a.request, a.now, a.diskFails).0, rest);
    }
  }

  lemma SeenIsEverywhere(yaml: Yaml, active: map<string, string>)
    requires Consistent(yaml, active) && forall p | p in active :: ScanSees(p)
    ensures UniqueEverywhere(yaml, active)
  {
    hide Parse, ScanSees, SharesKeyword;
  }

  // ---- A file that no scan sees ------------------------------------------------------------------

  lemma HiddenPaths()
    ensures ValidatePath(".md") == Some(".md") && !ScanSees(".md")
    ensures ValidatePath("a.md") == Some("a.md") && ScanSees("a.md")
  {
    hide Trim, NormalizePath;
    var hidden, seen := ".md", "a" + ".md";
    assert seen == "a.md" && seen[1..] == hidden && hidden[0..] == hidden;
    assert seen[0] == 'a' && "/.md"[0] == '/';
    NamesStay(hidden);
    NamesStay(seen);
  }

  lemma NamesStay(name: string)
    requires |name| > 2 && forall i | 0 <= i < |name| :: name[i] in {'a', '.', 'm', 'd'}
    ensures NormalizePath(name) == Some(name)
  {
    hide Trim, NormalizePath;
    TrimFixesTrimmed(name);
    PlainNameStays(name);
  }

  function KeywordRequest(path: string, title: string, keyword: string): WriteRequest {
    WriteRequest(Active, path, title, "", [keyword])
  }

  lemma OneKeyword(keyword: string)
    requires Trimmed(keyword) && keyword != ""
    ensures NormalizeKeywords([keyword]) == Ok([keyword])
  {
    hide Trim, Trimmed, AsciiLower;
    NormalizedIsFixed([keyword]);
  }

  /** A document stored as `.md` takes part in no uniqueness check: its keyword can be given away again. */
  lemma HiddenDocumentsClash(yaml: Yaml, title: string, keyword: string, now: int)
    requires ReliableYaml(yaml) && Trim(title) != "" && Trimmed(keyword) && keyword != ""
    ensures var first := Write(yaml, Files(map[], map[]), KeywordRequest(".md", title, keyword), now, false);
            var second := Write(yaml, first.0, KeywordRequest("a.md", title, keyword), now, false);
            && first.1.Ok? && second.1.Ok?
            && first.1.value.path != second.1.value.path
            && first.1.value.metadata.keywords == second.1.value.metadata.keywords == [keyword]
            && second.0.active.Keys == {".md", "a.md"}
  {
    hide Trim, Trimmed, Parse, Render, NormalizeKeywords, ValidatePath, ScanSees, ReliableYaml, Faithful;
    HiddenPaths();
    OneKeyword(keyword);
    var empty: map<string, string> := map[];
    var first := Write(yaml, Files(empty, map[]), KeywordRequest(".md", title, keyword), now, false);
    assert Readable(yaml, empty) && !Clashes(yaml, empty, ".md", [keyword]);
    assert first.0.active.Keys == {".md"};
    assert Readable(yaml, first.0.active) && !Clashes(yaml, first.0.active, "a.md", [keyword]);
  }

  // ---- The repository, as it runs ----------------------------------------------------------------

  class Repository {
    const yaml: Yaml
    var files: Files

    constructor (yaml: Yaml)
      ensures this.yaml == yaml && files == Files(map[], map[])
    {
      this.yaml, files := yaml, Files(map[], map[]);
    }

    /** `load_documents` for active memory: an unreadable document fails the whole scan. */
    method LoadDocuments(order: seq<string>) returns (r: Result<seq<Document>, MemoryError>)
      requires Listing(order, files.active)
      ensures AllIn(order, files.active)
      ensures r == if Readable(yaml, files.active) then Ok(Scan(yaml, files.active, order)) else Err(Unreadable)
    {
      hide Parse, ScanSees;
      var documents, i := [], 0;
      while i < |order|
        invariant i <= |order|
        invariant forall j | 0 <= j < i && ScanSees(order[j]) :: ActiveDocument(yaml, files.active, order[j]).Ok?
        invariant AllIn(order[..i], files.active)
        invariant Readable(yaml, files.active) ==> documents == Scan(yaml, files.active, order[..i])
      {
        assert order[..i + 1][..i] == order[..i];
        if ScanSees(order[i]) {
          var parsed := Parse(yaml, Active, order[i], files.active[order[i]]);
          if parsed.Err? {
            assert !ActiveDocument(yaml, files.active, order[i]).Ok?;
            return Err(Unreadable);
          }
          documents := documents + [parsed.value];
        }
        i := i + 1;
      }
      assert order[..i] == order;
      assert Readable(yaml, files.active);
      r := Ok(documents);
    }

    /** `ensure_unique_active_keywords` */
    method EnsureUniqueActiveKeywords(path: string, keywords: seq<string>, order: seq<string>)
      returns (error: Option<MemoryError>)
      requires Listing(order, files.active)
      ensures error == (if !Readable(yaml, files.active) then Some(Unreadable)
                        else if Clashes(yaml, files.active, path, keywords) then Some(DuplicateKeyword)
                        else None)
    {
      hide Parse, ScanSees, SharesKeyword, Scan;
      var loaded := LoadDocuments(order);
      if loaded.Err? {
        return Some(loaded.error);
      }
      var documents := loaded.value;
      ScanSeesAll(yaml, files.active, order);
      var i := 0;
      while i < |documents|
        invariant i <= |documents|
        invariant forall j | 0 <= j < i && documents[j].path != path ::
                  !SharesKeyword(keywords, documents[j].metadata.keywords)
      {
        if documents[i].path != path && SharesKeyword(keywords, documents[i].metadata.keywords) {
          return Some(DuplicateKeyword);
        }
        i := i + 1;
      }
      NoClash(yaml, files.active, order, documents, path, keywords);
      error := None;
    }

    /** `write` */
    method WriteDocument(request: WriteRequest, now: int, order: seq<string>, diskFails: bool)
      returns (r: Result<Document, MemoryError>)
      requires Listing(order, files.active)
      modifies this
      ensures (files, r) == Write(yaml, old(files), request, now, diskFails)
    {
      hide Trim, Parse, Render, NormalizeKeywords, ValidatePath, Clashes, Readable;
      var path := NormalizeRelativePath(request.path);
      if path.None? || !EndsIn(path.value, ".md") {
        assert ValidatePath(request.path).None? by { ValidIs(request.path); }
        return Err(BadPath);
      }
      assert ValidatePath(request.path) == path by { ValidIs(request.path); }
      var title := Trim(request.title);
      if title == "" {
        return Err(BlankTitle);
      }
      var keywords := NormalizeKeywordList(request.keywords);
      if keywords.Err? {
        return Err(keywords.error);
      }
      match request.memoryType {
        case Active =>
          if keywords.value == [] {
            return Err(KeywordsRequired);
          }
          var error := EnsureUniqueActiveKeywords(path.value, keywords.value, order);
          if error.Some? {
            return Err(error.value);
          }
        case Passive =>
          if keywords.value != [] {
            return Err(KeywordsForbidden);
          }
      }
      if diskFails {
        return Err(IoError);
      }
      var createdAt := CreatedAt(yaml, request.memoryType, Of(files, request.memoryType), path.value, now);
      var metadata := Metadata(title, createdAt, now, keywords.value);
      files := Put(files, request.memoryType, path.value, Render(yaml, metadata, request.memoryType, request.content));
      r := Ok(Document(request.memoryType, path.value, metadata, request.content));
    }

    /** `load_active_catalog`: fail on the first keyword already taken, else list the documents by path. */
    method LoadActiveCatalog(order: seq<string>) returns (r: Result<seq<CatalogEntry>, MemoryError>)
      requires Listing(order, files.active)
      ensures AllIn(order, files.active)
      ensures r == if Readable(yaml, files.active) then Catalog(Scan(yaml, files.active, order)) else Err(Unreadable)
    {
      hide Parse, ScanSees, SharesKeyword, Scan, InsertEntry, ScanIs, LowerForms;
      var loaded := LoadDocuments(order);
      if loaded.Err? {
        return Err(loaded.error);
      }
      var documents := loaded.value;
      ScanSeesAll(yaml, files.active, order);
      var keywordToPath: map<string, string>, entries: seq<CatalogEntry>, i := map[], [], 0;
      while i < |documents|
        invariant i <= |documents|
        invariant Disjoint(documents[..i])
        invariant forall l :: l in keywordToPath <==> exists j ::
                    0 <= j < i && l in LowerForms(documents[j].metadata.keywords)
        invariant entries == SortedEntries(documents[..i])
      {
        assert documents[..i + 1][..i] == documents[..i];
        assert Normalized(documents[i].metadata.keywords) by {
          ScannedIsNormalized(yaml, files.active, order, documents, i);
        }
        var added := AddKeywords(keywordToPath, documents[i]);
        if added.None? {
          TakenTwice(documents, i, keywordToPath);
          return Err(DuplicateKeyword);
        }
        StillDisjoint(documents, i, keywordToPath);
        keywordToPath := added.value;
        entries := InsertEntry(entries, EntryOf(documents[i]));
        i := i + 1;
      }
      assert documents[..i] == documents;
      r := Ok(entries);
    }

    /** One document's keywords added to the index, or a failure on the first one already in it. */
    method AddKeywords(index: map<string, string>, document: Document) returns (r: Option<map<string, string>>)
      requires Normalized(document.metadata.keywords)
      ensures r.Some? <==> LowerForms(document.metadata.keywords) !! index.Keys
      ensures r.Some? ==> r.value.Keys == index.Keys + LowerForms(document.metadata.keywords)
    {
      hide AsciiLower, Trimmed;
      var keywords, result, i := document.metadata.keywords, index, 0;
      while i < |keywords|
        invariant i <= |keywords|
        invariant LowerForms(keywords[..i]) !! index.Keys
        invariant result.Keys == index.Keys + LowerForms(keywords[..i])
      {
        assert keywords[..i + 1] == keywords[..i] + [keywords[i]];
        LowerFormsSnoc(keywords[..i], keywords[i]);
        var lower := AsciiLower(keywords[i]);
        assert lower in LowerForms(keywords);
        assert lower !in LowerForms(keywords[..i]);
        if lower in result {
          return None;
        }
        result := result[lower := document.path];
        i := i + 1;
      }
      assert keywords[..i] == keywords;
      r := Some(result);
    }
  }

  lemma ValidIs(path: string)
    ensures var n := NormalizePath(path); ValidatePath(path) == if n.Some? && EndsIn(n.value, ".md") then n else None
  {
  }

  lemma NoClash(yaml: Yaml, active: map<string, string>, order: seq<string>, documents: seq<Document>,
      path: string, keywords: seq<string>)
    requires Listing(order, active) && Readable(yaml, active) && ScanIs(yaml, active, order, documents)
    requires forall j | 0 <= j < |documents| && documents[j].path != path ::
             !SharesKeyword(keywords, documents[j].metadata.keywords)
    ensures !Clashes(yaml, active, path, keywords)
  {
    hide Parse, ScanSees, SharesKeyword, Normalized;
    forall p | p in active && ScanSees(p) && p != path
      ensures !SharesKeyword(keywords, ActiveDocument(yaml, active, p).value.metadata.keywords)
    {
      assert p in order;
      var i :| 0 <= i < |documents| && documents[i].path == p;
    }
  }

  lemma ScannedIsNormalized(yaml: Yaml, active: map<string, string>, order: seq<string>,
      documents: seq<Document>, i: nat)
    requires ScanIs(yaml, active, order, documents) && i < |documents|
    ensures Normalized(documents[i].metadata.keywords)
  {
  }

  lemma SharingIsMeeting(a: seq<string>, b: seq<string>)
    ensures SharesKeyword(a, b) <==> !(LowerForms(a) !! LowerForms(b))
  {
    hide AsciiLower;
    if SharesKeyword(a, b) {
      var i, j :| 0 <= i < |a| && 0 <= j < |b| && AsciiLower(a[i]) == AsciiLower(b[j]);
      assert AsciiLower(a[i]) in LowerForms(a) && AsciiLower(b[j]) in LowerForms(b);
    }
  }

  ghost predicate Indexes(index: map<string, string>, documents: seq<Document>, i: nat)
    requires i <= |documents|
  {
    forall l :: l in index <==> exists j :: 0 <= j < i && l in LowerForms(documents[j].metadata.keywords)
  }

  lemma TakenTwice(documents: seq<Document>, i: nat, index: map<string, string>)
    requires i < |documents| && Indexes(index, documents, i)
    requires !(LowerForms(documents[i].metadata.keywords) !! index.Keys)
    ensures !Disjoint(documents)
  {
    hide LowerForms, SharesKeyword;
    var l :| l in LowerForms(documents[i].metadata.keywords) && l in index.Keys;
    var j :| 0 <= j < i && l in LowerForms(documents[j].metadata.keywords);
    SharingIsMeeting(documents[j].metadata.keywords, documents[i].metadata.keywords);
  }

  lemma StillDisjoint(documents: seq<Document>, i: nat, index: map<string, string>)
    requires i < |documents| && Indexes(index, documents, i) && Disjoint(documents[..i])
    requires LowerForms(documents[i].metadata.keywords) !! index.Keys
    ensures Disjoint(documents[..i + 1])
  {
    hide LowerForms, SharesKeyword;
    var longer := documents[..i + 1];
    forall j, k | 0 <= j < k < |longer|
      ensures !SharesKeyword(longer[j].metadata.keywords, longer[k].metadata.keywords)
    {
      if k == i {
        SharingIsMeeting(documents[j].metadata.keywords, documents[i].metadata.keywords);
        assert forall l | l in LowerForms(documents[j].metadata.keywords) :: l in index;
      } else {
        assert documents[..i][j] == documents[j] && documents[..i][k] == documents[k];
      }
    }
  }
}
