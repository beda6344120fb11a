/** Memory documents as markdown text: the frontmatter printer and parser, and when one undoes the other. */
module MemoryMarkdown {
  import opened Wrappers
  import opened Text

  datatype MemoryType = Active | Passive

  datatype Metadata = Metadata(title: string, createdAt: int, updatedAt: int, keywords: seq<string>)

  datatype Document = Document(memoryType: MemoryType, path: string, metadata: Metadata, content: string)

  datatype MemoryError =
    | MissingOpeningFence
    | MissingClosingFence
    | BadYaml
    | BlankTitle
    | BlankKeyword
    | RepeatedKeyword
    | KeywordsRequired
    | KeywordsForbidden
    | BadPath
    | DuplicateKeyword
    | Unreadable
    | IoError

  /** The YAML library: how it prints frontmatter, and how it reads it back. */
  datatype Yaml = Yaml(show: Metadata -> string, read: string -> Option<Metadata>)

  /** The library reads back what it printed, outer whitespace trimmed. */
  ghost predicate Faithful(yaml: Yaml) {
    forall m: Metadata :: yaml.read(Trim(yaml.show(m))) == Some(m)
  }

  const OPENING_FENCE := "---\n"
  const CLOSING_FENCE := "\n---\n"

  // ---- Keywords ------------------------------------------------------------------------------

  /** `normalize_keywords` from where `done` has been taken in. */
  function NormalizeFrom(keywords: seq<string>, done: seq<string>): Result<seq<string>, MemoryError>
    decreases |keywords|
  {
    if keywords == [] then Ok(done)
    else
      var keyword := Trim(keywords[0]);
      if keyword == "" then Err(BlankKeyword)
      else if SharesKeyword([keyword], done) then Err(RepeatedKeyword)
      else NormalizeFrom(keywords[1..], done + [keyword])
  }

  function NormalizeKeywords(keywords: seq<string>): Result<seq<string>, MemoryError> {
    NormalizeFrom(keywords, [])
  }

  /** Some keyword is in both lists, ASCII case aside. */
  predicate SharesKeyword(a: seq<string>, b: seq<string>) {
    exists i, j | 0 <= i < |a| && 0 <= j < |b| :: AsciiLower(a[i]) == AsciiLower(b[j])
  }

  /** Trimmed, not blank, and pairwise different, ASCII case aside. */
  predicate Normalized(keywords: seq<string>) {
    && (forall i | 0 <= i < |keywords| :: Trimmed(keywords[i]) && keywords[i] != "")
    && forall i, j | 0 <= i < j < |keywords| :: AsciiLower(keywords[i]) != AsciiLower(keywords[j])
  }

  function TrimAll(keywords: seq<string>): (r: seq<string>)
    ensures |r| == |keywords|
    ensures forall i | 0 <= i < |r| :: r[i] == Trim(keywords[i])
  {
    seq(|keywords|, i requires 0 <= i < |keywords| => Trim(keywords[i]))
  }

  /** A keyword may follow normalized ones exactly when it is not blank and not among them. */
  lemma NormalizedSnoc(done: seq<string>, keyword: string)
    requires Normalized(done) && Trimmed(keyword)
    ensures Normalized(done + [keyword]) <==> keyword != "" && !SharesKeyword([keyword], done)
  {
    hide Trimmed, AsciiLower;
    var all := done + [keyword];
    assert all[|done|] == keyword && [keyword][0] == keyword;
    if SharesKeyword([keyword], done) {
      var i, j :| 0 <= i < 1 && 0 <= j < |done| && AsciiLower([keyword][i]) == AsciiLower(done[j]);
      assert all[j] == done[j];
    } else {
      assert forall j | 0 <= j < |done| :: AsciiLower([keyword][0]) != AsciiLower(done[j]);
    }
  }

  lemma NormalizedPrefix(a: seq<string>, b: seq<string>)
    requires Normalized(a + b)
    ensures Normalized(a)
  {
    hide Trimmed, AsciiLower;
    assert forall i | 0 <= i < |a| :: (a + b)[i] == a[i];
  }

  lemma {:induction false} NormalizeFromIs(keywords: seq<string>, done: seq<string>)
    requires Normalized(done)
    ensures NormalizeFrom(keywords, done).Ok? <==> Normalized(done + TrimAll(keywords))
    ensures NormalizeFrom(keywords, done).Ok? ==> NormalizeFrom(keywords, done).value == done + TrimAll(keywords)
    decreases |keywords|
  {
    hide Trim, Trimmed, AsciiLower, Normalized, SharesKeyword;
    if keywords == [] {
      assert done + TrimAll(keywords) == done;
    } else {
      var keyword, more := Trim(keywords[0]), TrimAll(keywords[1..]);
      TrimFixesTrimmed(keywords[0]);
      NormalizedSnoc(done, keyword);
      assert done + TrimAll(keywords) == done + [keyword] + more;
      if Normalized(done + [keyword]) {
        NormalizeFromIs(keywords[1..], done + [keyword]);
      } else if Normalized(done + [keyword] + more) {
        NormalizedPrefix(done + [keyword], more);
      }
    }
  }

  /** `normalize_keywords` accepts a list exactly when its trimmed keywords are normalized, and returns those. */
  lemma NormalizeIs(keywords: seq<string>)
    ensures NormalizeKeywords(keywords).Ok? <==> Normalized(TrimAll(keywords))
    ensures NormalizeKeywords(keywords).Ok? ==> NormalizeKeywords(keywords).value == TrimAll(keywords)
  {
    NormalizeFromIs(keywords, []);
    assert [] + TrimAll(keywords) == TrimAll(keywords);
  }

  lemma NormalizedIsFixed(keywords: seq<string>)
    requires Normalized(keywords)
    ensures NormalizeKeywords(keywords) == Ok(keywords)
  {
    hide Trim, Trimmed, AsciiLower;
    NormalizeIs(keywords);
    forall i | 0 <= i < |keywords| ensures Trim(keywords[i]) == keywords[i] {
      TrimFixesTrimmed(keywords[i]);
    }
    assert TrimAll(keywords) == keywords;
  }

  // ---- Splitting -----------------------------------------------------------------------------

  /** `split_frontmatter`: the frontmatter, and the text after the first closing fence. */
  function SplitFrontmatter(raw: string): Result<(string, string), MemoryError> {
    if !OccursAt(raw, OPENING_FENCE, 0) then Err(MissingOpeningFence)
    else
      var stripped := raw[|OPENING_FENCE|..];
      var index := FindFrom(stripped, CLOSING_FENCE, 0);
      if index.None? then Err(MissingClosingFence)
      else Ok((stripped[..index.value], stripped[index.value + |CLOSING_FENCE|..]))
  }

  predicate EndsWith(s: string, suffix: string) {
    OccursAt(s, suffix, |s| - |suffix|)
  }

  /** No closing fence can start inside the text, even one that the real closing fence would complete. */
  ghost predicate FenceFree(yaml: string) {
    !Contains(yaml, CLOSING_FENCE) && !EndsWith(yaml, "\n---")
  }

  /**
   * A closing fence that starts inside `yaml` lies inside it, or is completed by the newline of the fence
   * that follows.
   */
  lemma EarlierFence(yaml: string, rest: string, i: nat)
    requires i < |yaml|
    ensures OccursAt(yaml + (CLOSING_FENCE + rest), CLOSING_FENCE, i)
       <==> OccursAt(yaml, CLOSING_FENCE, i) || (i == |yaml| - 4 && EndsWith(yaml, "\n---"))
  {
    var s := yaml + (CLOSING_FENCE + rest);
    var n := |yaml|;
    assert s[n] == '\n' && s[n + 1] == '-' && s[n + 2] == '-' && s[n + 3] == '-' && s[n + 4] == '\n';
    if i + 5 <= n {
      assert s[i..i + 5] == yaml[i..i + 5];
    } else if i + 4 == n {
      assert s[i..i + 5] == yaml[i..] + "\n";
      assert CLOSING_FENCE == "\n---" + "\n";
      if yaml[i..] + "\n" == "\n---" + "\n" {
        assert (yaml[i..] + "\n")[..4] == ("\n---" + "\n")[..4];
        assert yaml[i..] == "\n---";
      }
    } else {
      var piece := s[i..i + 5];
      assert piece[n - i] == s[n] == '\n';
      assert 1 <= n - i <= 3;
      assert CLOSING_FENCE[n - i] == '-';
    }
  }

  /** Splitting finds a text's own closing fence exactly when the text is free of earlier ones. */
  lemma SplitIsExact(yaml: string, body: string)
    ensures var split := SplitFrontmatter(OPENING_FENCE + (yaml + (CLOSING_FENCE + body)));
            && split.Ok?
            && (split.value == (yaml, body) <==> FenceFree(yaml))
            && (split.value.1 == body <==> FenceFree(yaml))
  {
    hide OccursAt, EndsWith;
    var stripped := yaml + (CLOSING_FENCE + body);
    var raw := OPENING_FENCE + stripped;
    StartsWithFence(stripped);
    FenceAt(yaml, body);
    var index := FindFrom(stripped, CLOSING_FENCE, 0);
    assert index.Some? && index.value <= |yaml|;
    if index.value == |yaml| {
      assert stripped[..|yaml|] == yaml && stripped[|yaml| + 5..] == body;
      forall i: nat | i < |yaml|
        ensures !OccursAt(yaml, CLOSING_FENCE, i) && !(i == |yaml| - 4 && EndsWith(yaml, "\n---"))
      {
        EarlierFence(yaml, body, i);
      }
      NoneInside(yaml);
    } else {
      EarlierFence(yaml, body, index.value);
      assert |stripped[index.value + 5..]| > |body|;
    }
  }

  lemma NoneInside(yaml: string)
    requires forall i: nat | i < |yaml| ::
               !OccursAt(yaml, CLOSING_FENCE, i) && !(i == |yaml| - 4 && EndsWith(yaml, "\n---"))
    ensures FenceFree(yaml)
  {
    if |yaml| >= 4 {
      var i: nat := |yaml| - 4;
      assert !OccursAt(yaml, CLOSING_FENCE, i) && !EndsWith(yaml, "\n---");
    }
  }

  lemma StartsWithFence(stripped: string)
    ensures OccursAt(OPENING_FENCE + stripped, OPENING_FENCE, 0)
    ensures (OPENING_FENCE + stripped)[|OPENING_FENCE|..] == stripped
  {
  }

  lemma FenceAt(yaml: string, body: string)
    ensures OccursAt(yaml + (CLOSING_FENCE + body), CLOSING_FENCE, |yaml|)
  {
    assert (yaml + (CLOSING_FENCE + body))[|yaml|..|yaml| + 5] == CLOSING_FENCE;
  }

  // ---- Rendering and parsing -------------------------------------------------------------------

  /** `trim_end_matches('\n')` */
  function TrimNewlines(s: string): (r: string)
    ensures |r| <= |s| && r == s[..|r|]
    ensures r == "" || r[|r| - 1] != '\n'
  {
    if s != "" && s[|s| - 1] == '\n' then TrimNewlines(s[..|s| - 1]) else s
  }

  /** `strip_suffix('\n')`, or the text as it is. */
  function StripNewline(s: string): string {
    if s != "" && s[|s| - 1] == '\n' then s[..|s| - 1] else s
  }

  function Frontmatter(metadata: Metadata, memoryType: MemoryType): Metadata {
    if memoryType.Active? then metadata else metadata.(keywords := [])
  }

  /** `render_memory_markdown` */
  function Render(yaml: Yaml, metadata: Metadata, memoryType: MemoryType, content: string): string {
    OPENING_FENCE + (Trim(yaml.show(Frontmatter(metadata, memoryType)))
                     + (CLOSING_FENCE + (TrimNewlines(content) + "\n")))
  }

  /** `parse_memory_document` */
  function Parse(yaml: Yaml, memoryType: MemoryType, path: string, raw: string): Result<Document, MemoryError> {
    var split := SplitFrontmatter(raw);
    if split.Err? then Err(split.error)
    else
      var parsed := yaml.read(split.value.0);
      if parsed.None? then Err(BadYaml)
      else if Trim(parsed.value.title) == "" then Err(BlankTitle)
      else
        var keywords := NormalizeKeywords(parsed.value.keywords);
        if keywords.Err? then Err(keywords.error)
        else if memoryType.Active? && keywords.value == [] then Err(KeywordsRequired)
        else if memoryType.Passive? && keywords.value != [] then Err(KeywordsForbidden)
        else
          Ok(Document(memoryType, path, parsed.value.(title := Trim(parsed.value.title), keywords := keywords.value),
                      StripNewline(split.value.1)))
  }

  /** Metadata as `write` builds it. */
  predicate WellFormed(metadata: Metadata, memoryType: MemoryType) {
    && metadata.title != "" && Trimmed(metadata.title)
    && Normalized(metadata.keywords)
    && (memoryType.Active? <==> metadata.keywords != [])
  }

  lemma ParseKeepsTitle(yaml: Yaml, metadata: Metadata, memoryType: MemoryType,
      path: string, raw: string)
    requires WellFormed(metadata, memoryType) && SplitFrontmatter(raw).Ok?
    requires yaml.read(SplitFrontmatter(raw).value.0) == Some(metadata)
    ensures Parse(yaml, memoryType, path, raw) == Ok(Document(memoryType, path, metadata,
                                                              StripNewline(SplitFrontmatter(raw).value.1)))
  {
    hide Trim, Trimmed, AsciiLower, NormalizeKeywords, Normalized, SplitFrontmatter;
    TrimFixesTrimmed(metadata.title);
    NormalizedIsFixed(metadata.keywords);
  }

  /**
   * Printing and parsing a document gives back the same metadata and the content without its
   * trailing newlines, fences in the body or not, exactly when the YAML text is free of fences.
   */
  lemma RoundTrip(yaml: Yaml, metadata: Metadata, memoryType: MemoryType, path: string,
      content: string)
    requires Faithful(yaml) && WellFormed(metadata, memoryType)
    ensures Parse(yaml, memoryType, path, Render(yaml, metadata, memoryType, content))
         == Ok(Document(memoryType, path, metadata, TrimNewlines(content)))
       <==> FenceFree(Trim(yaml.show(metadata)))
  {
    hide Trim, Trimmed, AsciiLower, NormalizeKeywords, Normalized, SplitFrontmatter, FenceFree, TrimNewlines;
    var text, body := Trim(yaml.show(metadata)), TrimNewlines(content) + "\n";
    assert Frontmatter(metadata, memoryType) == metadata;
    SplitIsExact(text, body);
    var raw := Render(yaml, metadata, memoryType, content);
    assert StripNewline(body) == TrimNewlines(content);
    if FenceFree(text) {
      ParseKeepsTitle(yaml, metadata, memoryType, path, raw);
    } else {
      var rest := SplitFrontmatter(raw).value.1;
      LongerRest(text, body);
      assert StripNewline(rest) != TrimNewlines(content);
    }
  }

  /** When the split is too early, what is left is too long. */
  lemma LongerRest(yaml: string, body: string)
    requires !FenceFree(yaml)
    ensures var split := SplitFrontmatter(OPENING_FENCE + (yaml + (CLOSING_FENCE + body)));
            split.Ok? && |split.value.1| > |body| + 1
  {
    hide EndsWith, OccursAt;
    var stripped := yaml + (CLOSING_FENCE + body);
    StartsWithFence(stripped);
    FenceAt(yaml, body);
    SplitIsExact(yaml, body);
    var index := FindFrom(stripped, CLOSING_FENCE, 0);
    assert stripped[..|yaml|] == yaml && stripped[|yaml| + 5..] == body;
    assert index.value <= |yaml|;
    assert index.value != |yaml|;
    EarlierFence(yaml, body, index.value);
    assert index.value + 4 <= |yaml| by { FenceFits(yaml, index.value); }
  }

  lemma FenceFits(yaml: string, i: nat)
    requires OccursAt(yaml, CLOSING_FENCE, i) || (i == |yaml| - 4 && EndsWith(yaml, "\n---"))
    ensures i + 4 <= |yaml|
  {
  }

  lemma TrimNewlinesTwice(s: string)
    ensures TrimNewlines(TrimNewlines(s)) == TrimNewlines(s)
  {
  }

  /** Rendering what was parsed gives the same text again, so a second round trip changes nothing. */
  lemma SecondRender(yaml: Yaml, metadata: Metadata, memoryType: MemoryType, path: string,
      content: string)
    requires Faithful(yaml) && WellFormed(metadata, memoryType) && FenceFree(Trim(yaml.show(metadata)))
    ensures var raw := Render(yaml, metadata, memoryType, content);
            var parsed := Parse(yaml, memoryType, path, raw);
            parsed.Ok? && Render(yaml, parsed.value.metadata, memoryType, parsed.value.content) == raw
  {
    hide Parse, Trim, Faithful, WellFormed, FenceFree, TrimNewlines;
    RoundTrip(yaml, metadata, memoryType, path, content);
    TrimNewlinesTwice(content);
  }

  // ---- The parser's loop -----------------------------------------------------------------------

  /** The lower-case forms of a keyword list. */
  function LowerForms(keywords: seq<string>): set<string> {
    set i | 0 <= i < |keywords| :: AsciiLower(keywords[i])
  }

  lemma LowerFormsSnoc(keywords: seq<string>, keyword: string)
    ensures LowerForms(keywords + [keyword]) == LowerForms(keywords) + {AsciiLower(keyword)}
    ensures AsciiLower(keyword) in LowerForms(keywords) <==> SharesKeyword([keyword], keywords)
  {
    hide AsciiLower;
    var longer := keywords + [keyword];
    assert longer[|keywords|] == keyword && [keyword][0] == keyword;
    forall x | x in LowerForms(keywords) ensures x in LowerForms(longer) {
      var i :| 0 <= i < |keywords| && AsciiLower(keywords[i]) == x;
      assert longer[i] == keywords[i];
    }
  }

  lemma NoLowerForms()
    ensures LowerForms([]) == {}
  {
  }

  /** `normalize_keywords`, as its loop over a set of seen keywords. */
  method NormalizeKeywordList(keywords: seq<string>) returns (r: Result<seq<string>, MemoryError>)
    ensures r == NormalizeKeywords(keywords)
  {
    hide Trim, AsciiLower, LowerForms;
    var normalized: seq<string>, seen: set<string>, i := [], {}, 0;
    NoLowerForms();
    while i < |keywords|
      invariant i <= |keywords|
      invariant NormalizeFrom(keywords[i..], normalized) == NormalizeKeywords(keywords)
      invariant seen == LowerForms(normalized)
    {
      assert keywords[i..][1..] == keywords[i + 1..];
      var keyword := Trim(keywords[i]);
      if keyword == "" {
        return Err(BlankKeyword);
      }
      LowerFormsSnoc(normalized, keyword);
      if AsciiLower(keyword) in seen {
        return Err(RepeatedKeyword);
      }
      seen := seen + {AsciiLower(keyword)};
      normalized := normalized + [keyword];
      i := i + 1;
    }
    r := Ok(normalized);
  }
}
