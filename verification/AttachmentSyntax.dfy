/** Attachment markers in outgoing text: `#!openjarvis[image:/path]`. */
module AttachmentSyntax {
  import opened Wrappers
  import opened Text

  const ATTACHMENT_PREFIX := "#!openjarvis["
  const IMAGE := "image:"

  /** `parse_attachment_marker`: the path of an image marker's body (Unix paths). */
  function ParseMarker(body: string): Option<string> {
    var trimmed := Trim(body);
    var colon := FindFrom(trimmed, ":", 0);
    if colon.None? then None
    else
      var path := Trim(trimmed[colon.value + 1..]);
      if path == "" || path[0] != '/' then None
      else if Trim(trimmed[..colon.value]) == "image" then Some(path)
      else None
  }

  /** The attachments of a text, marker by marker. */
  function Attachments(content: string): seq<string>
    decreases |content|
  {
    var start := FindFrom(content, ATTACHMENT_PREFIX, 0);
    if start.None? then []
    else
      var payload := start.value + |ATTACHMENT_PREFIX|;
      var end := FindFrom(content, "]", payload);
      if end.None? then []
      else
        var path := ParseMarker(content[payload..end.value]);
        (if path.Some? then [path.value] else []) + Attachments(content[end.value + 1..])
  }

  // ---- Finding ---------------------------------------------------------------------------------

  lemma OccursShift(s: string, pattern: string, from: nat, i: int)
    requires from <= |s|
    ensures OccursAt(s[from..], pattern, i) <==> from <= from + i && OccursAt(s, pattern, from + i)
  {
    if 0 <= i <= |s| - from - |pattern| {
      assert s[from..][i..i + |pattern|] == s[from + i..from + i + |pattern|];
    }
  }

  /** Finding in a suffix is finding from its start. */
  lemma FindShift(s: string, pattern: string, from: nat)
    requires from <= |s|
    ensures var f, g := FindFrom(s, pattern, from), FindFrom(s[from..], pattern, 0);
            (f.None? <==> g.None?) && (f.Some? ==> f.value == from + g.value)
  {
    hide OccursAt;
    var f, g := FindFrom(s, pattern, from), FindFrom(s[from..], pattern, 0);
    if f.Some? {
      OccursShift(s, pattern, from, f.value - from);
    }
    if g.Some? {
      OccursShift(s, pattern, from, g.value);
    }
  }

  /** Where `find` stops: at the first occurrence. */
  lemma FindFirst(s: string, pattern: string, from: nat, i: nat)
    requires from <= i && OccursAt(s, pattern, i) && i <= |s|
    requires forall k | from <= k < i :: !OccursAt(s, pattern, k)
    ensures from <= |s| && FindFrom(s, pattern, from) == Some(i)
  {
    hide OccursAt;
  }

  // ---- Trimming a marker's body ------------------------------------------------------------------

  lemma {:induction false} TrimEndAppend(a: string, b: string)
    requires a != "" && !IsWhitespace(a[|a| - 1])
    ensures TrimEnd(a + b) == a + TrimEnd(b)
    decreases |b|
  {
    hide IsWhitespace;
    var s := a + b;
    if b == "" {
      assert s == a;
    } else {
      assert s[..|s| - 1] == a + b[..|b| - 1];
      assert s[|s| - 1] == b[|b| - 1];
      TrimEndAppend(a, b[..|b| - 1]);
    }
  }

  lemma {:induction false} TrimEndCons(s: string)
    requires s != ""
    ensures TrimEnd(s) == if TrimEnd(s[1..]) != "" then [s[0]] + TrimEnd(s[1..]) else if IsWhitespace(s[0]) then ""
            else [s[0]]
    decreases |s|
  {
    hide IsWhitespace;
    var front := s[..|s| - 1];
    if |s| == 1 {
      assert s[1..] == "" && front == "" && s == [s[0]];
    } else if IsWhitespace(s[|s| - 1]) {
      TrimEndCons(front);
      assert front[1..] == s[1..][..|s| - 2] && front[0] == s[0];
    } else {
      assert s == [s[0]] + s[1..];
    }
  }

  /** Trimming the end first makes no difference. */
  lemma {:induction false} TrimOrder(s: string)
    ensures Trim(TrimEnd(s)) == Trim(s)
    decreases |s|
  {
    hide IsWhitespace;
    if s != "" {
      TrimEndCons(s);
      TrimEndIdempotent(s);
      if IsWhitespace(s[0]) {
        TrimOrder(s[1..]);
        var t := TrimEnd(s);
        assert t != "" ==> t[0] == s[0] && t[1..] == TrimEnd(s[1..]);
      }
    }
  }

  lemma TrimEndIdempotent(s: string)
    ensures TrimEnd(TrimEnd(s)) == TrimEnd(s)
  {
  }

  lemma ImageLetters()
    ensures |IMAGE| == 6 && IMAGE[5] == ':' && IMAGE[0] == 'i' && IMAGE[..5] == "image"
    ensures forall k | 0 <= k < 5 :: IMAGE[k] != ':'
    ensures "image"[0] == 'i' && "image"[4] == 'e'
  {
  }

  /** The body of an image marker gives its trimmed path, if that is absolute. */
  lemma ImageBody(q: string)
    ensures ParseMarker(IMAGE + q) == if Trim(q) != "" && Trim(q)[0] == '/' then Some(Trim(q)) else None
  {
    hide OccursAt, Trim;
    var body := IMAGE + q;
    ImageLetters();
    TrimmedBody(q);
    var trimmed := IMAGE + TrimEnd(q);
    ColonAt(TrimEnd(q));
    FindFirst(trimmed, ":", 0, 5);
    assert trimmed[6..] == TrimEnd(q) && trimmed[..5] == "image";
    TrimOrder(q);
    TrimFixesTrimmed("image");
  }

  lemma TrimmedBody(q: string)
    ensures Trim(IMAGE + q) == IMAGE + TrimEnd(q)
  {
    ImageLetters();
    var body := IMAGE + q;
    assert body[0] == 'i';
    assert TrimStart(body) == body;
    TrimEndAppend(IMAGE, q);
  }

  lemma ColonAt(rest: string)
    ensures OccursAt(IMAGE + rest, ":", 5) && forall k | 0 <= k < 5 :: !OccursAt(IMAGE + rest, ":", k)
  {
    ImageLetters();
    var s := IMAGE + rest;
    assert s[5..6] == ":";
    forall k | 0 <= k < 5 ensures !OccursAt(s, ":", k) {
      assert s[k..k + 1][0] == IMAGE[k];
    }
  }

  // ---- The round trip ----------------------------------------------------------------------------

  function Marker(path: string): string {
    ATTACHMENT_PREFIX + (IMAGE + path) + "]"
  }

  predicate NoBracket(path: string) {
    forall k | 0 <= k < |path| :: path[k] != ']'
  }

  /** A path that a marker can carry. */
  predicate Carried(path: string) {
    path != "" && path[0] == '/' && Trimmed(path) && NoBracket(path)
  }

  lemma PrefixLetters()
    ensures |ATTACHMENT_PREFIX| == 13 && ATTACHMENT_PREFIX[0] == '#'
    ensures forall k | 1 <= k < 13 :: ATTACHMENT_PREFIX[k] != '#'
  {
  }

  /** A pattern whose first character occurs once in it cannot begin in a text without it and end after it. */
  lemma FirstOccurrence(text: string, pattern: string, rest: string)
    requires pattern != "" && (forall k | 1 <= k < |pattern| :: pattern[k] != pattern[0]) && !Contains(text, pattern)
    ensures FindFrom(text + (pattern + rest), pattern, 0) == Some(|text|)
  {
    var s := text + (pattern + rest);
    assert s[|text|..|text| + |pattern|] == pattern;
    forall k: nat | k < |text| ensures !OccursAt(s, pattern, k) {
      NotEarlier(text, pattern, rest, k);
    }
    FindFirst(s, pattern, 0, |text|);
  }

  lemma NotEarlier(text: string, pattern: string, rest: string, k: nat)
    requires pattern != "" && (forall k | 1 <= k < |pattern| :: pattern[k] != pattern[0]) && !Contains(text, pattern)
             && k < |text|
    ensures !OccursAt(text + (pattern + rest), pattern, k)
  {
    var s := text + (pattern + rest);
    if k + |pattern| <= |text| {
      assert s[k..k + |pattern|] == text[k..k + |pattern|];
      assert !OccursAt(text, pattern, k);
    } else {
      assert s[k..k + |pattern|][|text| - k] == s[|text|] == pattern[0];
    }
  }

  lemma FirstBracket(s: string, payload: nat, body: string)
    requires payload + |body| < |s| && s[payload..payload + |body|] == body && s[payload + |body|] == ']'
             && NoBracket(body)
    ensures FindFrom(s, "]", payload) == Some(payload + |body|)
  {
    var end := payload + |body|;
    assert s[end..end + 1] == "]";
    forall k | payload <= k < end ensures !OccursAt(s, "]", k) {
      assert s[k..k + 1][0] == body[k - payload];
    }
    FindFirst(s, "]", payload, end);
  }

  lemma ImageHasNoBracket(path: string)
    requires NoBracket(path)
    ensures NoBracket(IMAGE + path)
  {
    ImageLetters();
    assert forall k | 0 <= k < 6 :: IMAGE[k] != ']';
  }

  /** One text and one marker at the front of a content. */
  lemma OneMarker(text: string, path: string, rest: string)
    requires !Contains(text, ATTACHMENT_PREFIX) && NoBracket(path)
    ensures var parsed := ParseMarker(IMAGE + path);
            Attachments(text + Marker(path) + rest) == (if parsed.Some? then [parsed.value] else []) + Attachments(rest)
  {
    hide Contains, OccursAt, ParseMarker, NoBracket;
    var body := IMAGE + path;
    var content := text + Marker(path) + rest;
    PrefixLetters();
    assert content == text + (ATTACHMENT_PREFIX + (body + "]" + rest));
    FirstOccurrence(text, ATTACHMENT_PREFIX, body + "]" + rest);
    var payload := |text| + 13;
    var end := payload + |body|;
    assert content[payload..end] == body && content[end] == ']' && content[end + 1..] == rest;
    ImageHasNoBracket(path);
    FirstBracket(content, payload, body);
  }

  /** Texts and markers in turn, a text at both ends. */
  function Weave(texts: seq<string>, paths: seq<string>): string
    requires |texts| == |paths| + 1
  {
    if paths == [] then texts[0] else texts[0] + Marker(paths[0]) + Weave(texts[1..], paths[1..])
  }

  lemma NoMarker(text: string)
    requires !Contains(text, ATTACHMENT_PREFIX)
    ensures Attachments(text) == []
  {
    hide OccursAt;
  }

  /** Texts without prefixes interleaved with markers give back exactly the markers' paths, in order. */
  lemma {:induction false} WeaveReadsBack(texts: seq<string>, paths: seq<string>)
    requires |texts| == |paths| + 1
    requires forall i | 0 <= i < |texts| :: !Contains(texts[i], ATTACHMENT_PREFIX)
    requires forall i | 0 <= i < |paths| :: Carried(paths[i])
    ensures Attachments(Weave(texts, paths)) == paths
    decreases |paths|
  {
    hide Contains, Attachments, ParseMarker, Trimmed, Trim, Marker;
    if paths == [] {
      NoMarker(texts[0]);
    } else {
      OneMarker(texts[0], paths[0], Weave(texts[1..], paths[1..]));
      ImageBody(paths[0]);
      TrimFixesTrimmed(paths[0]);
      assert Carried(paths[0]);
      WeaveReadsBack(texts[1..], paths[1..]);
      assert [paths[0]] + paths[1..] == paths;
    }
  }

  /**
   * A path without a closing bracket comes back from its own marker exactly when it is absolute and has no
   * outer whitespace.
   */
  lemma MarkerCarries(path: string)
    requires NoBracket(path)
    ensures Attachments(Marker(path)) == [path] <==> Carried(path)
  {
    hide Contains, Attachments, ParseMarker, Trimmed, Trim, Marker;
    var none := "";
    NothingContained();
    OneMarker(none, path, none);
    NoMarker(none);
    assert none + Marker(path) + none == Marker(path);
    ImageBody(path);
    TrimFixesTrimmed(path);
    var parsed := ParseMarker(IMAGE + path);
    assert parsed.Some? ==> [parsed.value] + [] == [parsed.value] && [parsed.value][0] == parsed.value;
  }

  lemma NothingContained()
    ensures !Contains("", ATTACHMENT_PREFIX)
  {
    PrefixLetters();
  }

  // ---- The cursor loop -----------------------------------------------------------------------------

  /** One round of the loop, on indices into the whole content. */
  lemma FromCursor(content: string, cursor: nat)
    requires cursor <= |content|
    ensures var start := FindFrom(content, ATTACHMENT_PREFIX, cursor);
            if start.None? then Attachments(content[cursor..]) == []
            else
              var payload := start.value + |ATTACHMENT_PREFIX|;
              && payload <= |content|
              && var end := FindFrom(content, "]", payload);
                 if end.None? then Attachments(content[cursor..]) == []
                 else
                   && end.value + 1 <= |content|
                   && var parsed := ParseMarker(content[payload..end.value]);
                      Attachments(content[cursor..])
                      == (if parsed.Some? then [parsed.value] else []) + Attachments(content[end.value + 1..])
  {
    hide OccursAt, ParseMarker;
    var suffix := content[cursor..];
    FindShift(content, ATTACHMENT_PREFIX, cursor);
    var start := FindFrom(content, ATTACHMENT_PREFIX, cursor);
    if start.Some? {
      FoundFits(content, ATTACHMENT_PREFIX, start.value);
      var payload := start.value + |ATTACHMENT_PREFIX|;
      assert suffix[payload - cursor..] == content[payload..];
      FindShift(content, "]", payload);
      FindShift(suffix, "]", payload - cursor);
      var end := FindFrom(content, "]", payload);
      if end.Some? {
        FoundFits(content, "]", end.value);
        assert suffix[payload - cursor..end.value - cursor] == content[payload..end.value];
        assert suffix[end.value - cursor + 1..] == content[end.value + 1..];
      }
    }
  }

  /** `parse_content`: the text unchanged, and its attachments. */
  method ParseContent(content: string) returns (text: string, attachments: seq<string>)
    ensures text == content && attachments == Attachments(content)
  {
    hide OccursAt, ParseMarker, Attachments, FindFrom;
    text, attachments := content, [];
    var cursor := 0;
    assert content[0..] == content;
    while true
      invariant cursor <= |content|
      invariant attachments + Attachments(content[cursor..]) == Attachments(content)
      decreases |content| - cursor
    {
      FromCursor(content, cursor);
      var start := FindFrom(content, ATTACHMENT_PREFIX, cursor);
      if start.None? {
        return;
      }
      var payload := start.value + |ATTACHMENT_PREFIX|;
      var end := FindFrom(content, "]", payload);
      if end.None? {
        return;
      }
      var attachment := ParseMarker(content[payload..end.value]);
      if attachment.Some? {
        attachments := attachments + [attachment.value];
      }
      cursor := end.value + 1;
    }
  }

  lemma FoundFits(s: string, pattern: string, i: nat)
    requires OccursAt(s, pattern, i)
    ensures i + |pattern| <= |s|
  {
  }
}
