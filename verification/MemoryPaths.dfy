/** Relative paths of memory documents, as the tools give them and as the repository keeps them (Unix paths). */
module MemoryPaths {
  import opened Wrappers
  import opened Text

  function ForwardSlashes(s: string): (r: string)
    ensures |r| == |s|
    ensures forall i | 0 <= i < |s| :: r[i] == if s[i] == '\\' then '/' else s[i]
  {
    seq(|s|, i requires 0 <= i < |s| => if s[i] == '\\' then '/' else s[i])
  }

  function Split(s: string): (parts: seq<string>)
    ensures parts != []
  {
    if s == "" then [""]
    else
      var rest := Split(s[1..]);
      if s[0] == '/' then [""] + rest else [[s[0]] + rest[0]] + rest[1..]
  }

  function Join(parts: seq<string>): string
  {
    if parts == [] then "" else if |parts| == 1 then parts[0] else parts[0] + "/" + Join(parts[1..])
  }

  /** The components of a path; `..` and blank names are refused, `.` and empty ones skipped. */
  function Components(parts: seq<string>): Option<seq<string>>
  {
    if parts == [] then Some([])
    else if parts[0] == "" || parts[0] == "." then Components(parts[1..])
    else if parts[0] == ".." || Trim(parts[0]) == "" then None
    else
      var rest := Components(parts[1..]);
      if rest.None? then None else Some([parts[0]] + rest.value)
  }

  /** `normalize_relative_path` */
  function NormalizePath(path: string): Option<string> {
    var trimmed := ForwardSlashes(Trim(path));
    if trimmed == "" || trimmed[0] == '/' then None
    else
      var parts := Components(Split(trimmed));
      if parts.None? || parts.value == [] then None else Some(Join(parts.value))
  }

  predicate EndsIn(s: string, suffix: string) {
    |suffix| <= |s| && s[|s| - |suffix|..] == suffix
  }

  /** `validate_memory_file_path` */
  function ValidatePath(path: string): Option<string> {
    var normalized := NormalizePath(path);
    if normalized.Some? && EndsIn(normalized.value, ".md") then normalized else None
  }

  /** The scan takes files with the extension `md`; a file named just `.md` has none. */
  predicate ScanSees(path: string) {
    EndsIn(path, ".md") && path != ".md" && !EndsIn(path, "/.md")
  }

  // ---- Which paths are accepted, and what becomes of them ----------------------------------------

  /** The components of a path that name something: all but empty ones and `.`. */
  function Names(parts: seq<string>): seq<string> {
    if parts == [] then []
    else (if parts[0] == "" || parts[0] == "." then [] else [parts[0]]) + Names(parts[1..])
  }

  /** Nothing leads out of the root, and no name is blank. */
  predicate Inside(names: seq<string>) {
    forall i | 0 <= i < |names| :: names[i] != ".." && Trim(names[i]) != ""
  }

  lemma InsideFirst(first: string, rest: seq<string>)
    ensures Inside([first] + rest) <==> first != ".." && Trim(first) != "" && Inside(rest)
  {
    hide Trim;
    var names := [first] + rest;
    assert names[0] == first && forall i | 0 <= i < |rest| :: names[i + 1] == rest[i];
  }

  lemma {:induction false} ComponentsAreNames(parts: seq<string>)
    ensures Components(parts).Some? <==> Inside(Names(parts))
    ensures Components(parts).Some? ==> Components(parts).value == Names(parts)
  {
    if parts != [] {
      hide Trim, Inside;
      ComponentsAreNames(parts[1..]);
      InsideFirst(parts[0], Names(parts[1..]));
      assert [] + Names(parts[1..]) == Names(parts[1..]);
    }
  }

  /**
   * A path is accepted exactly when, trimmed and with forward slashes, it is relative, names something, and has
   * no `..` and no blank name in it; it then stands for the same names in the same order.
   */
  lemma NormalizesExactly(path: string)
    ensures var given := ForwardSlashes(Trim(path));
            && (NormalizePath(path).Some?
                <==> given != "" && given[0] != '/' && Names(Split(given)) != [] && Inside(Names(Split(given))))
            && (NormalizePath(path).Some? ==> Split(NormalizePath(path).value) == Names(Split(given)))
  {
    hide Trim, Split, Components, Names, Inside;
    var given := ForwardSlashes(Trim(path));
    ComponentsAreNames(Split(given));
    if NormalizePath(path).Some? {
      SplitHasNoSlashes(given);
      ComponentsArePlain(Split(given));
      SplitJoin(Components(Split(given)).value);
    }
  }

  // ---- Normalizing twice -----------------------------------------------------------------------

  predicate PlainName(part: string) {
    && part != "" && part != "." && part != ".." && Trim(part) != ""
    && forall i | 0 <= i < |part| :: part[i] != '/' && part[i] != '\\'
  }

  predicate PlainNames(parts: seq<string>) {
    forall i | 0 <= i < |parts| :: PlainName(parts[i])
  }

  predicate NoSlashes(parts: seq<string>) {
    forall i, j | 0 <= i < |parts| && 0 <= j < |parts[i]| :: parts[i][j] != '/' && parts[i][j] != '\\'
  }

  lemma {:induction false} SplitHasNoSlashes(s: string)
    requires forall i | 0 <= i < |s| :: s[i] != '\\'
    ensures NoSlashes(Split(s))
  {
    if s != "" {
      SplitHasNoSlashes(s[1..]);
    }
  }

  lemma {:induction false} ComponentsArePlain(parts: seq<string>)
    requires NoSlashes(parts) && Components(parts).Some?
    ensures PlainNames(Components(parts).value)
  {
    hide Trim;
    if parts != [] {
      assert NoSlashes(parts[1..]) by { assert forall i | 0 <= i < |parts[1..]| :: parts[1..][i] == parts[i + 1]; }
      ComponentsArePlain(parts[1..]);
    }
  }

  lemma {:induction false} PlainComponents(parts: seq<string>)
    requires PlainNames(parts)
    ensures Components(parts) == Some(parts)
  {
    hide Trim;
    if parts != [] {
      assert PlainName(parts[0]);
      assert forall i | 0 <= i < |parts[1..]| :: parts[1..][i] == parts[i + 1];
      PlainComponents(parts[1..]);
      assert [parts[0]] + parts[1..] == parts;
    }
  }

  lemma {:induction false} SplitOne(name: string, rest: string)
    requires forall i | 0 <= i < |name| :: name[i] != '/'
    ensures Split(name) == [name]
    ensures Split(name + "/" + rest) == [name] + Split(rest)
  {
    var whole := name + "/" + rest;
    if name == "" {
      assert whole[1..] == rest;
    } else {
      SplitOne(name[1..], rest);
      assert whole[1..] == name[1..] + "/" + rest;
      assert [name[0]] + name[1..] == name;
    }
  }

  lemma {:induction false} SplitJoin(parts: seq<string>)
    requires PlainNames(parts) && parts != []
    ensures Split(Join(parts)) == parts
    ensures Join(parts) != "" && Join(parts)[0] != '/'
    ensures forall i | 0 <= i < |Join(parts)| :: Join(parts)[i] != '\\'
  {
    hide Trim;
    assert PlainName(parts[0]);
    if |parts| == 1 {
      SplitOne(parts[0], "");
      assert parts == [parts[0]];
    } else {
      assert forall i | 0 <= i < |parts[1..]| :: parts[1..][i] == parts[i + 1];
      SplitJoin(parts[1..]);
      SplitOne(parts[0], Join(parts[1..]));
    }
  }

  function Span(parts: seq<string>): nat {
    if parts == [] then 0 else |parts[0]| + 1 + Span(parts[1..])
  }

  lemma {:induction false} JoinSpan(parts: seq<string>)
    requires parts != []
    ensures |Join(parts)| + 1 == Span(parts)
  {
    if |parts| > 1 {
      JoinSpan(parts[1..]);
    } else {
      assert parts[1..] == [];
    }
  }

  lemma {:induction false} SplitSpan(s: string)
    ensures Span(Split(s)) == |s| + 1
  {
    if s == "" {
      assert [""][1..] == [];
    } else {
      SplitSpan(s[1..]);
      var rest, all := Split(s[1..]), Split(s);
      if s[0] == '/' {
        assert all[1..] == rest;
      } else {
        assert all[1..] == rest[1..];
      }
    }
  }

  lemma {:induction false} ComponentsShrink(parts: seq<string>)
    requires Components(parts).Some?
    ensures Span(Components(parts).value) <= Span(parts)
  {
    hide Trim;
    if parts != [] {
      ComponentsShrink(parts[1..]);
      var rest := Components(parts[1..]);
      assert rest.Some? ==> ([parts[0]] + rest.value)[1..] == rest.value;
    }
  }

  lemma NormalizeShrinks(path: string)
    requires NormalizePath(path).Some?
    ensures |NormalizePath(path).value| <= |Trim(path)|
  {
    hide Trim;
    var trimmed := ForwardSlashes(Trim(path));
    var parts := Components(Split(trimmed)).value;
    SplitSpan(trimmed);
    ComponentsShrink(Split(trimmed));
    JoinSpan(parts);
  }

  lemma NormalizedParts(path: string) returns (parts: seq<string>)
    requires NormalizePath(path).Some?
    ensures parts != [] && PlainNames(parts) && NormalizePath(path).value == Join(parts)
  {
    hide Trim, PlainNames, NoSlashes;
    var trimmed := ForwardSlashes(Trim(path));
    SplitHasNoSlashes(trimmed);
    ComponentsArePlain(Split(trimmed));
    parts := Components(Split(trimmed)).value;
  }

  /**
   * A normalized path names itself exactly when it has no outer whitespace: a first component may start
   * with a space that a later call would trim away.
   */
  lemma NormalizeTwice(path: string)
    requires NormalizePath(path).Some?
    ensures var r := NormalizePath(path).value; NormalizePath(r) == Some(r) <==> Trimmed(r)
  {
    hide Trim, Trimmed, PlainNames, Components, Split, Join;
    var parts := NormalizedParts(path);
    var r := Join(parts);
    TrimFixesTrimmed(r);
    SplitJoin(parts);
    if Trimmed(r) {
      assert ForwardSlashes(r) == r;
      PlainComponents(parts);
    } else {
      TrimShortens(r);
      if NormalizePath(r).Some? {
        NormalizeShrinks(r);
      }
    }
  }

  lemma TrimShortens(s: string)
    requires Trim(s) != s
    ensures |Trim(s)| < |s|
  {
  }

  /** Every name gives such a path: a document written to `./ name` is stored under ` name`, which reads as `name`. */
  lemma SpaceAfterDot(name: string)
    requires PlainName(name) && Trimmed(name)
    ensures NormalizePath("." + "/" + (" " + name)) == Some(" " + name)
    ensures NormalizePath(" " + name) == Some(name)
  {
    hide Trim, Trimmed, Split, Components;
    var spaced := " " + name;
    var path := "." + "/" + spaced;
    TrimOutside(name);
    SplitOne(".", spaced);
    SplitOne(spaced, "");
    SplitOne(name, "");
    NameComponents(spaced, name);
    assert ForwardSlashes(path) == path && ForwardSlashes(name) == name;
  }

  /** A plain name without outer whitespace is a path of its own. */
  lemma PlainNameStays(name: string)
    requires PlainName(name) && Trimmed(name)
    ensures NormalizePath(name) == Some(name)
  {
    hide Trim, Trimmed, Split, Components;
    TrimFixesTrimmed(name);
    SplitOne(name, "");
    assert [name][1..] == [];
    PlainComponents([name]);
    assert ForwardSlashes(name) == name;
  }

  lemma NameComponents(spaced: string, name: string)
    requires PlainName(name) && spaced == " " + name && Trim(spaced) == name
    ensures Components(["."] + [spaced]) == Some([spaced]) && Components([name]) == Some([name])
  {
    hide Trim;
    assert (["."] + [spaced])[1..] == [spaced];
    assert spaced[0] == ' ' && spaced[1..] == name;
    assert PlainName(name) && PlainName(spaced);
    PlainComponents([spaced]);
    PlainComponents([name]);
  }

  /** A leading space is trimmed away first. */
  lemma TrimStartSpace(s: string)
    ensures TrimStart(" " + s) == TrimStart(s)
  {
    assert (" " + s)[1..] == s;
  }

  lemma TrimStartFixes(s: string)
    requires s != "" && !IsWhitespace(s[0])
    ensures TrimStart(s) == s
  {
  }

  lemma TrimAfterSpace(name: string)
    requires name != "" && Trimmed(name)
    ensures Trim(" " + name) == name
  {
    hide TrimStart, TrimEnd, IsWhitespace;
    TrimStartSpace(name);
    TrimStartFixes(name);
    TrimFixesTrimmed(name);
  }

  /** Text between two characters that are not whitespace is trimmed already. */
  lemma EndsAreTrimmed(s: string)
    requires s != "" && !IsWhitespace(s[0]) && !IsWhitespace(s[|s| - 1])
    ensures Trim(s) == s
  {
    hide Trim, IsWhitespace;
    TrimFixesTrimmed(s);
  }

  lemma TrimOutside(name: string)
    requires name != "" && Trimmed(name)
    ensures Trim(" " + name) == name && Trim("." + "/" + (" " + name)) == "." + "/" + (" " + name)
  {
    hide Trim, IsWhitespace;
    TrimAfterSpace(name);
    var path := "." + "/" + (" " + name);
    DotIsNoSpace();
    assert path[0] == '.' && path[|path| - 1] == name[|name| - 1];
    EndsAreTrimmed(path);
  }

  lemma DotIsNoSpace()
    ensures !IsWhitespace('.')
  {
  }

  // ---- The loop over components ------------------------------------------------------------------

  /** `normalize_relative_path`, as its loop over the components. */
  method NormalizeRelativePath(path: string) returns (normalized: Option<string>)
    ensures normalized == NormalizePath(path)
  {
    hide Trim, Split;
    var trimmed := ForwardSlashes(Trim(path));
    if trimmed == "" || trimmed[0] == '/' {
      return None;
    }
    var candidates := Split(trimmed);
    var parts, i := [], 0;
    while i < |candidates|
      invariant i <= |candidates|
      invariant Components(candidates).Some? <==> Components(candidates[i..]).Some?
      invariant Components(candidates).Some? ==>
                  Components(candidates).value == parts + Components(candidates[i..]).value
    {
      assert candidates[i..][1..] == candidates[i + 1..];
      var part := candidates[i];
      if part != "" && part != "." {
        if part == ".." || Trim(part) == "" {
          return None;
        }
        parts := parts + [part];
      }
      i := i + 1;
    }
    assert parts + [] == parts;
    normalized := if parts == [] then None else Some(Join(parts));
  }
}
