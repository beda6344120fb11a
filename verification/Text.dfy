/** The parts of Rust's `str` that the modelled code relies on, over sequences of characters. */
module Text {
  import opened Wrappers

  /** `char::is_whitespace`: the characters with the Unicode property White_Space. */
  predicate IsWhitespace(c: char) {
    || '\U{0009}' <= c <= '\U{000D}'
    || c == ' '
    || c == '\U{0085}'
    || c == '\U{00A0}'
    || c == '\U{1680}'
    || '\U{2000}' <= c <= '\U{200A}'
    || c == '\U{2028}'
    || c == '\U{2029}'
    || c == '\U{202F}'
    || c == '\U{205F}'
    || c == '\U{3000}'
  }

  /** `s.trim().is_empty()` */
  predicate IsBlank(s: string) {
    forall i | 0 <= i < |s| :: IsWhitespace(s[i])
  }

  function TrimStart(s: string): (r: string)
    ensures |r| <= |s| && r == s[|s| - |r|..]
    ensures r != "" ==> !IsWhitespace(r[0])
  {
    if s != "" && IsWhitespace(s[0]) then TrimStart(s[1..]) else s
  }

  function TrimEnd(s: string): (r: string)
    ensures |r| <= |s| && r == s[..|r|]
    ensures r != "" ==> !IsWhitespace(r[|r| - 1])
  {
    if s != "" && IsWhitespace(s[|s| - 1]) then TrimEnd(s[..|s| - 1]) else s
  }

  /** `s.trim()` */
  function Trim(s: string): (r: string)
    ensures r != "" ==> !IsWhitespace(r[0]) && !IsWhitespace(r[|r| - 1])
  {
    var front := TrimStart(s);
    var both := TrimEnd(front);
    assert both != "" ==> both[0] == front[0];
    both
  }

  /** No outer whitespace: exactly the strings that `trim` leaves alone. */
  predicate Trimmed(s: string) {
    s == "" || (!IsWhitespace(s[0]) && !IsWhitespace(s[|s| - 1]))
  }

  lemma TrimFixesTrimmed(s: string)
    ensures Trim(s) == s <==> Trimmed(s)
    ensures Trimmed(Trim(s))
    ensures Trim(Trim(s)) == Trim(s)
  {
  }

  /** `pattern` occurs in `s` at index `i`. */
  predicate OccursAt(s: string, pattern: string, i: int) {
    0 <= i <= |s| - |pattern| && s[i..i + |pattern|] == pattern
  }

  ghost predicate Contains(s: string, pattern: string) {
    exists i :: OccursAt(s, pattern, i)
  }

  /** `s[from..].find(pattern)`, as an index into `s`. */
  function FindFrom(s: string, pattern: string, from: nat): (r: Option<nat>)
    requires from <= |s|
    ensures r.Some? ==> from <= r.value && OccursAt(s, pattern, r.value)
    ensures r.Some? ==> forall i | from <= i < r.value :: !OccursAt(s, pattern, i)
    ensures r.None? ==> forall i | from <= i :: !OccursAt(s, pattern, i)
    decreases |s| - from
  {
    if OccursAt(s, pattern, from) then Some(from)
    else if from == |s| then None
    else FindFrom(s, pattern, from + 1)
  }

  /** `char::to_ascii_lowercase` */
  function LowerChar(c: char): char {
    if 'A' <= c <= 'Z' then (c as int + 32) as char else c
  }

  /** `str::to_ascii_lowercase` */
  function AsciiLower(s: string): (r: string)
    ensures |r| == |s| && forall i | 0 <= i < |s| :: r[i] == LowerChar(s[i])
  {
    seq(|s|, i requires 0 <= i < |s| => LowerChar(s[i]))
  }

  // ---- `str` order, and sorted name lists -----------------------------------------------------

  /** `a < b` for strings: by code points, a proper prefix first. */
  predicate Before(a: string, b: string) {
    if b == "" then false
    else if a == "" then true
    else a[0] < b[0] || (a[0] == b[0] && Before(a[1..], b[1..]))
  }

  lemma {:induction false} BeforeTotal(a: string, b: string)
    ensures !(Before(a, b) && Before(b, a))
    ensures a == b <==> !Before(a, b) && !Before(b, a)
    decreases |a|
  {
    if a != "" && b != "" {
      BeforeTotal(a[1..], b[1..]);
      if a[0] == b[0] && a[1..] == b[1..] {
        assert a == [a[0]] + a[1..] == b;
      }
    }
  }

  lemma {:induction false} BeforeTransitive(a: string, b: string, c: string)
    requires Before(a, b) && Before(b, c)
    ensures Before(a, c)
    decreases |a|
  {
    if a != "" && a[0] == b[0] == c[0] {
      BeforeTransitive(a[1..], b[1..], c[1..]);
    }
  }

  /** Sorted and free of duplicates. */
  predicate StrictlySorted(names: seq<string>) {
    forall i, j | 0 <= i < j < |names| :: Before(names[i], names[j])
  }

  /** Push, `sort` and `dedup` of one name on a list that was already sorted. */
  function InsertName(names: seq<string>, name: string): (r: seq<string>)
    ensures forall x :: x in r <==> x == name || x in names
    ensures name in names && StrictlySorted(names) ==> r == names
    ensures name !in names ==> |r| == |names| + 1
  {
    if names == [] then [name]
    else if names[0] == name then names
    else if Before(name, names[0]) then
      SortedHead(names, name);
      [name] + names
    else
      assert names == [names[0]] + names[1..];
      assert StrictlySorted(names) ==> StrictlySorted(names[1..]);
      [names[0]] + InsertName(names[1..], name)
  }

  /** A name before the head of a sorted list is not in it. */
  lemma SortedHead(names: seq<string>, name: string)
    requires names != [] && Before(name, names[0])
    ensures StrictlySorted(names) ==> name !in names
  {
    if StrictlySorted(names) {
      forall i | 0 <= i < |names| ensures names[i] != name {
        BeforeTotal(name, names[0]);
        if i > 0 {
          BeforeTransitive(name, names[0], names[i]);
          BeforeTotal(name, names[i]);
        }
      }
    }
  }

  lemma {:induction false} InsertKeepsSorted(names: seq<string>, name: string)
    requires StrictlySorted(names)
    ensures StrictlySorted(InsertName(names, name))
  {
    if names == [] || names[0] == name {
    } else if Before(name, names[0]) {
      var r := InsertName(names, name);
      forall i, j | 0 <= i < j < |r| ensures Before(r[i], r[j]) {
        if i == 0 && j > 1 {
          BeforeTransitive(name, names[0], names[j - 1]);
        }
      }
    } else {
      BeforeTotal(name, names[0]);
      InsertKeepsSorted(names[1..], name);
      var rest := InsertName(names[1..], name);
      forall j | 0 <= j < |rest| ensures Before(names[0], rest[j]) {
        assert rest[j] in rest;
        if rest[j] != name {
          var k :| 0 <= k < |names[1..]| && names[1..][k] == rest[j];
          assert names[1..][k] == names[k + 1];
        }
      }
    }
  }

  /** `retain(|candidate| candidate != name)` */
  function RemoveName(names: seq<string>, name: string): (r: seq<string>)
    ensures forall x :: x in r <==> x != name && x in names
    ensures name !in names ==> r == names
    ensures name in names ==> |r| < |names|
  {
    if names == [] then []
    else
      assert names == [names[0]] + names[1..];
      (if names[0] == name then [] else [names[0]]) + RemoveName(names[1..], name)
  }

  lemma {:induction false} RemoveKeepsSorted(names: seq<string>, name: string)
    requires StrictlySorted(names)
    ensures StrictlySorted(RemoveName(names, name))
  {
    if names != [] {
      RemoveKeepsSorted(names[1..], name);
      var rest := RemoveName(names[1..], name);
      forall j | 0 <= j < |rest| ensures Before(names[0], rest[j]) {
        assert rest[j] in rest;
        var k :| 0 <= k < |names[1..]| && names[1..][k] == rest[j];
        assert names[1..][k] == names[k + 1];
      }
    }
  }

  // ---- Numbers -------------------------------------------------------------------------------

  const DIGITS := "0123456789"

  /** A number as `format!` prints it. */
  function Decimal(n: nat): (r: string)
    ensures r != [] && forall i | 0 <= i < |r| :: '0' <= r[i] <= '9'
    decreases n
  {
    if n < 10 then [DIGITS[n]] else Decimal(n / 10) + [DIGITS[n % 10]]
  }

  /** The number that a string of digits stands for. */
  function ReadDecimal(s: string): nat {
    if s == "" then 0
    else
      var last := s[|s| - 1];
      10 * ReadDecimal(s[..|s| - 1]) + (if '0' <= last <= '9' then last as int - '0' as int else 0)
  }

  lemma {:induction false} DecimalReadsBack(n: nat)
    ensures ReadDecimal(Decimal(n)) == n
    decreases n
  {
    if n >= 10 {
      DecimalReadsBack(n / 10);
      assert Decimal(n)[..|Decimal(n)| - 1] == Decimal(n / 10);
    }
  }
}
