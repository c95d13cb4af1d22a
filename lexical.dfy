/**
 * The two lexical services the macros borrow from other crates, modelled on
 * ASCII text: convert_case's snake case (used for default handler names) and
 * syn's `LitStr::parse` into an identifier or a path (used for `enter = "..."`
 * and `with = "..."`).
 */
module Lexical {
  import opened Syntax

  predicate IsLower(c: char) { 'a' <= c <= 'z' }
  predicate IsUpper(c: char) { 'A' <= c <= 'Z' }
  predicate IsDigit(c: char) { '0' <= c <= '9' }

  /** convert_case's delimiter boundaries: underscore, hyphen and space. */
  predicate IsDelimiter(c: char) { c == '_' || c == '-' || c == ' ' }

  /**
   * convert_case's default boundaries between `s[i-1]` and `s[i]` inside a word:
   * lower-upper, lower-digit, upper-digit, digit-upper, digit-lower, and the
   * acronym boundary before the last capital of a run followed by a lower-case letter.
   */
  predicate IsBoundary(s: string, i: nat)
    requires 0 < i < |s|
  {
    var a, b := s[i - 1], s[i];
    || (IsLower(a) && IsUpper(b))
    || (IsLower(a) && IsDigit(b))
    || (IsUpper(a) && IsDigit(b))
    || (IsDigit(a) && IsUpper(b))
    || (IsDigit(a) && IsLower(b))
    || (IsUpper(a) && IsUpper(b) && i + 1 < |s| && IsLower(s[i + 1]))
  }

  function NonEmpty(w: string): seq<string> {
    if w == [] then [] else [w]
  }

  /** The words of `s[start..]`, scanning from `i`; `s[start..i]` is the current word. */
  function SplitWords(s: string, start: nat, i: nat): (words: seq<string>)
    requires start <= i <= |s|
    ensures forall k :: 0 <= k < |words| ==> |words[k]| > 0
    decreases |s| - i
  {
    if i == |s| then NonEmpty(s[start..])
    else if IsDelimiter(s[i]) then NonEmpty(s[start..i]) + SplitWords(s, i + 1, i + 1)
    else if start < i && IsBoundary(s, i) then [s[start..i]] + SplitWords(s, i, i + 1)
    else SplitWords(s, start, i + 1)
  }

  function ToLower(c: char): (l: char)
    ensures !IsUpper(l)
  {
    if IsUpper(c) then (c as int + 32) as char else c
  }

  predicate NoUpper(s: string) {
    forall c :: c in s ==> !IsUpper(c)
  }

  function Lowercase(w: string): (l: string)
    ensures |l| == |w| && NoUpper(l)
  {
    seq(|w|, i requires 0 <= i < |w| => ToLower(w[i]))
  }

  /** `to_case(Case::Snake)`: the words in lower case, joined by `_`. */
  function SnakeCase(s: string): (r: string)
    ensures NoUpper(r)
  {
    var words := SplitWords(s, 0, 0);
    var lowered := seq(|words|, k requires 0 <= k < |words| => Lowercase(words[k]));
    JoinHasNoUpper(lowered, "_");
    Join(lowered, "_")
  }

  lemma {:induction false} JoinHasNoUpper(parts: seq<string>, sep: string)
    requires forall p :: p in parts ==> NoUpper(p)
    requires NoUpper(sep)
    ensures NoUpper(Join(parts, sep))
  {
    if |parts| > 1 {
      JoinHasNoUpper(parts[1..], sep);
      assert parts[0] in parts;
      assert Join(parts, sep) == parts[0] + sep + Join(parts[1..], sep);
    } else if |parts| == 1 {
      assert parts[0] in parts;
    }
  }

  /** A run of lower-case letters after a letter holds no boundary: the scan passes over it. */
  lemma {:induction false} LowerRun(s: string, start: nat, i: nat, end: nat)
    requires start < i <= end <= |s|
    requires !IsDigit(s[i - 1])
    requires forall k :: i <= k < end ==> IsLower(s[k])
    ensures SplitWords(s, start, i) == SplitWords(s, start, end)
    decreases end - i
  {
    if i < end {
      assert IsLower(s[i]) && !IsBoundary(s, i);
      LowerRun(s, start, i + 1, end);
    }
  }

  /** A capitalised word is one word: its snake case lowers its first letter. */
  lemma CapitalizedSnakeCase(s: string)
    requires |s| > 0 && IsUpper(s[0])
    requires forall k :: 1 <= k < |s| ==> IsLower(s[k])
    ensures SnakeCase(s) == [ToLower(s[0])] + s[1..]
  {
    LowerRun(s, 0, 1, |s|);
    assert s[0..] == s;
    assert SplitWords(s, 0, 0) == [s];
    assert Lowercase(s) == [ToLower(s[0])] + s[1..];
  }

  // syn's rules for identifiers, restricted to ASCII.

  /** Words syn refuses as identifiers (rustc's keywords and reserved words, and `_`). */
  const Keywords: set<string> := {
    "_", "abstract", "as", "async", "await", "become", "box", "break", "const", "continue",
    "crate", "do", "dyn", "else", "enum", "extern", "false", "final", "fn", "for", "if",
    "impl", "in", "let", "loop", "macro", "match", "mod", "move", "mut", "override", "priv",
    "pub", "ref", "return", "Self", "self", "static", "struct", "super", "trait", "true",
    "try", "type", "typeof", "unsafe", "unsized", "use", "virtual", "where", "while", "yield"
  }

  /** Keywords syn still accepts as a path segment. */
  const PathKeywords: set<string> := {"self", "super", "crate", "Self"}

  predicate IsIdentStart(c: char) { IsLower(c) || IsUpper(c) || c == '_' }
  predicate IsIdentContinue(c: char) { IsIdentStart(c) || IsDigit(c) }

  predicate IsIdentifier(s: string) {
    && |s| > 0
    && IsIdentStart(s[0])
    && (forall i :: 1 <= i < |s| ==> IsIdentContinue(s[i]))
    && s !in Keywords
  }

  predicate IsPathSegment(s: string) {
    IsIdentifier(s) || s in PathKeywords
  }

  /** Stands for syn's own message when a string literal does not parse. */
  const ExpectedIdentifierMsg: string := "expected identifier"

  /** `LitStr::parse::<Ident>`. */
  function ParseIdent(text: string): (r: Result<Ident>)
    ensures r.Ok? <==> IsIdentifier(text)
    ensures r.Ok? ==> r.value == text
    ensures r.Err? ==> r.msg == ExpectedIdentifierMsg
  {
    if IsIdentifier(text) then Ok(text) else Err(ExpectedIdentifierMsg)
  }

  /** The pieces of `s[start..]` between occurrences of `::`, scanning from `i`. */
  function SplitColons(s: string, start: nat, i: nat): (parts: seq<string>)
    requires start <= i <= |s|
    ensures |parts| > 0
    decreases |s| - i
  {
    if i == |s| then [s[start..]]
    else if i + 1 < |s| && s[i] == ':' && s[i + 1] == ':' then [s[start..i]] + SplitColons(s, i + 2, i + 2)
    else SplitColons(s, start, i + 1)
  }

  /** `LitStr::parse::<Path>`: `::`-separated segments, an optional leading `::`. */
  function ParsePath(text: string): (r: Result<Path>)
    ensures r.Ok? ==> forall k :: 0 <= k < |r.value.segments| ==> IsPathSegment(r.value.segments[k])
    ensures r.Err? ==> r.msg == ExpectedIdentifierMsg
  {
    var parts := SplitColons(text, 0, 0);
    var global := |parts| > 1 && parts[0] == "";
    var segments := if global then parts[1..] else parts;
    if forall k :: 0 <= k < |segments| ==> IsPathSegment(segments[k])
    then Ok(Path(global, segments))
    else Err(ExpectedIdentifierMsg)
  }

  lemma {:induction false} SplitColonsNoColon(s: string, start: nat, i: nat)
    requires start <= i <= |s|
    requires forall k :: start <= k < |s| ==> s[k] != ':'
    ensures SplitColons(s, start, i) == [s[start..]]
    decreases |s| - i
  {
    if i < |s| {
      SplitColonsNoColon(s, start, i + 1);
    }
  }

  /** A literal holding a plain identifier parses to the one-segment path of it. */
  lemma ParsePathOfIdent(text: string)
    requires IsIdentifier(text)
    ensures ParsePath(text) == Ok(IdentPath(text))
  {
    forall k | 0 <= k < |text| ensures text[k] != ':' {
      if k > 0 { assert IsIdentContinue(text[k]); }
    }
    SplitColonsNoColon(text, 0, 0);
    assert text[0..] == text;
    var parts := SplitColons(text, 0, 0);
    assert parts == [text];
    assert IsPathSegment(parts[0]);
    assert forall k :: 0 <= k < |parts| ==> IsPathSegment(parts[k]);
  }
}
