/**
 * The few operations of java.lang.String the core relies on: `split` with a literal
 * delimiter, `split("\\s*,\\s*")`, `toLowerCase`, `contains`, and joining tokens back.
 */
module JavaText {

  /** `d` occurs in `s` starting at index `i`. */
  predicate OccursAt(s: string, d: string, i: int) {
    0 <= i && i + |d| <= |s| && s[i..i + |d|] == d
  }

  /** `String.endsWith`. */
  predicate EndsWith(s: string, d: string) {
    |d| <= |s| && s[|s| - |d|..] == d
  }

  /** `String.contains`. */
  predicate Contains(s: string, d: string) {
    exists i :: 0 <= i <= |s| - |d| && OccursAt(s, d, i)
  }

  /** The tokens separated by `d`, the inverse of splitting. */
  function Join(xs: seq<string>, d: string): (r: string)
    ensures |xs| > 0 ==> xs[0] <= r
  {
    if |xs| == 0 then ""
    else if |xs| == 1 then xs[0]
    else xs[0] + d + Join(xs[1..], d)
  }

  /**
   * The pieces of `s` between the leftmost non-overlapping occurrences of the non-empty
   * literal `d`, empty pieces included (what a regex matcher cuts before Java drops the
   * trailing empty ones).
   */
  function Fields(s: string, d: string): (r: seq<string>)
    requires |d| > 0
    ensures |r| >= 1
    ensures r[0] <= s
    decreases |s|
  {
    if |d| <= |s| && s[..|d|] == d then [""] + Fields(s[|d|..], d)
    else if |s| == 0 then [""]
    else
      var rest := Fields(s[1..], d);
      [[s[0]] + rest[0]] + rest[1..]
  }

  /** Java's limit-0 rule: trailing empty strings are not part of the result. */
  function DropTrailingEmpty(xs: seq<string>): (r: seq<string>)
    ensures r <= xs
    ensures |r| > 0 ==> r[|r| - 1] != ""
    ensures forall i :: |r| <= i < |xs| ==> xs[i] == ""
    decreases |xs|
  {
    if |xs| == 0 then []
    else if xs[|xs| - 1] == "" then DropTrailingEmpty(xs[..|xs| - 1])
    else xs
  }

  /** One token per character: what the empty pattern cuts. */
  function Chars(s: string): (r: seq<string>)
    ensures |r| == |s|
    ensures forall i :: 0 <= i < |s| ==> r[i] == [s[i]]
  {
    seq(|s|, i requires 0 <= i < |s| => [s[i]])
  }

  /**
   * `s.split(d)` where `d` is read as a literal pattern. An input without a match comes back
   * whole (so "" gives [""]); otherwise the fields, minus the trailing empty ones.
   */
  function Split(s: string, d: string): seq<string> {
    if s == "" then [""]
    else if d == "" then Chars(s)
    else DropTrailingEmpty(Fields(s, d))
  }

  /** `\s` of java.util.regex: space, tab, newline, vertical tab, form feed, carriage return. */
  predicate IsRegexSpace(c: char) {
    c == ' ' || 9 <= c as int <= 13
  }

  function TrimStart(s: string): (r: string)
    ensures |r| <= |s| && r == s[|s| - |r|..]
    ensures r == "" || !IsRegexSpace(r[0])
    ensures forall i :: 0 <= i < |s| - |r| ==> IsRegexSpace(s[i])
    decreases |s|
  {
    if |s| > 0 && IsRegexSpace(s[0]) then TrimStart(s[1..]) else s
  }

  function TrimEnd(s: string): (r: string)
    ensures |r| <= |s| && r == s[..|r|]
    ensures r == "" || !IsRegexSpace(r[|r| - 1])
    ensures forall i :: |r| <= i < |s| ==> IsRegexSpace(s[i])
    decreases |s|
  {
    if |s| > 0 && IsRegexSpace(s[|s| - 1]) then TrimEnd(s[..|s| - 1]) else s
  }

  /**
   * The comma fields with the whitespace next to each comma removed: what the matches of
   * `\s*,\s*` consume. The first field keeps its leading and the last its trailing space.
   */
  function TrimAroundCommas(fs: seq<string>): (r: seq<string>)
    ensures |r| == |fs|
  {
    seq(|fs|, i requires 0 <= i < |fs| =>
      var t := if i > 0 then TrimStart(fs[i]) else fs[i];
      if i < |fs| - 1 then TrimEnd(t) else t)
  }

  /** `s.split("\\s*,\\s*")`. */
  function SplitOnCommas(s: string): seq<string> {
    if s == "" then [""] else DropTrailingEmpty(TrimAroundCommas(Fields(s, ",")))
  }

  /** `toLowerCase`, on the ASCII letters. */
  function ToLower(s: string): (r: string)
    ensures |r| == |s|
    ensures forall i :: 0 <= i < |s| ==> r[i] == LowerChar(s[i])
  {
    seq(|s|, i requires 0 <= i < |s| => LowerChar(s[i]))
  }

  function LowerChar(c: char): char {
    if 'A' <= c <= 'Z' then (c as int + 32) as char else c
  }

  // ---------------------------------------------------------------------------------
  // Splitting and joining
  // ---------------------------------------------------------------------------------

  /** Joining after an empty first token starts with the delimiter. */
  lemma JoinAfterEmpty(xs: seq<string>, d: string)
    requires |xs| >= 1
    ensures Join([""] + xs, d) == d + Join(xs, d)
  {
    var r := [""] + xs;
    assert r[1..] == xs;
  }

  /** Prepending a character to the first token prepends it to the join. */
  lemma JoinConsChar(c: char, xs: seq<string>, d: string)
    requires |xs| >= 1
    ensures Join([[c] + xs[0]] + xs[1..], d) == [c] + Join(xs, d)
  {
    var r := [[c] + xs[0]] + xs[1..];
    if |xs| > 1 {
      var tail := Join(xs[1..], d);
      assert r[1..] == xs[1..];
      assert Join(r, d) == ([c] + xs[0]) + d + tail;
      assert ([c] + xs[0]) + d + tail == [c] + (xs[0] + d + tail);
    }
  }

  /** Joining the fields with the delimiter rebuilds the input. */
  lemma {:induction false} JoinFields(s: string, d: string)
    requires |d| > 0
    ensures Join(Fields(s, d), d) == s
    decreases |s|
  {
    if |d| <= |s| && s[..|d|] == d {
      var rest := s[|d|..];
      JoinFields(rest, d);
      JoinAfterEmpty(Fields(rest, d), d);
      assert s == d + rest;
    } else if |s| == 0 {
    } else {
      JoinFields(s[1..], d);
      JoinConsChar(s[0], Fields(s[1..], d), d);
      assert s == [s[0]] + s[1..];
    }
  }

  /** No field holds an occurrence of the delimiter. */
  lemma {:induction false} FieldsAvoidDelimiter(s: string, d: string)
    requires |d| > 0
    ensures forall k :: 0 <= k < |Fields(s, d)| ==> !Contains(Fields(s, d)[k], d)
    decreases |s|
  {
    var r := Fields(s, d);
    if |d| <= |s| && s[..|d|] == d {
      FieldsAvoidDelimiter(s[|d|..], d);
      assert r == [""] + Fields(s[|d|..], d);
      assert !Contains("", d);
    } else if |s| == 0 {
      assert !Contains("", d);
    } else {
      var rest := Fields(s[1..], d);
      FieldsAvoidDelimiter(s[1..], d);
      var t := [s[0]] + rest[0];
      assert r == [t] + rest[1..];
      assert !OccursAt(t, d, 0) by {
        assert t <= s;
        if |d| <= |t| { assert s[..|d|] == t[..|d|]; }
      }
      OccurrenceInTail(s[0], rest[0], d);
    }
  }

  /** An occurrence in `[c] + u` that is not at the front is an occurrence in `u`. */
  lemma OccurrenceInTail(c: char, u: string, d: string)
    requires |d| > 0 && !Contains(u, d) && !OccursAt([c] + u, d, 0)
    ensures !Contains([c] + u, d)
  {
    var t := [c] + u;
    if Contains(t, d) {
      var i :| 0 <= i <= |t| - |d| && OccursAt(t, d, i);
      assert t[i..i + |d|] == u[i - 1..i - 1 + |d|];
      assert OccursAt(u, d, i - 1);
    }
  }

  /** The last field is empty only when the input is empty or ends with the delimiter. */
  lemma {:induction false} LastFieldEmpty(s: string, d: string)
    requires |d| > 0
    requires Fields(s, d)[|Fields(s, d)| - 1] == ""
    ensures s == "" || (|d| <= |s| && s[|s| - |d|..] == d)
    decreases |s|
  {
    if |d| <= |s| && s[..|d|] == d {
      var rest := s[|d|..];
      assert Fields(s, d) == [""] + Fields(rest, d);
      if rest != "" {
        LastFieldEmpty(rest, d);
        assert s[|s| - |d|..] == rest[|rest| - |d|..];
      } else {
        assert s == d;
      }
    } else if |s| == 0 {
    } else {
      var rest := Fields(s[1..], d);
      assert Fields(s, d) == [[s[0]] + rest[0]] + rest[1..];
      if |rest| > 1 {
        LastFieldEmpty(s[1..], d);
        assert s[1..] != "";
        assert s[|s| - |d|..] == s[1..][|s[1..]| - |d|..];
      }
    }
  }

  /**
   * No token of `split` holds the delimiter, and joining the tokens with the delimiter
   * gives back the raw string when it does not end with the delimiter.
   */
  lemma SplitTokensAndJoin(s: string, d: string)
    requires |d| > 0
    ensures forall k :: 0 <= k < |Split(s, d)| ==> !Contains(Split(s, d)[k], d)
    ensures !EndsWith(s, d) ==> Join(Split(s, d), d) == s
  {
    if s == "" {
      assert !Contains("", d);
    } else {
      var f := Fields(s, d);
      FieldsAvoidDelimiter(s, d);
      assert Split(s, d) <= f;
      if !EndsWith(s, d) {
        if f[|f| - 1] == "" { LastFieldEmpty(s, d); }
        assert DropTrailingEmpty(f) == f;
        JoinFields(s, d);
      }
    }
  }

  /** A string without the delimiter's first character is a single field. */
  lemma {:induction false} FieldsOfPlain(x: string, d: string)
    requires |d| > 0 && d[0] !in x
    ensures Fields(x, d) == [x]
    decreases |x|
  {
    if |x| > 0 {
      assert x[0] != d[0];
      FieldsOfPlain(x[1..], d);
      assert x == [x[0]] + x[1..];
    }
  }

  /** A field free of the delimiter's first character is cut off at the next delimiter. */
  lemma {:induction false} FieldsAfterPlain(x: string, d: string, rest: string)
    requires |d| > 0 && d[0] !in x
    ensures Fields(x + d + rest, d) == [x] + Fields(rest, d)
    decreases |x|
  {
    var s := x + d + rest;
    if |x| == 0 {
      assert s == d + rest;
      assert s[..|d|] == d;
      assert s[|d|..] == rest;
    } else {
      assert s[0] == x[0] != d[0];
      assert s[1..] == x[1..] + d + rest;
      FieldsAfterPlain(x[1..], d, rest);
      assert x == [x[0]] + x[1..];
    }
  }

  /** Splitting a join of tokens free of the delimiter's first character gives them back. */
  lemma {:induction false} FieldsOfJoin(xs: seq<string>, d: string)
    requires |d| > 0 && |xs| >= 1
    requires forall k :: 0 <= k < |xs| ==> d[0] !in xs[k]
    ensures Fields(Join(xs, d), d) == xs
    decreases |xs|
  {
    if |xs| == 1 {
      FieldsOfPlain(xs[0], d);
    } else {
      FieldsOfJoin(xs[1..], d);
      FieldsAfterPlain(xs[0], d, Join(xs[1..], d));
      assert xs == [xs[0]] + xs[1..];
    }
  }

  /** `split` inverts `Join` on tokens free of the delimiter's first character. */
  lemma SplitOfJoin(xs: seq<string>, d: string)
    requires |d| > 0 && |xs| >= 1 && xs[|xs| - 1] != ""
    requires forall k :: 0 <= k < |xs| ==> d[0] !in xs[k]
    ensures Split(Join(xs, d), d) == xs
  {
    FieldsOfJoin(xs, d);
    var s := Join(xs, d);
    assert s != "";
  }

  /**
   * `split("\\s*,\\s*")` inverts joining with "," for names that are non-empty, hold no
   * comma and neither start nor end with whitespace.
   */
  lemma SplitOnCommasOfJoin(xs: seq<string>)
    requires |xs| >= 1
    requires forall k :: 0 <= k < |xs| ==> xs[k] != "" && ',' !in xs[k]
    requires forall k :: 0 <= k < |xs| ==> !IsRegexSpace(xs[k][0])
    requires forall k :: 0 <= k < |xs| ==> !IsRegexSpace(xs[k][|xs[k]| - 1])
    ensures SplitOnCommas(Join(xs, ",")) == xs
  {
    var s := Join(xs, ",");
    FieldsOfJoin(xs, ",");
    assert s != "";
    var t := TrimAroundCommas(xs);
    forall k | 0 <= k < |xs| ensures t[k] == xs[k] {
      assert TrimStart(xs[k]) == xs[k];
      assert TrimEnd(xs[k]) == xs[k];
    }
    assert t == xs;
  }

  /** A field without an occurrence of "," holds no comma character. */
  lemma NoCommaChar(f: string)
    requires !Contains(f, ",")
    ensures ',' !in f
  {
    if ',' in f {
      var i :| 0 <= i < |f| && f[i] == ',';
      assert f[i..i + 1] == ",";
      assert OccursAt(f, ",", i);
    }
  }

  /** Trimming whitespace adds no character. */
  lemma TrimKeepsCharOut(c: char, f: string)
    requires c !in f
    ensures c !in TrimStart(f) && c !in TrimEnd(f)
  {
  }

  /** Trimming a comma-free field keeps it comma-free. */
  lemma TrimmedFieldAvoidsComma(fs: seq<string>, k: int)
    requires 0 <= k < |fs| && ',' !in fs[k]
    ensures ',' !in TrimAroundCommas(fs)[k]
  {
    TrimKeepsCharOut(',', fs[k]);
    TrimKeepsCharOut(',', TrimStart(fs[k]));
  }

  /** No token of `split("\\s*,\\s*")` holds a comma. */
  lemma SplitOnCommasAvoidsCommas(s: string)
    ensures forall k :: 0 <= k < |SplitOnCommas(s)| ==> ',' !in SplitOnCommas(s)[k]
  {
    if s != "" {
      var f := Fields(s, ",");
      FieldsAvoidDelimiter(s, ",");
      var t := TrimAroundCommas(f);
      forall k | 0 <= k < |t| ensures ',' !in t[k] {
        NoCommaChar(f[k]);
        TrimmedFieldAvoidsComma(f, k);
      }
      assert SplitOnCommas(s) <= t;
    }
  }
}
