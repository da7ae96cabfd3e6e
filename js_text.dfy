/** The JavaScript string built-ins the source relies on, with their
    JavaScript semantics: `trim`, `trimStart`, `substring`, `includes`, `split`,
    and the array method `slice`. */
module JsText {

  /** The characters JavaScript treats as white space or line terminators: what
      `String.prototype.trim` strips and what the regular-expression class `\s` matches. */
  predicate IsSpace(c: char) {
    || c == '\t' || c == '\n' || c == '\U{000B}' || c == '\U{000C}' || c == '\r' || c == ' '
    || c == '\U{00A0}' || c == '\U{1680}' || ('\U{2000}' <= c <= '\U{200A}')
    || c == '\U{2028}' || c == '\U{2029}' || c == '\U{202F}' || c == '\U{205F}'
    || c == '\U{3000}' || c == '\U{FEFF}'
  }

  predicate AllSpace(s: string) {
    forall i :: 0 <= i < |s| ==> IsSpace(s[i])
  }

  /** `s.trimStart()`: the suffix of `s` left after dropping its leading white space. */
  function TrimStart(s: string): (r: string)
    ensures |r| <= |s| && r == s[|s| - |r|..]
    ensures AllSpace(s[..|s| - |r|])
    ensures r == [] || !IsSpace(r[0])
  {
    if s == [] || !IsSpace(s[0]) then s else TrimStart(s[1..])
  }

  /** `s.trimEnd()`: the prefix of `s` left after dropping its trailing white space. */
  function TrimEnd(s: string): (r: string)
    ensures |r| <= |s| && r == s[..|r|]
    ensures AllSpace(s[|r|..])
    ensures r == [] || !IsSpace(r[|r| - 1])
  {
    if s == [] || !IsSpace(s[|s| - 1]) then s else TrimEnd(s[..|s| - 1])
  }

  /** `s.trim()`: the infix of `s` between its leading and its trailing white space. */
  function Trim(s: string): (r: string)
    ensures |r| <= |s|
    ensures r == [] || (!IsSpace(r[0]) && !IsSpace(r[|r| - 1]))
    ensures r == [] <==> AllSpace(s)
    ensures exists lead, trail :: AllSpace(lead) && AllSpace(trail) && s == lead + r + trail
  {
    TrimEnds(s);
    TrimEmpty(s);
    TrimSplit(s);
    TrimEnd(TrimStart(s))
  }

  /** `trimStart` and then `trimEnd` keep nothing exactly when the text is all
      white space. */
  lemma TrimEmpty(s: string)
    ensures TrimEnd(TrimStart(s)) == [] <==> AllSpace(s)
  {
    var t := TrimStart(s);
    var lead := TrimStartSplit(s);
    if TrimEnd(t) == [] {
      var trail := TrimEndSplit(t);
      assert t == trail;
      forall i | 0 <= i < |s|
        ensures IsSpace(s[i])
      {
        if i < |lead| {
          assert s[i] == lead[i];
        } else {
          assert s[i] == t[i - |lead|];
        }
      }
    } else {
      assert t != [] && !IsSpace(t[0]);
      assert s[|lead|] == t[0];
    }
  }

  /** The white space `trimStart` and then `trimEnd` drop, around what they
      keep, make up the whole text. */
  lemma TrimSplit(s: string)
    ensures exists lead, trail :: AllSpace(lead) && AllSpace(trail) && s == lead + TrimEnd(TrimStart(s)) + trail
  {
    var t := TrimStart(s);
    var lead := TrimStartSplit(s);
    var trail := TrimEndSplit(t);
    AppendAssoc(lead, TrimEnd(t), trail);
    assert AllSpace(lead) && AllSpace(trail) && s == lead + TrimEnd(t) + trail;
  }

  /** What `trimStart` and then `trimEnd` keep starts and ends with a
      character that is not white space. */
  lemma TrimEnds(s: string)
    ensures var r := TrimEnd(TrimStart(s)); r == [] || (!IsSpace(r[0]) && !IsSpace(r[|r| - 1]))
  {
    var t := TrimStart(s);
    var r := TrimEnd(t);
    if r != [] {
      assert r[0] == t[0];
    }
  }

  lemma AppendAssoc(a: string, b: string, c: string)
    ensures a + (b + c) == a + b + c
  {
  }

  /** The white space `trimStart` drops, returned, followed by what it keeps
      make up the whole text. */
  lemma TrimStartSplit(t: string) returns (gap: string)
    ensures AllSpace(gap) && t == gap + TrimStart(t)
  {
    var r := TrimStart(t);
    var k := |t| - |r|;
    gap := t[..k];
    assert r == t[k..];
    assert t == t[..k] + t[k..];
  }

  /** What `trimEnd` keeps followed by the white space it drops, returned,
      make up the whole text. */
  lemma TrimEndSplit(t: string) returns (gap: string)
    ensures AllSpace(gap) && t == TrimEnd(t) + gap
  {
    var r := TrimEnd(t);
    gap := t[|r|..];
    assert r == t[..|r|];
    assert t == t[..|r|] + t[|r|..];
  }

  /** `s.substring(start, end)`: both bounds are clamped to `[0, |s|]` and
      swapped when `start > end`. */
  function Substring(s: string, start: int, end: int): (r: string)
    ensures |r| <= |s|
    ensures 0 <= start <= end <= |s| ==> r == s[start..end]
    ensures 0 <= start <= |s| <= end ==> r == s[start..]
    ensures start < 0 && 0 <= end <= |s| ==> r == s[..end]
    ensures 0 <= end < start <= |s| ==> r == s[end..start]
  {
    var a := if start < 0 then 0 else if start > |s| then |s| else start;
    var b := if end < 0 then 0 else if end > |s| then |s| else end;
    if a <= b then s[a..b] else s[b..a]
  }

  /** The index of the first occurrence of `c` in `s`. */
  function IndexOf(s: string, c: char): (i: nat)
    requires c in s
    ensures i < |s| && s[i] == c && c !in s[..i]
  {
    if s[0] == c then 0 else 1 + IndexOf(s[1..], c)
  }

  /** `s.split(sep)` for a one-character separator: the pieces between
      successive occurrences of `sep`, always at least one. */
  function Split(s: string, sep: char): (parts: seq<string>)
    ensures |parts| >= 1
    ensures |parts| == 1 <==> sep !in s
    ensures forall i :: 0 <= i < |parts| ==> sep !in parts[i]
    decreases |s|
  {
    if sep !in s then [s]
    else
      var i := IndexOf(s, sep);
      [s[..i]] + Split(s[i + 1..], sep)
  }

  /** `parts.join(sep)`, the inverse of `Split`. */
  function Join(parts: seq<string>, sep: char): string
    requires |parts| >= 1
  {
    if |parts| == 1 then parts[0] else parts[0] + [sep] + Join(parts[1..], sep)
  }

  /** Joining the pieces of a split gives back the original string. */
  lemma {:induction false} JoinSplit(s: string, sep: char)
    ensures Join(Split(s, sep), sep) == s
    decreases |s|
  {
    if sep in s {
      var i := IndexOf(s, sep);
      var rest := s[i + 1..];
      JoinSplit(rest, sep);
      var parts := Split(s, sep);
      assert parts == [s[..i]] + Split(rest, sep);
      assert parts[1..] == Split(rest, sep);
      assert Join(parts, sep) == s[..i] + [sep] + Join(Split(rest, sep), sep);
      SplitAt(s, i);
    }
  }

  /** A string is its prefix, the character at the cut, and the rest. */
  lemma SplitAt(s: string, i: nat)
    requires i < |s|
    ensures s == s[..i] + [s[i]] + s[i + 1..]
  {
    assert s[i..] == [s[i]] + s[i + 1..];
    assert s == s[..i] + s[i..];
  }

  /** Splitting a join of separator-free pieces gives back the pieces. */
  lemma {:induction false} SplitJoin(parts: seq<string>, sep: char)
    requires |parts| >= 1
    requires forall i :: 0 <= i < |parts| ==> sep !in parts[i]
    ensures Split(Join(parts, sep), sep) == parts
  {
    if |parts| > 1 {
      var first, others := parts[0], parts[1..];
      assert sep !in first;
      assert forall i :: 0 <= i < |others| ==> sep !in others[i] by {
        forall i | 0 <= i < |others| ensures sep !in others[i] {
          assert others[i] == parts[i + 1];
        }
      }
      SplitJoin(others, sep);
      var rest := Join(others, sep);
      var s := Join(parts, sep);
      assert s == first + [sep] + rest;
      PartsAround(first, sep, rest);
      assert Split(s, sep) == [first] + Split(rest, sep);
      HeadTail(parts);
    }
  }

  /** A non-empty sequence is its first element followed by the rest. */
  lemma HeadTail<T>(xs: seq<T>)
    requires xs != []
    ensures xs == [xs[0]] + xs[1..]
  {
  }

  /** The first `c` of `prefix + [c] + rest` is the one after `prefix`, when
      `prefix` holds none. */
  lemma IndexOfAfter(prefix: string, c: char, rest: string)
    requires c !in prefix
    ensures IndexOf(prefix + [c] + rest, c) == |prefix|
  {
    var s := prefix + [c] + rest;
    assert s[..|prefix|] == prefix;
    assert s[|prefix|] == c;
  }

  /** The pieces of `a + [c] + b` around position `|a|`, and the first `c`
      when `a` holds none. */
  lemma PartsAround(a: string, c: char, b: string)
    ensures var s := a + [c] + b;
      s[..|a|] == a && s[|a|] == c && s[|a| + 1..] == b
    ensures c !in a ==> IndexOf(a + [c] + b, c) == |a|
  {
    var s := a + [c] + b;
    assert s[..|a|] == a;
    assert s[|a| + 1..] == b;
    if c !in a {
      IndexOfAfter(a, c, b);
    }
  }

  /** An index argument of `Array.prototype.slice` resolved against a length:
      a negative one counts back from the end, and the result is clamped to
      `0..len`. */
  function RelativeIndex(k: int, len: nat): (i: nat)
    ensures i <= len
    ensures k < 0 && len + k >= 0 ==> i == len + k
    ensures 0 <= k <= len ==> i == k
    ensures k < 0 && len + k < 0 ==> i == 0
    ensures k > len ==> i == len
  {
    if k < 0 then (if len + k < 0 then 0 else len + k) else if k > len then len else k
  }

  /** `xs.slice(start, end)`: empty when the resolved start is not before the
      resolved end. */
  function Slice<T>(xs: seq<T>, start: int, end: int): seq<T> {
    var a := RelativeIndex(start, |xs|);
    var b := RelativeIndex(end, |xs|);
    if a < b then xs[a..b] else []
  }

  /** `xs.slice(start)`. */
  function SliceFrom<T>(xs: seq<T>, start: int): seq<T> {
    xs[RelativeIndex(start, |xs|)..]
  }
}
