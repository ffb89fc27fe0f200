/** Text helpers shared by the Python and TypeScript parts of the model.
    Characters are Unicode scalar values; case folding covers ASCII only. */
module Strings {
  import opened Wrappers

  /** Truthiness of an optional string, in Python and JavaScript alike:
      present and non-empty. */
  predicate Truthy(s: Option<string>) {
    s.Some? && s.value != ""
  }

  /** Whitespace removed by `str.strip()` / `String.prototype.trim()` (ASCII part). */
  predicate IsSpace(c: char) {
    c == ' ' || c == '\t' || c == '\n' || c == '\r' || c == '\U{000B}' || c == '\U{000C}'
  }

  function LowerChar(c: char): char {
    if 'A' <= c <= 'Z' then (c as int + 32) as char else c
  }

  /** `toLowerCase()` / `lower()` restricted to ASCII letters. */
  function Lower(s: string): (r: string)
    ensures |r| == |s|
    ensures forall i :: 0 <= i < |s| ==> r[i] == LowerChar(s[i])
  {
    seq(|s|, i requires 0 <= i < |s| => LowerChar(s[i]))
  }

  /** `[s.lower() for s in items]` / `items.map((s) => s.toLowerCase())`. */
  function LowerAll(items: seq<string>): (r: seq<string>)
    ensures |r| == |items| && forall i :: 0 <= i < |r| ==> r[i] == Lower(items[i])
  {
    seq(|items|, i requires 0 <= i < |items| => Lower(items[i]))
  }

  lemma LowerConcat(a: string, b: string)
    ensures Lower(a + b) == Lower(a) + Lower(b)
  {
    assert forall i :: 0 <= i < |a + b| ==> Lower(a + b)[i] == (Lower(a) + Lower(b))[i];
  }

  /** Text without upper-case ASCII letters is its own lower-case form. */
  lemma LowerIdentity(s: string)
    requires forall i :: 0 <= i < |s| ==> !('A' <= s[i] <= 'Z')
    ensures Lower(s) == s
  {
  }

  /** `sub` occurs in `s` as a contiguous substring (`includes` / Python `in` on str). */
  predicate Contains(s: string, sub: string) {
    exists i :: 0 <= i <= |s| && OccursAt(s, sub, i)
  }

  /** `sub` occurs in `s` starting at index `i`. */
  predicate OccursAt(s: string, sub: string, i: int) {
    0 <= i && i + |sub| <= |s| && s[i..i + |sub|] == sub
  }

  lemma ContainsEmpty(s: string)
    ensures Contains(s, "")
  {
    assert OccursAt(s, "", 0);
  }

  lemma ContainsSelf(s: string)
    ensures Contains(s, s)
  {
    assert OccursAt(s, s, 0);
  }

  lemma ContainsIn(a: string, s: string, b: string, sub: string)
    requires Contains(s, sub)
    ensures Contains(a + s + b, sub)
  {
    var i :| 0 <= i <= |s| && OccursAt(s, sub, i);
    var w := a + s + b;
    assert w[|a| + i..|a| + i + |sub|] == s[i..i + |sub|];
    assert OccursAt(w, sub, |a| + i);
  }

  lemma ContainsTrans(s: string, mid: string, sub: string)
    requires Contains(s, mid) && Contains(mid, sub)
    ensures Contains(s, sub)
  {
    var i :| 0 <= i <= |s| && OccursAt(s, mid, i);
    var j :| 0 <= j <= |mid| && OccursAt(mid, sub, j);
    forall t | 0 <= t < |sub| ensures s[i + j..i + j + |sub|][t] == sub[t] {
      assert s[i..i + |mid|][j + t] == mid[j + t];
      assert mid[j..j + |sub|][t] == mid[j + t];
    }
    assert OccursAt(s, sub, i + j);
  }

  /** Lowercasing both sides keeps an occurrence. */
  lemma LowerContains(s: string, sub: string)
    requires Contains(s, sub)
    ensures Contains(Lower(s), Lower(sub))
  {
    var i :| 0 <= i <= |s| && OccursAt(s, sub, i);
    assert Lower(s)[i..i + |sub|] == Lower(sub);
    assert OccursAt(Lower(s), Lower(sub), i);
  }

  /** `s.startsWith(prefix)`. */
  predicate StartsWith(s: string, prefix: string) {
    |prefix| <= |s| && s[..|prefix|] == prefix
  }

  predicate EndsWith(s: string, suffix: string) {
    |suffix| <= |s| && s[|s| - |suffix|..] == suffix
  }

  function TrimStart(s: string): (r: string)
    ensures |r| <= |s| && r == s[|s| - |r|..]
    ensures r == [] || !IsSpace(r[0])
    ensures forall i :: 0 <= i < |s| - |r| ==> IsSpace(s[i])
  {
    if |s| > 0 && IsSpace(s[0]) then TrimStart(s[1..]) else s
  }

  function TrimEnd(s: string): (r: string)
    ensures |r| <= |s| && r == s[..|r|]
    ensures r == [] || !IsSpace(r[|r| - 1])
    ensures forall i :: |r| <= i < |s| ==> IsSpace(s[i])
  {
    if |s| > 0 && IsSpace(s[|s| - 1]) then TrimEnd(s[..|s| - 1]) else s
  }

  /** `trim()` in JavaScript and `strip()` in Python. */
  function Trim(s: string): (r: string)
    ensures r == [] || (!IsSpace(r[0]) && !IsSpace(r[|r| - 1]))
  {
    TrimEnd(TrimStart(s))
  }

  lemma {:induction false} TrimStartKeeps(p: string, rest: string)
    requires |rest| > 0 && !IsSpace(rest[0])
    ensures TrimStart(p + rest) == TrimStart(p) + rest
  {
    if |p| > 0 {
      assert (p + rest)[0] == p[0];
      assert (p + rest)[1..] == p[1..] + rest;
      if IsSpace(p[0]) {
        TrimStartKeeps(p[1..], rest);
      }
    } else {
      assert p + rest == rest;
    }
  }

  lemma {:induction false} TrimEndKeeps(rest: string, q: string)
    requires |rest| > 0 && !IsSpace(rest[|rest| - 1])
    ensures TrimEnd(rest + q) == rest + TrimEnd(q)
  {
    if |q| > 0 {
      assert (rest + q)[|rest + q| - 1] == q[|q| - 1];
      assert (rest + q)[..|rest + q| - 1] == rest + q[..|q| - 1];
      if IsSpace(q[|q| - 1]) {
        TrimEndKeeps(rest, q[..|q| - 1]);
      }
    } else {
      assert rest + q == rest;
    }
  }

  /** Trimming the start removes characters and adds none: a character absent
      from the text is absent from the result. */
  lemma TrimStartAvoids(s: string, ch: char)
    requires forall i :: 0 <= i < |s| ==> s[i] != ch
    ensures forall i :: 0 <= i < |TrimStart(s)| ==> TrimStart(s)[i] != ch
  {
    var a := TrimStart(s);
    forall i | 0 <= i < |a| ensures a[i] != ch { assert a[i] == s[|s| - |a| + i]; }
  }

  /** Likewise for trimming the end. */
  lemma TrimEndAvoids(s: string, ch: char)
    requires forall i :: 0 <= i < |s| ==> s[i] != ch
    ensures forall i :: 0 <= i < |TrimEnd(s)| ==> TrimEnd(s)[i] != ch
  {
    var c := TrimEnd(s);
    forall i | 0 <= i < |c| ensures c[i] != ch { assert c[i] == s[i]; }
  }

  /** Text with no surrounding whitespace is left unchanged by trimming. */
  lemma TrimIdentity(s: string)
    requires s == [] || (!IsSpace(s[0]) && !IsSpace(s[|s| - 1]))
    ensures Trim(s) == s
  {
  }

  /** `parts.join(sep)` / `sep.join(parts)`. */
  function Join(parts: seq<string>, sep: string): string
  {
    if |parts| == 0 then ""
    else if |parts| == 1 then parts[0]
    else parts[0] + sep + Join(parts[1..], sep)
  }

  /** Every part of a join occurs in the joined text. */
  lemma {:induction false} JoinContains(parts: seq<string>, sep: string, k: nat)
    requires k < |parts|
    ensures Contains(Join(parts, sep), parts[k])
    decreases |parts|
  {
    if |parts| == 1 {
      ContainsSelf(parts[0]);
    } else if k == 0 {
      ContainsSelf(parts[0]);
      ContainsIn("", parts[0], sep + Join(parts[1..], sep), parts[0]);
      assert "" + parts[0] + (sep + Join(parts[1..], sep)) == Join(parts, sep);
    } else {
      JoinContains(parts[1..], sep, k - 1);
      ContainsIn(parts[0] + sep, Join(parts[1..], sep), "", parts[k]);
      assert parts[0] + sep + Join(parts[1..], sep) + "" == Join(parts, sep);
    }
  }

  /** The concatenation of a template's pieces, in order. */
  function Concat(parts: seq<string>): string {
    if |parts| == 0 then "" else parts[0] + Concat(parts[1..])
  }

  /** Every piece of a concatenation occurs in it. */
  lemma {:induction false} ConcatContains(parts: seq<string>, k: nat)
    requires k < |parts|
    ensures Contains(Concat(parts), parts[k])
  {
    if k == 0 {
      ContainsSelf(parts[0]);
      ContainsIn("", parts[0], Concat(parts[1..]), parts[0]);
      assert "" + parts[0] + Concat(parts[1..]) == Concat(parts);
    } else {
      ConcatContains(parts[1..], k - 1);
      ContainsIn(parts[0], Concat(parts[1..]), "", parts[k]);
      assert parts[0] + Concat(parts[1..]) + "" == Concat(parts);
    }
  }

  /** Replacing one piece changes the length by the difference of the pieces. */
  lemma {:induction false} ConcatReplace(parts: seq<string>, k: nat, x: string)
    requires k < |parts|
    ensures |Concat(parts[k := x])| + |parts[k]| == |Concat(parts)| + |x|
  {
    if k == 0 {
      assert parts[k := x][1..] == parts[1..];
    } else {
      assert parts[k := x][1..] == parts[1..][k - 1 := x];
      ConcatReplace(parts[1..], k - 1, x);
    }
  }

  /** A concatenation starts with its first two pieces. */
  lemma ConcatPrefix(parts: seq<string>)
    requires |parts| >= 2
    ensures StartsWith(Concat(parts), parts[0] + parts[1])
  {
    assert parts[1..][1..] == parts[2..];
    var r := parts[0] + (parts[1] + Concat(parts[2..]));
    assert Concat(parts) == r;
    assert r[..|parts[0] + parts[1]|] == parts[0] + parts[1];
  }

  /** The last piece ends the concatenation. */
  lemma {:induction false} ConcatSuffix(parts: seq<string>)
    requires |parts| >= 1
    ensures EndsWith(Concat(parts), parts[|parts| - 1])
  {
    if |parts| == 1 {
      assert Concat(parts) == parts[0];
    } else {
      ConcatSuffix(parts[1..]);
      assert parts[1..][|parts| - 2] == parts[|parts| - 1];
    }
  }

  /** First index of a character from `cs`, if any. */
  function FirstIndexOf(s: string, cs: set<char>): (r: Option<nat>)
    ensures r.Some? ==> r.value < |s| && s[r.value] in cs && forall j :: 0 <= j < r.value ==> s[j] !in cs
    ensures r.None? ==> forall j :: 0 <= j < |s| ==> s[j] !in cs
  {
    if |s| == 0 then None
    else if s[0] in cs then Some(0)
    else match FirstIndexOf(s[1..], cs)
      case None => None
      case Some(k) => Some(k + 1)
  }

  /** Last index of a character from `cs`, if any. */
  function LastIndexOf(s: string, cs: set<char>): (r: Option<nat>)
    ensures r.Some? ==> r.value < |s| && s[r.value] in cs && forall j :: r.value < j < |s| ==> s[j] !in cs
    ensures r.None? ==> forall j :: 0 <= j < |s| ==> s[j] !in cs
  {
    if |s| == 0 then None
    else if s[|s| - 1] in cs then Some(|s| - 1)
    else LastIndexOf(s[..|s| - 1], cs)
  }

  /** `s.split(c)` for a single character, or a character class such as `/[:\-]/`:
      every piece, empty ones included. */
  function SplitOn(s: string, seps: set<char>): (r: seq<string>)
    ensures |r| >= 1
    ensures forall k :: 0 <= k < |r| ==> forall j :: 0 <= j < |r[k]| ==> r[k][j] !in seps
    decreases |s|
  {
    match FirstIndexOf(s, seps)
    case None => [s]
    case Some(k) => [s[..k]] + SplitOn(s[k + 1..], seps)
  }

  /** A text with no separator splits into itself. */
  lemma SplitOnNone(s: string, seps: set<char>)
    requires forall j :: 0 <= j < |s| ==> s[j] !in seps
    ensures SplitOn(s, seps) == [s]
  {
    assert FirstIndexOf(s, seps).None?;
  }

  /** The first separator ends the first piece. */
  lemma SplitOnAt(s: string, i: nat, seps: set<char>)
    requires i < |s| && s[i] in seps
    requires forall j :: 0 <= j < i ==> s[j] !in seps
    ensures SplitOn(s, seps) == [s[..i]] + SplitOn(s[i + 1..], seps)
  {
    assert FirstIndexOf(s, seps) == Some(i);
  }

  /** Two separators in a row split into an empty piece between the pieces around them. */
  lemma SplitTwoSepsAt(text: string, i: nat, seps: set<char>)
    requires i + 1 < |text| && text[i] in seps && text[i + 1] in seps
    requires forall j :: 0 <= j < i ==> text[j] !in seps
    requires forall j :: i + 2 <= j < |text| ==> text[j] !in seps
    ensures SplitOn(text, seps) == [text[..i], "", text[i + 2..]]
  {
    SplitOnAt(text, i, seps);
    var t := text[i + 1..];
    SplitOnAt(t, 0, seps);
    assert t[1..] == text[i + 2..];
    SplitOnNone(text[i + 2..], seps);
  }

  /** Splitting on one character and joining back with it restores the text. */
  lemma {:induction false} SplitJoin(s: string, c: char)
    ensures Join(SplitOn(s, {c}), [c]) == s
    decreases |s|
  {
    match FirstIndexOf(s, {c})
    case None =>
    case Some(k) =>
      var rest := SplitOn(s[k + 1..], {c});
      SplitJoin(s[k + 1..], c);
      assert SplitOn(s, {c}) == [s[..k]] + rest;
      assert s == s[..k] + [c] + s[k + 1..];
  }

  /** `s.split(sep)` for a separator string: the pieces between the
      non-overlapping occurrences of `sep`, scanning left to right. */
  function SplitSep(s: string, sep: string): (r: seq<string>)
    requires |sep| > 0
    ensures |r| >= 1
    decreases |s|
  {
    if |s| < |sep| then [s]
    else if s[..|sep|] == sep then [""] + SplitSep(s[|sep|..], sep)
    else
      var rest := SplitSep(s[1..], sep);
      [[s[0]] + rest[0]] + rest[1..]
  }

  /** Joining the pieces of a split with its separator restores the text. */
  lemma {:induction false} SplitSepJoin(s: string, sep: string)
    requires |sep| > 0
    ensures Join(SplitSep(s, sep), sep) == s
    decreases |s|
  {
    if |s| < |sep| {
    } else if s[..|sep|] == sep {
      var rest := SplitSep(s[|sep|..], sep);
      assert SplitSep(s, sep) == [""] + rest;
      SplitSepJoin(s[|sep|..], sep);
      JoinCons("", rest, sep);
      assert "" + sep + Join(rest, sep) == sep + s[|sep|..];
      assert s == sep + s[|sep|..];
    } else {
      var rest := SplitSep(s[1..], sep);
      assert SplitSep(s, sep) == [[s[0]] + rest[0]] + rest[1..];
      SplitSepJoin(s[1..], sep);
      JoinPrepend([s[0]], rest, sep);
      assert s == [s[0]] + s[1..];
    }
  }

  lemma JoinCons(a: string, parts: seq<string>, sep: string)
    requires |parts| >= 1
    ensures Join([a] + parts, sep) == a + sep + Join(parts, sep)
  {
    assert ([a] + parts)[1..] == parts;
  }

  lemma JoinPrepend(c: string, parts: seq<string>, sep: string)
    requires |parts| >= 1
    ensures Join([c + parts[0]] + parts[1..], sep) == c + Join(parts, sep)
  {
    var q := [c + parts[0]] + parts[1..];
    if |parts| > 1 {
      assert q[1..] == parts[1..];
      var j := Join(parts[1..], sep);
      assert Join(q, sep) == (c + parts[0]) + sep + j;
      assert Join(parts, sep) == parts[0] + sep + j;
      assert (c + parts[0]) + sep + j == c + (parts[0] + sep + j);
    }
  }

  /** `s.slice(-n)`: the last `n` characters, or all of a shorter text. */
  function LastChars(s: string, n: nat): (r: string)
    ensures |r| == if |s| < n then |s| else n
    ensures EndsWith(s, r)
  {
    if |s| <= n then s else s[|s| - n..]
  }

  /** The default order of `Array.prototype.sort` on strings: lexicographic by
      character, a proper prefix first. */
  predicate LexLe(a: string, b: string)
    decreases |a|
  {
    if |a| == 0 then true
    else if |b| == 0 then false
    else if a[0] != b[0] then a[0] < b[0]
    else LexLe(a[1..], b[1..])
  }

  lemma {:induction false} LexTotal(a: string, b: string)
    ensures LexLe(a, b) || LexLe(b, a)
    decreases |a|
  {
    if |a| > 0 && |b| > 0 && a[0] == b[0] {
      LexTotal(a[1..], b[1..]);
    }
  }

  lemma {:induction false} LexTrans(a: string, b: string, c: string)
    requires LexLe(a, b) && LexLe(b, c)
    ensures LexLe(a, c)
    decreases |a|
  {
    if |a| > 0 && |b| > 0 && |c| > 0 && a[0] == b[0] && b[0] == c[0] {
      LexTrans(a[1..], b[1..], c[1..]);
    }
  }

  lemma {:induction false} LexAntisymmetric(a: string, b: string)
    requires LexLe(a, b) && LexLe(b, a)
    ensures a == b
    decreases |a|
  {
    if |a| > 0 {
      LexAntisymmetric(a[1..], b[1..]);
      assert a == [a[0]] + a[1..] && b == [b[0]] + b[1..];
    }
  }
}
