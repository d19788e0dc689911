/** The parts of Go's `strings` package (and the `min` helper of main.go)
    that the caller-identity inference relies on. A Go string is a sequence
    of bytes; here each `char` stands for one byte, so `|s|` is `len(s)`
    and `s[i..j]` is `s[i:j]`. */
module GoStrings {

  /** `sub` occurs in `s` starting at index `i`. */
  predicate OccursAt(s: string, sub: string, i: int) {
    0 <= i && i + |sub| <= |s| && s[i..i + |sub|] == sub
  }

  /** strings.HasPrefix */
  predicate HasPrefix(s: string, prefix: string) {
    |prefix| <= |s| && s[..|prefix|] == prefix
  }

  lemma OccursAtTail(s: string, sub: string, j: int)
    requires |s| > 0 && 0 <= j
    ensures OccursAt(s[1..], sub, j) <==> OccursAt(s, sub, j + 1)
  {
    if 0 <= j && j + |sub| <= |s| - 1 {
      assert s[1..][j..j + |sub|] == s[j + 1..j + 1 + |sub|];
    }
  }

  /** strings.Index: the index of the first occurrence of `sub` in `s`,
      or -1 when there is none. */
  function Index(s: string, sub: string): (r: int)
    ensures -1 <= r <= |s|
    ensures r != -1 ==> OccursAt(s, sub, r)
    ensures forall j :: 0 <= j && (r == -1 || j < r) ==> !OccursAt(s, sub, j)
    decreases |s|
  {
    if |s| < |sub| then -1
    else if s[..|sub|] == sub then 0
    else
      var k := Index(s[1..], sub);
      assert !OccursAt(s, sub, 0);
      assert forall j :: 1 <= j ==> (OccursAt(s[1..], sub, j - 1) <==> OccursAt(s, sub, j)) by {
        forall j | 1 <= j ensures OccursAt(s[1..], sub, j - 1) <==> OccursAt(s, sub, j) {
          OccursAtTail(s, sub, j - 1);
        }
      }
      if k == -1 then -1 else k + 1
  }

  /** strings.Contains, which Go defines as `Index(s, sub) >= 0`. */
  predicate Contains(s: string, sub: string)
    ensures Contains(s, sub) <==> exists i :: OccursAt(s, sub, i)
  {
    Index(s, sub) != -1
  }

  /** strings.IndexAny: the index of the first element of `s` that is one of
      `chars`, or -1. Go scans runes, but every set of `chars` used here is
      ASCII and no byte of a multi-byte UTF-8 sequence is ASCII, so a scan
      byte by byte gives the same index. */
  function IndexAny(s: string, chars: string): (r: int)
    ensures -1 <= r < |s|
    ensures r != -1 ==> s[r] in chars
    ensures forall j :: 0 <= j < |s| && (r == -1 || j < r) ==> s[j] !in chars
    decreases |s|
  {
    if |s| == 0 then -1
    else if s[0] in chars then 0
    else
      var k := IndexAny(s[1..], chars);
      if k == -1 then -1 else k + 1
  }

  /** The text before the first byte of `chars` (all of `s` when there is
      none): a prefix of `s` free of `chars`, ended by a byte of `chars` or
      by the end of `s`. */
  lemma PrefixBeforeAny(s: string, chars: string)
    ensures var end := IndexAny(s, chars);
      var t := if end == -1 then s else s[..end];
      |t| <= |s| && s[..|t|] == t &&
      (forall i :: 0 <= i < |t| ==> t[i] !in chars) &&
      (|t| == |s| || s[|t|] in chars)
  {
    var end := IndexAny(s, chars);
    var t := if end == -1 then s else s[..end];
    assert forall i :: 0 <= i < |t| ==> t[i] == s[i];
  }

  /** The text of `s` up to its first byte of `chars`, all of `s` when it
      holds none. */
  function UpToAny(s: string, chars: string): string {
    var end := IndexAny(s, chars);
    if end == -1 then s else s[..end]
  }

  /** `t` is a field of `s` at `start`: it lies in `s` from `start` on,
      holds none of `chars`, and is followed by one of them or by the end. */
  predicate FieldAt(s: string, start: int, t: string, chars: string) {
    0 <= start && start + |t| <= |s| && s[start..start + |t|] == t &&
    (forall i :: 0 <= i < |t| ==> t[i] !in chars) &&
    (start + |t| == |s| || s[start + |t|] in chars)
  }

  /** The text from `start` up to the next byte of `chars` is the field of
      `s` at `start`. */
  lemma TextFrom(s: string, start: int, chars: string)
    requires 0 <= start <= |s|
    ensures FieldAt(s, start, UpToAny(s[start..], chars), chars)
  {
    var rest := s[start..];
    PrefixBeforeAny(rest, chars);
    var t := UpToAny(rest, chars);
    assert s[start..start + |t|] == rest[..|t|];
    assert start + |t| == |s| || s[start + |t|] == rest[|t|];
  }

  /** The first byte of `chars` in `t + rest` is the first byte of `rest`
      when `t` holds none of `chars` and `rest` starts with one. */
  lemma IndexAnyAfterFree(t: string, rest: string, chars: string)
    requires forall i :: 0 <= i < |t| ==> t[i] !in chars
    requires rest != [] && rest[0] in chars
    ensures IndexAny(t + rest, chars) == |t|
  {
    var s := t + rest;
    assert forall i :: 0 <= i < |t| ==> s[i] == t[i];
    assert s[|t|] == rest[0];
  }

  /** strings.Join, which main.go never calls: it is here as the inverse
      that specifies Split. */
  function Join(parts: seq<string>, sep: char): string
    decreases |parts|
  {
    if |parts| == 0 then ""
    else if |parts| == 1 then parts[0]
    else parts[0] + [sep] + Join(parts[1..], sep)
  }

  /** strings.Split with a one-byte separator: the pieces of `s` between
      the separators, always at least one (Split of "" is [""]). */
  function Split(s: string, sep: char): (parts: seq<string>)
    ensures |parts| >= 1
    ensures forall k :: 0 <= k < |parts| ==> sep !in parts[k]
    ensures Join(parts, sep) == s
    decreases |s|
  {
    var i := IndexAny(s, [sep]);
    if i == -1 then
      [s]
    else
      var head := s[..i];
      var rest := Split(s[i + 1..], sep);
      assert forall j :: 0 <= j < i ==> head[j] == s[j];
      var parts := [head] + rest;
      assert parts[0] == head && parts[1..] == rest;
      assert Join(parts, sep) == head + [sep] + Join(rest, sep);
      assert s == head + [sep] + s[i + 1..];
      parts
  }

  /** Splitting a joined sequence of separator-free parts gives the parts back. */
  lemma {:induction false} SplitOfJoin(parts: seq<string>, sep: char)
    requires |parts| >= 1
    requires forall k :: 0 <= k < |parts| ==> sep !in parts[k]
    ensures Split(Join(parts, sep), sep) == parts
    decreases |parts|
  {
    var s := Join(parts, sep);
    if |parts| == 1 {
      assert IndexAny(s, [sep]) == -1;
    } else {
      var n := |parts[0]|;
      var tail := Join(parts[1..], sep);
      assert s == parts[0] + [sep] + tail;
      assert forall j :: 0 <= j < n ==> s[j] == parts[0][j];
      assert s[n] == sep;
      assert IndexAny(s, [sep]) == n;
      assert s[..n] == parts[0] && s[n + 1..] == tail;
      SplitOfJoin(parts[1..], sep);
      assert Split(s, sep) == [parts[0]] + Split(tail, sep);
      assert parts == [parts[0]] + parts[1..];
    }
  }

  /** A string holding the separator splits into at least two parts. */
  lemma SplitAtSeparator(s: string, sep: char, i: int)
    requires 0 <= i < |s| && s[i] == sep
    ensures |Split(s, sep)| > 1
  {
    assert s[i] in [sep];
    assert IndexAny(s, [sep]) != -1;
  }

  /** The last of several joined parts is the text after the last separator. */
  lemma {:induction false} JoinLastPart(parts: seq<string>, sep: char)
    requires |parts| > 1
    ensures var s, last := Join(parts, sep), parts[|parts| - 1];
      |last| < |s| && s[|s| - |last| - 1] == sep && s[|s| - |last|..] == last
    decreases |parts|
  {
    var s, last := Join(parts, sep), parts[|parts| - 1];
    var tail := Join(parts[1..], sep);
    assert s == parts[0] + [sep] + tail;
    if |parts| == 2 {
      assert tail == last;
    } else {
      JoinLastPart(parts[1..], sep);
      assert s[|s| - |last|..] == tail[|tail| - |last|..];
      assert s[|s| - |last| - 1] == tail[|tail| - |last| - 1];
    }
  }

  /** When `s` holds a separator, the last piece of Split is exactly the text
      after the last separator of `s`. */
  lemma SplitLastPart(s: string, sep: char)
    requires |Split(s, sep)| > 1
    ensures var last := Split(s, sep)[|Split(s, sep)| - 1];
      |last| < |s| && s[|s| - |last| - 1] == sep && s[|s| - |last|..] == last
  {
    JoinLastPart(Split(s, sep), sep);
  }

  /** main.go `min`. */
  function Min(a: int, b: int): (r: int)
    ensures r <= a && r <= b
    ensures r == a || r == b
  {
    if a < b then a else b
  }

  /** `s[:min(len(s), n)]`: the preview of a secret that main.go logs and
      reports, never longer than `n`. */
  function Truncate(s: string, n: nat): (r: string)
    ensures HasPrefix(s, r)
    ensures |r| <= n
    ensures |s| <= n ==> r == s
    ensures |s| > n ==> |r| == n
  {
    s[..Min(|s|, n)]
  }
}
