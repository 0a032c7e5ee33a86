/** URL assembly by joining path segments with "/", as the client does with
    `[..].join("/")`, and its inverse, splitting a URL back into segments. */
module Paths {

  /** Rust's `slice.join("/")`: the parts separated by single slashes. */
  function Join(parts: seq<string>): string
    decreases |parts|
  {
    if |parts| == 0 then ""
    else if |parts| == 1 then parts[0]
    else parts[0] + "/" + Join(parts[1..])
  }

  /** Every part preceded by a slash: the text that appending `parts` to an
      existing URL adds. */
  function SlashEach(parts: seq<string>): string
    decreases |parts|
  {
    if |parts| == 0 then "" else "/" + parts[0] + SlashEach(parts[1..])
  }

  /** Splitting on every "/" (Rust's `str::split('/')`): always at least one
      piece. */
  function Split(s: string): (r: seq<string>)
    ensures |r| >= 1
    decreases |s|
  {
    if |s| == 0 then [""]
    else if s[0] == '/' then [""] + Split(s[1..])
    else
      var rest := Split(s[1..]);
      [[s[0]] + rest[0]] + rest[1..]
  }

  /** A segment is well formed when it contains no separator. */
  predicate Segment(p: string) {
    '/' !in p
  }

  predicate Segments(parts: seq<string>) {
    forall i :: 0 <= i < |parts| ==> Segment(parts[i])
  }

  /** A join of a non-empty list is its head followed by the slashed tail. */
  lemma {:induction false} JoinIsHeadThenSlashEach(parts: seq<string>)
    requires |parts| >= 1
    ensures Join(parts) == parts[0] + SlashEach(parts[1..])
    decreases |parts|
  {
    if |parts| == 1 {
      assert parts[1..] == [];
    } else {
      JoinIsHeadThenSlashEach(parts[1..]);
      assert parts[1..][1..] == parts[2..];
    }
  }

  /** Joining a non-empty list followed by more segments gives its head, then
      every later segment after a slash. */
  lemma JoinIsHeadThenSlashed(base: seq<string>, paths: seq<string>)
    requires |base| >= 1
    ensures Join(base + paths) == base[0] + SlashEach(base[1..] + paths)
  {
    JoinIsHeadThenSlashEach(base + paths);
    assert (base + paths)[0] == base[0];
    assert (base + paths)[1..] == base[1..] + paths;
  }

  /** Appending a non-empty segment list appends its first segment after a
      slash, then the rest. */
  lemma SlashCons(p: string, parts: seq<string>)
    requires |parts| >= 1
    ensures p + SlashEach(parts) == p + "/" + parts[0] + SlashEach(parts[1..])
  {
  }

  /** Appending no segments leaves a URL unchanged. */
  lemma SlashNone(p: string)
    ensures p + SlashEach([]) == p
  {
  }

  /** One appended segment, as text. */
  lemma SlashOne(p: string, a: string)
    ensures p + SlashEach([a]) == p + "/" + a
  {
    SlashCons(p, [a]);
    assert [a][1..] == [];
  }

  /** Two appended segments, as text. */
  lemma SlashTwo(p: string, a: string, b: string)
    ensures p + SlashEach([a, b]) == p + "/" + a + "/" + b
  {
    SlashCons(p, [a, b]);
    assert [a, b][1..] == [b];
    SlashOne(p + "/" + a, b);
  }

  /** Three appended segments, as text. */
  lemma SlashThree(p: string, a: string, b: string, c: string)
    ensures p + SlashEach([a, b, c]) == p + "/" + a + "/" + b + "/" + c
  {
    SlashCons(p, [a, b, c]);
    assert [a, b, c][1..] == [b, c];
    SlashTwo(p + "/" + a, b, c);
  }

  /** Slashing distributes over concatenation of segment lists. */
  lemma {:induction false} SlashEachAppend(a: seq<string>, b: seq<string>)
    ensures SlashEach(a + b) == SlashEach(a) + SlashEach(b)
    decreases |a|
  {
    if |a| == 0 {
      assert a + b == b;
    } else {
      SlashEachAppend(a[1..], b);
      assert (a + b)[1..] == a[1..] + b;
    }
  }

  /** Joining a longer list extends the join of its prefix. */
  lemma {:induction false} JoinAppend(a: seq<string>, b: seq<string>)
    requires |a| >= 1
    ensures Join(a + b) == Join(a) + SlashEach(b)
  {
    var ab := a + b;
    JoinIsHeadThenSlashEach(ab);
    JoinIsHeadThenSlashEach(a);
    assert ab[0] == a[0];
    assert ab[1..] == a[1..] + b;
    SlashEachAppend(a[1..], b);
    calc {
      Join(ab);
      a[0] + SlashEach(a[1..] + b);
      a[0] + (SlashEach(a[1..]) + SlashEach(b));
      (a[0] + SlashEach(a[1..])) + SlashEach(b);
    }
  }

  /** A text without separators splits into itself. */
  lemma {:induction false} SplitSegment(s: string)
    requires Segment(s)
    ensures Split(s) == [s]
    decreases |s|
  {
    if |s| > 0 {
      assert s[1..] == s[..|s|][1..];
      assert forall c :: c in s[1..] ==> c in s;
      SplitSegment(s[1..]);
      assert [s[0]] + s[1..] == s;
    }
  }

  /** Splitting a text with a known first character. */
  lemma SplitCons(x: char, t: string)
    ensures x == '/' ==> Split([x] + t) == [""] + Split(t)
    ensures x != '/' ==> Split([x] + t) == [[x] + Split(t)[0]] + Split(t)[1..]
  {
    assert ([x] + t)[0] == x;
    assert ([x] + t)[1..] == t;
  }

  /** Extending the first piece of a list commutes with appending more
      pieces after it. */
  lemma ExtendFirstAppend(x: char, l: seq<string>, m: seq<string>)
    requires |l| >= 1
    ensures (l + m)[0] == l[0]
    ensures [[x] + (l + m)[0]] + (l + m)[1..] == ([[x] + l[0]] + l[1..]) + m
  {
    assert (l + m)[1..] == l[1..] + m;
  }

  /** Splitting at a slash splits the two sides independently. */
  lemma {:induction false} SplitAtSlash(a: string, b: string)
    ensures Split(a + "/" + b) == Split(a) + Split(b)
    decreases |a|
  {
    if |a| == 0 {
      assert a + "/" + b == ['/'] + b;
      SplitCons('/', b);
      assert Split(a) == [""];
    } else {
      var x := a[0];
      var t := a[1..] + "/" + b;
      assert a == [x] + a[1..];
      assert a + "/" + b == [x] + t;
      SplitAtSlash(a[1..], b);
      SplitCons(x, t);
      SplitCons(x, a[1..]);
      if x == '/' {
        assert [""] + (Split(a[1..]) + Split(b)) == ([""] + Split(a[1..])) + Split(b);
      } else {
        ExtendFirstAppend(x, Split(a[1..]), Split(b));
      }
    }
  }

  /** Splitting undoes slashing, when every appended part is a segment. */
  lemma {:induction false} SplitSlashEach(prefix: string, parts: seq<string>)
    requires Segments(parts)
    ensures Split(prefix + SlashEach(parts)) == Split(prefix) + parts
    decreases |parts|
  {
    if |parts| == 0 {
      assert prefix + SlashEach(parts) == prefix;
    } else {
      var p := prefix + "/" + parts[0];
      assert prefix + SlashEach(parts) == p + SlashEach(parts[1..]);
      SplitSlashEach(p, parts[1..]);
      SplitAtSlash(prefix, parts[0]);
      SplitSegment(parts[0]);
      assert parts == [parts[0]] + parts[1..];
    }
  }

  /** Splitting is the inverse of joining, for lists of segments. */
  lemma SplitJoin(parts: seq<string>)
    requires |parts| >= 1
    requires Segments(parts)
    ensures Split(Join(parts)) == parts
  {
    JoinIsHeadThenSlashEach(parts);
    SplitSlashEach(parts[0], parts[1..]);
    SplitSegment(parts[0]);
    assert [parts[0]] + parts[1..] == parts;
  }
}
