/** JavaScript string operations the style layer relies on, stated over `seq<char>`. */
module Text {

  datatype Option<+T> = None | Some(value: T) {
    /** The value when present, else `default`: a destructuring default such as
        `{ size = 'md' }` for a prop left `undefined`. */
    function GetOr(default: T): T {
      match this
      case Some(v) => v
      case None => default
    }
  }

  /** `s.startsWith(p)` */
  predicate StartsWith(s: string, p: string) {
    |p| <= |s| && s[..|p|] == p
  }

  /** `s.endsWith(p)` */
  predicate EndsWith(s: string, p: string) {
    |p| <= |s| && s[|s| - |p|..] == p
  }

  /** `t` occurs in `s` starting at offset `i`. */
  predicate OccursAt(s: string, t: string, i: int) {
    0 <= i <= |s| - |t| && s[i..i + |t|] == t
  }

  /** `s.includes(t)`: `t` occurs in `s` at some offset. */
  predicate Contains(s: string, t: string) {
    exists i | 0 <= i <= |s| - |t| :: OccursAt(s, t, i)
  }

  /** `t` occurs in `s`, and `u` occurs later in `s` without overlapping that occurrence. */
  predicate OccursBefore(s: string, t: string, u: string) {
    exists i, j | 0 <= i <= j <= |s| :: OccursAt(s, t, i) && OccursAt(s, u, j) && i + |t| <= j
  }

  /** Character-by-character evidence that `t` is a suffix of `s`. */
  lemma EndsWithAt(s: string, t: string, k: nat)
    requires k + |t| == |s|
    requires forall i :: 0 <= i < |t| ==> s[k + i] == t[i]
    ensures EndsWith(s, t)
  {
    assert s[k..] == t;
  }

  /** Character-by-character evidence that `p` is a prefix of `s`. */
  lemma StartsWithChars(s: string, p: string)
    requires |p| <= |s|
    requires forall i :: 0 <= i < |p| ==> s[i] == p[i]
    ensures StartsWith(s, p)
  {
    assert s[..|p|] == p;
  }

  /** A prefix of a middle part occurs where that part begins. */
  lemma OccursAtPart(a: string, b: string, c: string, t: string)
    requires StartsWith(b, t)
    ensures OccursAt(a + b + c, t, |a|)
  {
    assert (a + b + c)[|a|..|a| + |t|] == b[..|t|];
  }

  /** A prefix of the middle of three space-separated parts occurs before the last part. */
  lemma OccursBeforeInParts(a: string, b: string, c: string, t: string)
    requires StartsWith(b, t)
    ensures OccursBefore(a + " " + b + " " + c, t, c)
  {
    var s := a + " " + b + " " + c;
    var i, j := |a| + 1, |a| + 1 + |b| + 1;
    assert s[i..i + |t|] == b[..|t|];
    assert s[j..j + |c|] == c;
    assert OccursAt(s, t, i) && OccursAt(s, c, j) && i + |t| <= j;
  }

  lemma StartsWithContains(s: string, p: string)
    requires StartsWith(s, p)
    ensures Contains(s, p)
  {
    assert OccursAt(s, p, 0);
  }

  lemma EndsWithContains(s: string, p: string)
    requires EndsWith(s, p)
    ensures Contains(s, p)
  {
    assert OccursAt(s, p, |s| - |p|);
  }

  /** An occurrence inside a part is an occurrence inside the whole. */
  lemma ContainsInConcat(a: string, b: string, c: string, t: string)
    requires Contains(b, t)
    ensures Contains(a + b + c, t)
  {
    var i :| 0 <= i <= |b| - |t| && OccursAt(b, t, i);
    var s := a + b + c;
    assert s[|a| + i..|a| + i + |t|] == b[i..i + |t|];
    assert OccursAt(s, t, |a| + i);
  }

  // ---------------------------------------------------------------------------
  // Array.prototype.join

  /** `parts.join(sep)`: the parts in order, `sep` between neighbours. */
  function Join(parts: seq<string>, sep: string): string
    decreases |parts|
  {
    if |parts| == 0 then ""
    else if |parts| == 1 then parts[0]
    else parts[0] + sep + Join(parts[1..], sep)
  }

  /** Joining two lists is joining their joins, with one separator iff both are non-empty. */
  lemma {:induction false} JoinAppend(xs: seq<string>, ys: seq<string>, sep: string)
    ensures Join(xs + ys, sep) ==
      if xs == [] then Join(ys, sep)
      else if ys == [] then Join(xs, sep)
      else Join(xs, sep) + sep + Join(ys, sep)
    decreases |xs|
  {
    if xs == [] {
      assert xs + ys == ys;
    } else if ys == [] {
      assert xs + ys == xs;
    } else if |xs| == 1 {
      assert (xs + ys)[1..] == ys;
    } else {
      JoinAppend(xs[1..], ys, sep);
      assert (xs + ys)[1..] == xs[1..] + ys;
    }
  }

  /** A part with neighbours on either side: the separators appear only where there is
      a neighbour. */
  lemma JoinMiddle(xs: seq<string>, t: string, ys: seq<string>, sep: string)
    ensures Join(xs + [t] + ys, sep) ==
      (if xs == [] then "" else Join(xs, sep) + sep) + t + (if ys == [] then "" else sep + Join(ys, sep))
  {
    assert xs + [t] + ys == xs + ([t] + ys);
    JoinAppend(xs, [t] + ys, sep);
    JoinAppend([t], ys, sep);
  }

  /** Every part occurs in the join. */
  lemma JoinContains(parts: seq<string>, k: nat, sep: string)
    requires k < |parts|
    ensures Contains(Join(parts, sep), parts[k])
  {
    var xs, t, ys := parts[..k], parts[k], parts[k + 1..];
    assert parts == xs + [t] + ys;
    JoinMiddle(xs, t, ys, sep);
    assert StartsWith(t, t);
    StartsWithContains(t, t);
    ContainsInConcat(if xs == [] then "" else Join(xs, sep) + sep, t,
      if ys == [] then "" else sep + Join(ys, sep), t);
  }

  /** What a string contains, any extension of it contains. */
  lemma ContainsExtend(b: string, c: string, t: string)
    requires Contains(b, t)
    ensures Contains(b + c, t)
  {
    var i :| 0 <= i <= |b| - |t| && OccursAt(b, t, i);
    assert (b + c)[i..i + |t|] == b[i..i + |t|];
    assert OccursAt(b + c, t, i);
  }

  /** Every part occurs in the join followed by a further spaced segment. */
  lemma JoinSpacedContains(parts: seq<string>, k: nat, tail: string)
    requires k < |parts|
    ensures Contains(Join(parts, " ") + tail, parts[k])
  {
    JoinContains(parts, k, " ");
    ContainsExtend(Join(parts, " "), tail, parts[k]);
  }

  /** The join of a list starts with the join of any proper non-empty prefix and a separator. */
  lemma JoinPrefix(parts: seq<string>, n: nat, sep: string)
    requires 0 < n < |parts|
    ensures StartsWith(Join(parts, sep), Join(parts[..n], sep) + sep)
  {
    assert parts == parts[..n] + parts[n..];
    JoinAppend(parts[..n], parts[n..], sep);
  }

  lemma JoinThree(a: string, b: string, c: string, sep: string)
    ensures Join([a, b, c], sep) == a + sep + b + sep + c
  {
    assert [b, c][1..] == [c];
    assert Join([b, c], sep) == b + sep + c;
    assert [a, b, c][1..] == [b, c];
  }

  /** The join of non-empty parts is empty exactly when there are no parts. */
  lemma {:induction false} JoinEmpty(parts: seq<string>, sep: string)
    requires forall k :: 0 <= k < |parts| ==> parts[k] != ""
    ensures Join(parts, sep) == "" <==> parts == []
    decreases |parts|
  {
    if |parts| > 1 {
      JoinEmpty(parts[1..], sep);
    }
  }

  // ---------------------------------------------------------------------------
  // String.prototype.trim

  /** ECMAScript WhiteSpace and LineTerminator code points, the set that `trim` removes. */
  predicate IsWhitespace(c: char) {
    || c == ' ' || c == '\t' || c == '\n' || c == '\r'
    || c == '\U{B}' || c == '\U{C}' || c == '\U{A0}' || c == '\U{FEFF}' || c == '\U{1680}'
    || ('\U{2000}' <= c <= '\U{200A}')
    || c == '\U{2028}' || c == '\U{2029}' || c == '\U{202F}' || c == '\U{205F}' || c == '\U{3000}'
  }

  predicate AllWhitespace(s: string) {
    forall k :: 0 <= k < |s| ==> IsWhitespace(s[k])
  }

  /** Neither end of `s` is whitespace (the empty string qualifies). */
  predicate Trimmed(s: string) {
    s == [] || (!IsWhitespace(s[0]) && !IsWhitespace(s[|s| - 1]))
  }

  /** `s.trimStart()`: the suffix left after removing leading whitespace. */
  function TrimStart(s: string): (r: string)
    ensures |r| <= |s| && r == s[|s| - |r|..]
    ensures AllWhitespace(s[..|s| - |r|])
    ensures r == [] || !IsWhitespace(r[0])
    decreases |s|
  {
    if s != [] && IsWhitespace(s[0]) then TrimStart(s[1..]) else s
  }

  /** `s.trimEnd()`: the prefix left after removing trailing whitespace. */
  function TrimEnd(s: string): (r: string)
    ensures |r| <= |s| && r == s[..|r|]
    ensures AllWhitespace(s[|r|..])
    ensures r == [] || !IsWhitespace(r[|r| - 1])
    decreases |s|
  {
    if s != [] && IsWhitespace(s[|s| - 1]) then
      var r := TrimEnd(s[..|s| - 1]);
      assert s[|r|..] == s[..|s| - 1][|r|..] + [s[|s| - 1]];
      r
    else s
  }

  /** `s.trim()` */
  function Trim(s: string): string {
    TrimEnd(TrimStart(s))
  }

  /** `trim` leaves a contiguous piece of its input with no whitespace at either end. */
  lemma TrimShape(s: string)
    ensures Trimmed(Trim(s))
    ensures Contains(s, Trim(s))
  {
    var t := TrimStart(s);
    var r := TrimEnd(t);
    TrimmedEnds(t, r);
    SliceOfSuffix(s, t, r);
  }

  /** The prefix `trimEnd` keeps of a string that starts with no whitespace is trimmed. */
  lemma TrimmedEnds(t: string, r: string)
    requires r == TrimEnd(t)
    requires t == [] || !IsWhitespace(t[0])
    ensures Trimmed(r)
  {
    if r != [] {
      assert r[0] == t[0];
    }
  }

  /** A prefix of a suffix occurs in the whole string. */
  lemma SliceOfSuffix(s: string, t: string, r: string)
    requires |t| <= |s| && t == s[|s| - |t|..]
    requires |r| <= |t| && r == t[..|r|]
    ensures OccursAt(s, r, |s| - |t|)
    ensures Contains(s, r)
  {
    var i := |s| - |t|;
    forall k | 0 <= k < |r|
      ensures s[i..i + |r|][k] == r[k]
    {
      assert r[k] == t[k] == s[i + k];
    }
    assert s[i..i + |r|] == r;
    assert OccursAt(s, r, i);
  }

  /** A string without outer whitespace is its own trim; hence `trim` is idempotent. */
  lemma TrimOfTrimmed(s: string)
    requires Trimmed(s)
    ensures Trim(s) == s
  {
  }

  lemma TrimIdempotent(s: string)
    ensures Trim(Trim(s)) == Trim(s)
  {
    TrimShape(s);
    TrimOfTrimmed(Trim(s));
  }

  /** Trailing whitespace only matters through the last non-whitespace character. */
  lemma {:induction false} TrimEndAppend(a: string, b: string)
    ensures TrimEnd(a + b) == if TrimEnd(b) == "" then TrimEnd(a) else a + TrimEnd(b)
    decreases |b|
  {
    if b == [] {
      assert a + b == a;
    } else if IsWhitespace(b[|b| - 1]) {
      var b' := b[..|b| - 1];
      assert (a + b)[..|a + b| - 1] == a + b';
      TrimEndAppend(a, b');
    }
  }

  /** Leading whitespace is all `trimStart` removes. */
  lemma TrimStartSpace(b: string)
    ensures TrimStart(" " + b) == TrimStart(b)
  {
    assert (" " + b)[1..] == b;
  }

  /** What `trim` leaves of a caller's class string once it is the trailing segment:
      nothing when it is blank, otherwise a space and the string without its trailing
      whitespace (leading whitespace inside it survives, as it does in JavaScript). */
  function TrailingSegment(b: string): string {
    if TrimEnd(b) == "" then "" else " " + TrimEnd(b)
  }

  lemma TrimEndSpace(a: string)
    ensures TrimEnd(a + " ") == TrimEnd(a)
  {
    var h := a + " ";
    assert h[|h| - 1] == ' ';
    assert h[..|h| - 1] == a;
  }

  lemma BlankTrimEnd(b: string)
    requires AllWhitespace(b)
    ensures TrimEnd(b) == "" && TrailingSegment(b) == ""
  {
    var r := TrimEnd(b);
    if r != [] {
      assert false;
    }
  }

  /** `${a} ${b}`.trim() for a fixed, already trimmed, non-empty head `a`. */
  lemma TrimAfterHead(a: string, b: string)
    requires a != "" && Trimmed(a)
    ensures Trim(a + " " + b) == a + TrailingSegment(b)
  {
    var h := a + " ";
    var s := h + b;
    assert s[0] == a[0];
    assert TrimStart(s) == s;
    TrimEndAppend(h, b);
    if TrimEnd(b) == "" {
      TrimEndSpace(a);
      assert TrimEnd(a) == a;
      assert a + TrailingSegment(b) == a;
    } else {
      assert TrimEnd(s) == h + TrimEnd(b);
      assert h + TrimEnd(b) == a + (" " + TrimEnd(b));
    }
  }

  // ---------------------------------------------------------------------------
  // A reference reading of a class string: `s.split(' ')`

  /** `s.split(' ')`: the maximal space-free pieces, in order. */
  function SplitSpace(s: string): (r: seq<string>)
    ensures |r| >= 1
    ensures forall k :: 0 <= k < |r| ==> ' ' !in r[k]
    decreases |s|
  {
    if s == [] then [""]
    else if s[0] == ' ' then [""] + SplitSpace(s[1..])
    else
      var rest := SplitSpace(s[1..]);
      [[s[0]] + rest[0]] + rest[1..]
  }

  lemma {:induction false} SplitSpaceWord(p: string, t: string)
    requires ' ' !in p
    ensures SplitSpace(p + t) == [p + SplitSpace(t)[0]] + SplitSpace(t)[1..]
    decreases |p|
  {
    if p != [] {
      assert (p + t)[1..] == p[1..] + t;
      SplitSpaceWord(p[1..], t);
      assert [p[0]] + (p[1..] + SplitSpace(t)[0]) == p + SplitSpace(t)[0];
    } else {
      var r := SplitSpace(t);
      assert p + t == t;
      assert p + r[0] == r[0];
      assert [r[0]] + r[1..] == r;
    }
  }

  /** One step of `split`: a space starts a new piece, any other character joins the first. */
  lemma SplitSpaceCons(c: char, t: string)
    ensures SplitSpace([c] + t) ==
      if c == ' ' then [""] + SplitSpace(t)
      else [[c] + SplitSpace(t)[0]] + SplitSpace(t)[1..]
  {
    assert ([c] + t)[0] == c;
    assert ([c] + t)[1..] == t;
  }

  /** Extending the first piece commutes with appending further pieces. */
  lemma HeadMerge(h: string, r1: seq<string>, r2: seq<string>)
    requires |r1| >= 1
    ensures [h + (r1 + r2)[0]] + (r1 + r2)[1..] == ([h + r1[0]] + r1[1..]) + r2
  {
    assert (r1 + r2)[0] == r1[0];
    assert (r1 + r2)[1..] == r1[1..] + r2;
  }

  lemma SplitSpaceAtStep(c: char, a: string, b: string)
    requires SplitSpace(a + " " + b) == SplitSpace(a) + SplitSpace(b)
    ensures SplitSpace([c] + a + " " + b) == SplitSpace([c] + a) + SplitSpace(b)
  {
    assert [c] + a + " " + b == [c] + (a + " " + b);
    if c == ' ' {
      SplitSpaceAtSpace(a, b);
    } else {
      SplitSpaceAtChar(c, a, b);
    }
  }

  lemma SplitSpaceAtSpace(a: string, b: string)
    requires SplitSpace(a + " " + b) == SplitSpace(a) + SplitSpace(b)
    ensures SplitSpace([' '] + (a + " " + b)) == SplitSpace([' '] + a) + SplitSpace(b)
  {
    SplitSpaceCons(' ', a + " " + b);
    SplitSpaceCons(' ', a);
    ConsAssoc("", SplitSpace(a), SplitSpace(b));
  }

  lemma ConsAssoc<T>(x: T, r1: seq<T>, r2: seq<T>)
    ensures [x] + (r1 + r2) == ([x] + r1) + r2
  {
  }

  lemma SplitSpaceAtChar(c: char, a: string, b: string)
    requires c != ' '
    requires SplitSpace(a + " " + b) == SplitSpace(a) + SplitSpace(b)
    ensures SplitSpace([c] + (a + " " + b)) == SplitSpace([c] + a) + SplitSpace(b)
  {
    SplitSpaceCons(c, a + " " + b);
    SplitSpaceCons(c, a);
    HeadMerge([c], SplitSpace(a), SplitSpace(b));
  }

  /** Splitting at one space splits the two sides independently. */
  lemma {:induction false} SplitSpaceAt(a: string, b: string)
    ensures SplitSpace(a + " " + b) == SplitSpace(a) + SplitSpace(b)
    decreases |a|
  {
    if a == [] {
      assert a + " " + b == [' '] + b;
      SplitSpaceCons(' ', b);
    } else {
      SplitSpaceAt(a[1..], b);
      SplitSpaceAtStep(a[0], a[1..], b);
      assert [a[0]] + a[1..] == a;
    }
  }

  /** Splitting a head followed by a spaced segment. */
  lemma SplitSpaced(h: string, c: string)
    ensures SplitSpace(h + (if c == "" then "" else " " + c)) ==
      SplitSpace(h) + (if c == "" then [] else SplitSpace(c))
  {
    if c == "" {
      assert h + "" == h;
      assert SplitSpace(h) + [] == SplitSpace(h);
    } else {
      SplitSpaceAt(h, c);
      assert h + (" " + c) == h + " " + c;
    }
  }

  /** A space-free word splits into itself. */
  lemma SplitWord(w: string)
    requires ' ' !in w
    ensures SplitSpace(w) == [w]
  {
    SplitSpaceWord(w, "");
    assert w + "" == w;
  }

  lemma ConcatAssoc<T>(a: seq<T>, b: seq<T>, c: seq<T>)
    ensures a + (b + c) == (a + b) + c
  {
  }

  /** Two space-free words joined by one space split back into the two words. */
  lemma SplitTwo(s: string, a: string, b: string)
    requires ' ' !in a && ' ' !in b
    requires s == a + " " + b
    ensures SplitSpace(s) == [a, b]
  {
    SplitSpaceAt(a, b);
    SplitSpaceWord(a, "");
    SplitSpaceWord(b, "");
    assert a + "" == a;
    assert b + "" == b;
  }

  /** Splitting on a space undoes joining with a space, when no part holds a space. */
  lemma {:induction false} SplitJoin(parts: seq<string>)
    requires |parts| >= 1
    requires forall k :: 0 <= k < |parts| ==> ' ' !in parts[k]
    ensures SplitSpace(Join(parts, " ")) == parts
    decreases |parts|
  {
    if |parts| == 1 {
      SplitSpaceWord(parts[0], "");
      assert parts[0] + "" == parts[0];
    } else {
      var rest := Join(parts[1..], " ");
      SplitJoin(parts[1..]);
      assert SplitSpace(" " + rest) == [""] + parts[1..] by {
        assert (" " + rest)[1..] == rest;
      }
      assert Join(parts, " ") == parts[0] + (" " + rest);
      SplitSpaceWord(parts[0], " " + rest);
      assert parts[0] + "" == parts[0];
      assert [parts[0]] + parts[1..] == parts;
    }
  }
}
