/** The pieces of Go's `strings` package the client uses (`Join`, `TrimSpace`),
    with `Split` and `Count` as the reference operations that read a joined
    string back. Separators are single characters, as they are at every call
    site in the client. */
module Strings {

  /** `strings.Join(parts, string(sep))`: the empty string for no parts;
      otherwise it starts with the first part. */
  function Join(parts: seq<string>, sep: char): (r: string)
    ensures |parts| == 0 ==> r == ""
    ensures |parts| >= 1 ==> parts[0] <= r
  {
    if |parts| == 0 then ""
    else if |parts| == 1 then parts[0]
    else Join(parts[..|parts| - 1], sep) + [sep] + parts[|parts| - 1]
  }

  /** `strings.Split(s, string(sep))`: the pieces between separators; at least
      one piece, so `Split("", sep) == [""]`. */
  function Split(s: string, sep: char): (r: seq<string>)
    ensures |r| >= 1
    decreases |s|
  {
    if s == [] then [""]
    else
      var rest := Split(s[1..], sep);
      if s[0] == sep then [""] + rest else [[s[0]] + rest[0]] + rest[1..]
  }

  /** `strings.Count(s, string(c))`. */
  function Count(s: string, c: char): nat
    decreases |s|
  {
    if s == [] then 0 else (if s[0] == c then 1 else 0) + Count(s[1..], c)
  }

  /** No element of `parts` contains `sep`. */
  predicate FreeOf(parts: seq<string>, sep: char) {
    forall i :: 0 <= i < |parts| ==> sep !in parts[i]
  }

  lemma {:induction false} SplitFree(a: string, sep: char)
    requires sep !in a
    ensures Split(a, sep) == [a]
    decreases |a|
  {
    if a != [] {
      assert a[0] != sep && [a[0]] + a[1..] == a;
      SplitFree(a[1..], sep);
    }
  }

  lemma {:induction false} SplitSnoc(a: string, b: string, sep: char)
    requires sep !in b
    ensures Split(a + [sep] + b, sep) == Split(a, sep) + [b]
    decreases |a|
  {
    if a == [] {
      assert a + [sep] + b == [sep] + b;
      SplitFree(b, sep);
    } else {
      assert (a + [sep] + b)[1..] == a[1..] + [sep] + b;
      SplitSnoc(a[1..], b, sep);
    }
  }

  /** Two pieces free of the separator, joined by it, split back into the two. */
  lemma SplitPair(a: string, b: string, sep: char)
    requires sep !in a && sep !in b
    ensures Split(a + [sep] + b, sep) == [a, b]
  {
    SplitSnoc(a, b, sep);
    SplitFree(a, sep);
  }

  /** Three pieces free of the separator, joined by it, split back into the
      three. */
  lemma SplitTriple(a: string, b: string, c: string, sep: char)
    requires sep !in a && sep !in b && sep !in c
    ensures Split(a + [sep] + b + [sep] + c, sep) == [a, b, c]
  {
    SplitSnoc(a + [sep] + b, c, sep);
    SplitPair(a, b, sep);
  }

  /** The text before the first separator is the first piece. */
  lemma {:induction false} SplitHead(a: string, b: string, sep: char)
    requires sep !in a
    ensures Split(a + [sep] + b, sep)[0] == a
    decreases |a|
  {
    if a == [] {
      assert a + [sep] + b == [sep] + b;
    } else {
      assert (a + [sep] + b)[1..] == a[1..] + [sep] + b;
      SplitHead(a[1..], b, sep);
    }
  }

  /** The first piece is a prefix of the string and holds no separator. */
  lemma {:induction false} SplitHeadBefore(s: string, sep: char)
    ensures Split(s, sep)[0] <= s && sep !in Split(s, sep)[0]
    decreases |s|
  {
    if s != [] {
      SplitHeadBefore(s[1..], sep);
    }
  }

  /** Splitting a joined list gives the list back, provided it is not empty and
      no element contains the separator. */
  lemma {:induction false} SplitJoin(parts: seq<string>, sep: char)
    requires |parts| >= 1 && FreeOf(parts, sep)
    ensures Split(Join(parts, sep), sep) == parts
    decreases |parts|
  {
    if |parts| == 1 {
      SplitFree(parts[0], sep);
    } else {
      var init := parts[..|parts| - 1];
      SplitJoin(init, sep);
      SplitSnoc(Join(init, sep), parts[|parts| - 1], sep);
    }
  }

  lemma {:induction false} CountAppend(a: string, b: string, c: char)
    ensures Count(a + b, c) == Count(a, c) + Count(b, c)
    decreases |a|
  {
    if a != [] {
      assert (a + b)[0] == a[0] && (a + b)[1..] == a[1..] + b;
      CountAppend(a[1..], b, c);
    } else {
      assert a + b == b;
    }
  }

  lemma {:induction false} CountFree(a: string, c: char)
    requires c !in a
    ensures Count(a, c) == 0
    decreases |a|
  {
    if a != [] {
      CountFree(a[1..], c);
    }
  }

  /** A joined non-empty list holds exactly one separator between each pair of
      neighbours and no other. */
  lemma {:induction false} CountJoin(parts: seq<string>, sep: char)
    requires |parts| >= 1 && FreeOf(parts, sep)
    ensures Count(Join(parts, sep), sep) == |parts| - 1
    decreases |parts|
  {
    if |parts| == 1 {
      CountFree(parts[0], sep);
    } else {
      var init := parts[..|parts| - 1];
      CountJoin(init, sep);
      CountAppend(Join(init, sep) + [sep], parts[|parts| - 1], sep);
      CountAppend(Join(init, sep), [sep], sep);
      CountFree(parts[|parts| - 1], sep);
    }
  }

  /** A joined list of lines holds no separator beyond those it places. */
  lemma {:induction false} JoinFree(parts: seq<string>, sep: char, c: char)
    requires c != sep && FreeOf(parts, c)
    ensures c !in Join(parts, sep)
    decreases |parts|
  {
    if |parts| > 1 {
      JoinFree(parts[..|parts| - 1], sep, c);
    }
  }

  /** The text of a buffer to which each line was written followed by a
      newline. */
  function Terminated(lines: seq<string>): string
  {
    if lines == [] then "" else Terminated(lines[..|lines| - 1]) + lines[|lines| - 1] + "\n"
  }

  /** Writing one more line extends the buffer by that line and a newline. */
  lemma TerminatedSnoc(lines: seq<string>, n: nat)
    requires n < |lines|
    ensures Terminated(lines[..n + 1]) == Terminated(lines[..n]) + lines[n] + "\n"
  {
    assert lines[..n + 1][..n] == lines[..n];
  }

  /** A buffer of newline-terminated lines is the lines joined by newlines,
      plus one final newline. */
  lemma {:induction false} TerminatedJoin(lines: seq<string>)
    requires |lines| >= 1
    ensures Terminated(lines) == Join(lines, '\n') + "\n"
    decreases |lines|
  {
    if |lines| == 1 {
      assert lines[..0] == [];
    } else {
      TerminatedJoin(lines[..|lines| - 1]);
    }
  }

  /** Go's `unicode.IsSpace`. */
  predicate IsSpace(c: char) {
    c == '\t' || c == '\n' || c == '\U{000B}' || c == '\U{000C}' || c == '\r' || c == ' '
    || c == '\U{0085}' || c == '\U{00A0}' || c == '\U{1680}'
    || ('\U{2000}' <= c <= '\U{200A}')
    || c == '\U{2028}' || c == '\U{2029}' || c == '\U{202F}' || c == '\U{205F}' || c == '\U{3000}'
  }

  /** Every character of `t` is white space. */
  predicate AllSpace(t: string) {
    forall k :: 0 <= k < |t| ==> IsSpace(t[k])
  }

  function TrimLeft(s: string): (r: string)
    ensures |r| <= |s| && r == s[|s| - |r|..]
    ensures r == [] || !IsSpace(r[0])
    ensures AllSpace(s[..|s| - |r|])
    decreases |s|
  {
    if s != [] && IsSpace(s[0]) then
      var r := TrimLeft(s[1..]);
      assert s[..|s| - |r|] == [s[0]] + s[1..][..|s| - 1 - |r|];
      r
    else s
  }

  function TrimRight(s: string): (r: string)
    ensures r <= s
    ensures r == [] || !IsSpace(r[|r| - 1])
    ensures AllSpace(s[|r|..])
    decreases |s|
  {
    if s != [] && IsSpace(s[|s| - 1]) then
      var r := TrimRight(s[..|s| - 1]);
      assert s[|r|..] == s[..|s| - 1][|r|..] + [s[|s| - 1]];
      r
    else s
  }

  /** The number of white-space characters `s` starts with. */
  function Indent(s: string): (n: nat)
    ensures n <= |s| && AllSpace(s[..n])
    ensures n == |s| || !IsSpace(s[n])
  {
    |s| - |TrimLeft(s)|
  }

  /** `strings.TrimSpace`: drops leading and trailing white space. The result
      is the piece of `s` after its indentation, with no white space at
      either end, and everything after it is white space. */
  function TrimSpace(s: string): (r: string)
    ensures r == [] || (!IsSpace(r[0]) && !IsSpace(r[|r| - 1]))
    ensures Indent(s) + |r| <= |s| && r == s[Indent(s)..Indent(s) + |r|]
    ensures AllSpace(s[Indent(s) + |r|..])
  {
    var l := TrimLeft(s);
    var r := TrimRight(l);
    PrefixOfSuffix(s, l, r);
    assert Indent(s) == |s| - |l|;
    r
  }

  /** A prefix `r` of a suffix `l` of `s` is a slice of `s`, and what follows
      it in `l` is what follows it in `s`. */
  lemma PrefixOfSuffix(s: string, l: string, r: string)
    requires |l| <= |s| && l == s[|s| - |l|..] && r <= l
    ensures var i := |s| - |l|;
      i + |r| <= |s| && r == s[i..i + |r|] && l[|r|..] == s[i + |r|..]
  {
  }

  /** Trimming a string whose ends are not white space removes exactly one
      trailing newline appended to it. */
  lemma TrimSpaceNewline(x: string)
    requires |x| >= 1 && !IsSpace(x[0]) && !IsSpace(x[|x| - 1])
    ensures TrimSpace(x + "\n") == x
  {
    var s := x + "\n";
    assert s[0] == x[0] && !IsSpace(s[0]);
    assert TrimLeft(s) == s;
    assert s[|s| - 1] == '\n' && s[..|s| - 1] == x;
    assert TrimRight(s) == TrimRight(x);
    assert TrimRight(x) == x;
  }
}
