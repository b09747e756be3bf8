/** Text as the serializer produces it: a StringBuilder that receives one
    line at a time, each followed by "\n", and Java's String.trim, which the
    runner form applies to its text fields. */
module Strings {

  /** The text of a sequence of lines, every line terminated by "\n". */
  function Unlines(ls: seq<string>): string
  {
    if ls == [] then [] else ls[0] + "\n" + Unlines(ls[1..])
  }

  /** The position of the first occurrence of `c` in `s`. */
  function IndexOf(s: string, c: char): (i: nat)
    requires c in s
    ensures i < |s| && s[i] == c && c !in s[..i]
  {
    if s[0] == c then 0 else 1 + IndexOf(s[1..], c)
  }

  /** Splits text into its lines at every "\n"; a final line without a
      terminator is kept as it is. */
  function SplitLines(s: string): seq<string>
    decreases |s|
  {
    if s == [] then []
    else if '\n' !in s then [s]
    else
      var i := IndexOf(s, '\n');
      [s[..i]] + SplitLines(s[i + 1..])
  }

  predicate NoNewline(l: string)
  {
    '\n' !in l
  }

  /** No line of `ls` holds a line break. */
  predicate AllNoNewline(ls: seq<string>)
  {
    forall k :: 0 <= k < |ls| ==> NoNewline(ls[k])
  }

  lemma AllNoNewlineAppend(a: seq<string>, b: seq<string>)
    requires AllNoNewline(a) && AllNoNewline(b)
    ensures AllNoNewline(a + b)
  {
    forall k | 0 <= k < |a + b|
      ensures NoNewline((a + b)[k])
    {
      if k >= |a| {
        assert (a + b)[k] == b[k - |a|];
      }
    }
  }

  lemma UnlinesAppend(a: seq<string>, b: seq<string>)
    ensures Unlines(a + b) == Unlines(a) + Unlines(b)
  {
    if a == [] {
      assert a + b == b;
    } else {
      calc {
        Unlines(a + b);
        (a + b)[0] + "\n" + Unlines((a + b)[1..]);
        { assert (a + b)[1..] == a[1..] + b; }
        a[0] + "\n" + Unlines(a[1..] + b);
        { UnlinesAppend(a[1..], b); }
        a[0] + "\n" + (Unlines(a[1..]) + Unlines(b));
        (a[0] + "\n" + Unlines(a[1..])) + Unlines(b);
      }
    }
  }

  lemma UnlinesPair(a: string, b: string)
    ensures Unlines([a, b]) == a + "\n" + b + "\n"
  {
    assert [a] + [b] == [a, b];
    UnlinesAppend([a], [b]);
    assert [a][1..] == [];
  }

  /** The text of some lines starts with the text of the first of them. */
  lemma UnlinesPrefix(a: seq<string>, b: seq<string>)
    ensures Unlines(a) <= Unlines(a + b)
  {
    UnlinesAppend(a, b);
  }

  /** Every line of the text, the last one included, ends in "\n". */
  lemma {:induction false} UnlinesTerminated(ls: seq<string>)
    ensures ls == [] <==> Unlines(ls) == []
    ensures ls != [] ==> Unlines(ls)[|Unlines(ls)| - 1] == '\n'
  {
    if ls != [] {
      UnlinesTerminated(ls[1..]);
    }
  }

  lemma IndexOfFirst(s: string, c: char, i: nat)
    requires i < |s| && s[i] == c && c !in s[..i]
    ensures c in s && IndexOf(s, c) == i
  {
    assert s[i] in s;
  }

  /** Splitting the text of newline-free lines gives those lines back. */
  lemma {:induction false} SplitUnlines(ls: seq<string>)
    requires AllNoNewline(ls)
    ensures SplitLines(Unlines(ls)) == ls
  {
    if ls != [] {
      var l, rest := ls[0], Unlines(ls[1..]);
      var s := Unlines(ls);
      assert s == l + ("\n" + rest);
      assert s[..|l|] == l;
      assert s[|l|] == '\n';
      IndexOfFirst(s, '\n', |l|);
      assert s[|l| + 1..] == rest;
      SplitUnlines(ls[1..]);
      assert [l] + ls[1..] == ls;
    }
  }

  /** Java's String.trim: every character up to U+0020 counts as blank. */
  predicate IsBlank(c: char)
  {
    c <= ' '
  }

  function TrimStart(s: string): (r: string)
    ensures |r| <= |s| && r == s[|s| - |r|..]
    ensures forall k :: 0 <= k < |s| - |r| ==> IsBlank(s[k])
    ensures r == [] || !IsBlank(r[0])
  {
    if s != [] && IsBlank(s[0]) then TrimStart(s[1..]) else s
  }

  function TrimEnd(s: string): (r: string)
    ensures |r| <= |s| && r == s[..|r|]
    ensures forall k :: |r| <= k < |s| ==> IsBlank(s[k])
    ensures r == [] || !IsBlank(r[|r| - 1])
  {
    if s != [] && IsBlank(s[|s| - 1]) then TrimEnd(s[..|s| - 1]) else s
  }

  /** The text with its leading and trailing blanks removed. */
  function Trim(s: string): (r: string)
    ensures |r| <= |s|
    ensures r == [] || (!IsBlank(r[0]) && !IsBlank(r[|r| - 1]))
  {
    TrimEnd(TrimStart(s))
  }

  /** Trim only removes blanks: the result sits inside `s`, and every
      character cut off on either side is blank. */
  lemma TrimInfix(s: string, lo: nat, r: string)
    requires lo == |s| - |TrimStart(s)| && r == Trim(s)
    ensures lo + |r| <= |s| && r == s[lo..lo + |r|]
    ensures forall k :: 0 <= k < lo ==> IsBlank(s[k])
    ensures forall k :: lo + |r| <= k < |s| ==> IsBlank(s[k])
  {
    var t := TrimStart(s);
    assert t == s[lo..];
    assert r == t[..|r|];
    forall k | lo + |r| <= k < |s|
      ensures IsBlank(s[k])
    {
      assert s[k] == t[k - lo];
    }
  }

  /** Text without blank ends is left as it is, so trimming twice is
      trimming once. */
  lemma TrimFixed(s: string)
    requires s == [] || (!IsBlank(s[0]) && !IsBlank(s[|s| - 1]))
    ensures Trim(s) == s
  {
  }

  lemma TrimIdempotent(s: string)
    ensures Trim(Trim(s)) == Trim(s)
  {
    TrimFixed(Trim(s));
  }
}
