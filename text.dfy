/** The string operations of Rust's `str` that the scanner and the configuration
    rely on: prefix tests, `trim`, `split_whitespace`, `lines`, `split` and `join`.
    Strings are sequences of Unicode scalar values, as Rust's `char`s are. */
module Text {

  /** `s.starts_with(prefix)`, compared character by character. */
  predicate StartsWith(s: string, prefix: string)
    ensures StartsWith(s, prefix) <==> prefix <= s
  {
    prefix == [] || (s != [] && s[0] == prefix[0] && StartsWith(s[1..], prefix[1..]))
  }

  /** A string does not start with `prefix` when they differ at a position both have. */
  lemma NotPrefixAt(s: string, prefix: string, k: nat)
    requires k < |s| && k < |prefix| && s[k] != prefix[k]
    ensures !StartsWith(s, prefix)
  {
  }

  /** `s.ends_with(c)`. */
  predicate EndsWith(s: string, c: char) {
    |s| > 0 && s[|s| - 1] == c
  }

  /** `char::is_whitespace`: the characters with the Unicode White_Space property. */
  predicate IsWhitespace(c: char) {
    || ('\t' <= c <= '\r')
    || c == ' '
    || c == '\U{85}'
    || c == '\U{A0}'
    || c == '\U{1680}'
    || ('\U{2000}' <= c <= '\U{200A}')
    || c == '\U{2028}'
    || c == '\U{2029}'
    || c == '\U{202F}'
    || c == '\U{205F}'
    || c == '\U{3000}'
  }

  /** `s.trim_start()`: `s` without its leading whitespace. */
  function TrimStart(s: string): (r: string)
    ensures |r| <= |s|
  {
    if s != [] && IsWhitespace(s[0]) then TrimStart(s[1..]) else s
  }

  /** `s.trim_end()`: `s` without its trailing whitespace. */
  function TrimEnd(s: string): (r: string)
    ensures |r| <= |s|
  {
    if s != [] && IsWhitespace(s[|s| - 1]) then TrimEnd(s[..|s| - 1]) else s
  }

  /** `s.trim()`: `s` without its leading and trailing whitespace. */
  function Trim(s: string): string {
    TrimEnd(TrimStart(s))
  }

  /** The length of the run of non-whitespace characters at the start of `s`. */
  function WordEnd(s: string): (n: nat)
    ensures n <= |s|
  {
    if s == [] || IsWhitespace(s[0]) then 0 else 1 + WordEnd(s[1..])
  }

  /** `s.split_whitespace()`: the maximal non-empty runs of non-whitespace characters. */
  function Tokens(s: string): seq<string>
    decreases |s|
  {
    var t := TrimStart(s);
    if t == [] then []
    else
      var n := WordEnd(t);
      if n == 0 then [] else [t[..n]] + Tokens(t[n..])
  }

  /** `trim_start` removes exactly the whitespace prefix: what remains is a suffix of `s`
      that is empty or starts with a non-whitespace character. */
  lemma {:induction false} TrimStartSpec(s: string)
    ensures var r := TrimStart(s);
            && r == s[|s| - |r|..]
            && (forall k :: 0 <= k < |s| - |r| ==> IsWhitespace(s[k]))
            && (r != [] ==> !IsWhitespace(r[0]))
  {
    if s != [] && IsWhitespace(s[0]) {
      TrimStartSpec(s[1..]);
    }
  }

  /** `trim_end` removes exactly the whitespace suffix. */
  lemma {:induction false} TrimEndSpec(s: string)
    ensures var r := TrimEnd(s);
            && r == s[..|r|]
            && (forall k :: |r| <= k < |s| ==> IsWhitespace(s[k]))
            && (r != [] ==> !IsWhitespace(r[|r| - 1]))
  {
    if s != [] && IsWhitespace(s[|s| - 1]) {
      TrimEndSpec(s[..|s| - 1]);
    }
  }

  /** `trim` keeps a contiguous part of `s` that neither starts nor ends with whitespace, and
      everything it drops on either side is whitespace. */
  lemma TrimSpec(s: string)
    ensures var r := Trim(s);
            var i := |s| - |TrimStart(s)|;
            && i + |r| <= |s| && r == s[i..i + |r|]
            && (forall k :: 0 <= k < i ==> IsWhitespace(s[k]))
            && (forall k :: i + |r| <= k < |s| ==> IsWhitespace(s[k]))
            && (r == [] || (!IsWhitespace(r[0]) && !IsWhitespace(r[|r| - 1])))
  {
    TrimStartSpec(s);
    TrimEndSpec(TrimStart(s));
  }

  /** The non-whitespace prefix `WordEnd` measures. */
  lemma {:induction false} WordEndSpec(s: string)
    ensures var n := WordEnd(s);
            && (forall k :: 0 <= k < n ==> !IsWhitespace(s[k]))
            && (n < |s| ==> IsWhitespace(s[n]))
  {
    if s != [] && !IsWhitespace(s[0]) {
      WordEndSpec(s[1..]);
    }
  }

  /** A string without whitespace is one word. */
  lemma {:induction false} WordEndOfWord(s: string)
    requires forall k :: 0 <= k < |s| ==> !IsWhitespace(s[k])
    ensures WordEnd(s) == |s|
  {
    if s != [] {
      WordEndOfWord(s[1..]);
    }
  }

  /** A word followed by whitespace ends where the whitespace starts. */
  lemma {:induction false} WordEndAppend(w: string, rest: string)
    requires WordEnd(w) == |w|
    requires rest != [] && IsWhitespace(rest[0])
    ensures WordEnd(w + rest) == |w|
  {
    if w != [] {
      assert (w + rest)[1..] == w[1..] + rest;
      WordEndAppend(w[1..], rest);
    } else {
      assert w + rest == rest;
    }
  }

  /** Every word `split_whitespace` yields is non-empty and free of whitespace. */
  lemma {:induction false} TokensSpec(s: string)
    ensures forall t :: t in Tokens(s) ==> t != [] && forall k :: 0 <= k < |t| ==> !IsWhitespace(t[k])
    decreases |s|
  {
    var t := TrimStart(s);
    if t != [] {
      var n := WordEnd(t);
      if n > 0 {
        WordEndSpec(t);
        TokensSpec(t[n..]);
        assert Tokens(s) == [t[..n]] + Tokens(t[n..]);
      }
    }
  }

  /** Leading whitespace plays no part in the split: `trim_start` drops it. */
  lemma {:induction false} TrimStartSkip(ws: string, s: string)
    requires forall k :: 0 <= k < |ws| ==> IsWhitespace(ws[k])
    ensures TrimStart(ws + s) == TrimStart(s)
  {
    if ws != [] {
      assert (ws + s)[0] == ws[0];
      assert (ws + s)[1..] == ws[1..] + s;
      TrimStartSkip(ws[1..], s);
    } else {
      assert ws + s == s;
    }
  }

  /** `split_whitespace` ignores whitespace before the first word. */
  lemma TokensSkip(ws: string, s: string)
    requires forall k :: 0 <= k < |ws| ==> IsWhitespace(ws[k])
    ensures Tokens(ws + s) == Tokens(s)
  {
    TrimStartSkip(ws, s);
  }

  /** A word that ends the text or is followed by whitespace is the first word of the split,
      and the split goes on with the rest. */
  lemma TokensWord(w: string, r: string)
    requires w != [] && forall k :: 0 <= k < |w| ==> !IsWhitespace(w[k])
    requires r == [] || IsWhitespace(r[0])
    ensures Tokens(w + r) == [w] + Tokens(r)
  {
    var s := w + r;
    assert s[0] == w[0];
    assert TrimStart(s) == s;
    WordEndOfWord(w);
    if r == [] {
      assert s == w;
    } else {
      WordEndAppend(w, r);
    }
    assert s[..|w|] == w && s[|w|..] == r;
  }

  /** Strings of lower-case ASCII letters. */
  predicate Lower(w: string) {
    w == [] || ('a' <= w[0] <= 'z' && Lower(w[1..]))
  }

  /** A lower-case ASCII word holds no whitespace. */
  lemma {:induction false} LowerHasNoWhitespace(w: string)
    requires Lower(w)
    ensures forall k :: 0 <= k < |w| ==> !IsWhitespace(w[k])
  {
    if w != [] {
      LowerHasNoWhitespace(w[1..]);
      assert forall k :: 1 <= k < |w| ==> w[k] == w[1..][k - 1];
    }
  }

  /** Two words separated by one space split into those two words. */
  lemma TwoWords(w1: string, w2: string)
    requires w1 != [] && forall k :: 0 <= k < |w1| ==> !IsWhitespace(w1[k])
    requires w2 != [] && forall k :: 0 <= k < |w2| ==> !IsWhitespace(w2[k])
    ensures Tokens(w1 + " " + w2) == [w1, w2]
  {
    assert w1 + " " + w2 == w1 + (" " + w2);
    TokensWord(w1, " " + w2);
    TokensSkip(" ", w2);
    assert w2 == w2 + "";
    TokensWord(w2, "");
    assert Tokens("") == [];
  }

  /** The index of the first `c` in `s`, or `|s|` when there is none. */
  function IndexOf(s: string, c: char): (i: nat)
    ensures i <= |s|
    ensures i < |s| ==> s[i] == c
    ensures forall k :: 0 <= k < i ==> s[k] != c
  {
    if s == [] || s[0] == c then 0 else 1 + IndexOf(s[1..], c)
  }

  /** A prefix one element longer. */
  lemma PrefixSnoc<T>(s: seq<T>, i: nat)
    requires i < |s|
    ensures s[..i + 1] == s[..i] + [s[i]]
  {
  }

  /** A non-empty sequence is its front and its last element. */
  lemma InitLast<T>(s: seq<T>)
    requires s != []
    ensures s == s[..|s| - 1] + [s[|s| - 1]]
  {
  }

  /** The front and the last element of a sequence one element longer. */
  lemma SnocParts<T>(s: seq<T>, x: T)
    ensures (s + [x])[..|s|] == s && (s + [x])[|s|] == x && |s + [x]| == |s| + 1
  {
  }

  /** A prefix splits at any point `j` within it: the prefix up to `j`, then the slice from `j`. */
  lemma SplitAt<T>(s: seq<T>, j: nat, i: nat)
    requires j <= i <= |s|
    ensures s[..i] == s[..j] + s[j..i]
  {
  }

  lemma AppendEmpty<T>(a: seq<T>)
    ensures a + [] == a
  {
  }

  lemma AppendAssoc<T>(a: seq<T>, b: seq<T>, c: seq<T>)
    ensures (a + b) + c == a + (b + c)
  {
  }

  lemma Regroup<T>(a: seq<T>, b: seq<T>, c: seq<T>, d: seq<T>)
    ensures a + (b + c + d) == ((a + b) + c) + d
  {
  }

  lemma SliceSnoc<T>(s: seq<T>, j: nat, i: nat)
    requires j <= i < |s|
    ensures s[j..i + 1][..i - j] == s[j..i] && s[j..i + 1][i - j] == s[i]
  {
  }

  /** `s.lines()` (without its '\r' handling): the pieces between the '\n's of `s`,
      where a final '\n' does not open an empty last line. */
  function Lines(s: string): (r: seq<string>)
    ensures forall l :: l in r ==> '\n' !in l
    decreases |s|
  {
    if s == [] then []
    else
      var i := IndexOf(s, '\n');
      if i == |s| then [s] else [s[..i]] + Lines(s[i + 1..])
  }

  /** The text the lines `ls` make when each is followed by exactly one '\n'. */
  function Unlines(ls: seq<string>): string {
    if ls == [] then "" else ls[0] + "\n" + Unlines(ls[1..])
  }

  /** `xs.join(sep)`. */
  function Join(xs: seq<string>, sep: char): string {
    if xs == [] then ""
    else if |xs| == 1 then xs[0]
    else xs[0] + [sep] + Join(xs[1..], sep)
  }

  /** `s.split(sep)`: the pieces between the occurrences of `sep`; there is always at least one. */
  function Split(s: string, sep: char): (r: seq<string>)
    ensures |r| >= 1
    ensures forall p :: p in r ==> sep !in p
    decreases |s|
  {
    var i := IndexOf(s, sep);
    if i == |s| then [s] else [s[..i]] + Split(s[i + 1..], sep)
  }

  lemma {:induction false} UnlinesAppend(a: seq<string>, b: seq<string>)
    ensures Unlines(a + b) == Unlines(a) + Unlines(b)
  {
    if a != [] {
      assert (a + b)[1..] == a[1..] + b;
      UnlinesAppend(a[1..], b);
    } else {
      assert a + b == b;
    }
  }

  /** Splitting joined lines gives the lines back, as long as none holds a '\n'. */
  lemma {:induction false} LinesOfUnlines(ls: seq<string>)
    requires forall l :: l in ls ==> '\n' !in l
    ensures Lines(Unlines(ls)) == ls
  {
    if ls != [] {
      var s := Unlines(ls);
      assert s == ls[0] + "\n" + Unlines(ls[1..]);
      var i := IndexOf(s, '\n');
      assert s[|ls[0]|] == '\n';
      assert '\n' !in ls[0] by { assert ls[0] in ls; }
      forall k | 0 <= k < |ls[0]| ensures s[k] != '\n' {
        assert s[k] == ls[0][k] && ls[0][k] in ls[0];
      }
      assert i == |ls[0]|;
      assert s[..i] == ls[0];
      assert s[i + 1..] == Unlines(ls[1..]);
      LinesOfUnlines(ls[1..]);
    }
  }

  /** A text that is empty or ends with '\n' is rebuilt exactly from its lines. */
  lemma {:induction false} UnlinesOfLines(s: string)
    requires s == [] || s[|s| - 1] == '\n'
    ensures Unlines(Lines(s)) == s
    decreases |s|
  {
    if s != [] {
      var i := IndexOf(s, '\n');
      assert i < |s|;
      var rest := s[i + 1..];
      assert rest == [] || rest[|rest| - 1] == '\n';
      calc {
        Unlines(Lines(s));
        Unlines([s[..i]] + Lines(rest));
      == { UnlinesCons(s[..i], Lines(rest)); }
        s[..i] + "\n" + Unlines(Lines(rest));
      == { UnlinesOfLines(rest); }
        s[..i] + "\n" + rest;
      == { assert s[i] == '\n'; }
        s;
      }
    }
  }

  /** The text of a line followed by more lines. */
  lemma UnlinesCons(l: string, ls: seq<string>)
    ensures Unlines([l] + ls) == l + "\n" + Unlines(ls)
  {
    assert ([l] + ls)[1..] == ls;
  }

  /** `split` undoes `join`, when no piece contains the separator. */
  lemma {:induction false} SplitOfJoin(xs: seq<string>, sep: char)
    requires xs != []
    requires forall x :: x in xs ==> sep !in x
    ensures Split(Join(xs, sep), sep) == xs
  {
    var s := Join(xs, sep);
    var i := IndexOf(s, sep);
    if |xs| == 1 {
      assert sep !in xs[0];
      assert i == |s|;
    } else {
      assert s == xs[0] + [sep] + Join(xs[1..], sep);
      assert s[|xs[0]|] == sep;
      assert sep !in xs[0] by { assert xs[0] in xs; }
      forall k | 0 <= k < |xs[0]| ensures s[k] != sep {
        assert s[k] == xs[0][k] && xs[0][k] in xs[0];
      }
      assert i == |xs[0]|;
      assert s[..i] == xs[0];
      assert s[i + 1..] == Join(xs[1..], sep);
      SplitOfJoin(xs[1..], sep);
    }
  }

  /** `join` undoes `split`. */
  lemma {:induction false} JoinOfSplit(s: string, sep: char)
    ensures Join(Split(s, sep), sep) == s
    decreases |s|
  {
    var i := IndexOf(s, sep);
    if i < |s| {
      var rest := Split(s[i + 1..], sep);
      assert Split(s, sep) == [s[..i]] + rest;
      assert ([s[..i]] + rest)[1..] == rest;
      JoinOfSplit(s[i + 1..], sep);
      assert Join(Split(s, sep), sep) == s[..i] + [sep] + Join(rest, sep);
      assert s == s[..i] + [sep] + s[i + 1..];
    } else {
      assert Split(s, sep) == [s];
    }
  }

  /** Joining one more piece adds the separator and the piece at the end. */
  lemma {:induction false} JoinSnoc(xs: seq<string>, y: string, sep: char)
    requires xs != []
    ensures Join(xs + [y], sep) == Join(xs, sep) + [sep] + y
  {
    if |xs| == 1 {
      assert (xs + [y])[1..] == [y];
    } else {
      assert (xs + [y])[1..] == xs[1..] + [y];
      JoinSnoc(xs[1..], y, sep);
    }
  }
}
