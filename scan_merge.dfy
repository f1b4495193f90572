/** `merge_outputs` of src/scan.rs: the refreshed document, with every line outside console
    blocks taken from the annotation and every console block taken from the scripts' output. */
module Merging {
  import opened Wrappers
  import opened Text
  import opened Classifier
  import opened OutputRemoval
  import opened CommandBuilder

  /** The closing fence that ends a block in the output. */
  const Fence: string := "```"

  /** How many output lines a console block takes: up to and including the first line that is
      exactly "```", or all of them when there is none. */
  function BlockLen(outs: seq<string>): (n: nat)
    ensures n <= |outs|
    ensures forall k :: 0 <= k && k + 1 < n ==> outs[k] != Fence
    ensures n == |outs| || (n > 0 && outs[n - 1] == Fence)
    ensures outs != [] ==> n > 0
  {
    if outs == [] then 0
    else if outs[0] == Fence then 1
    else 1 + BlockLen(outs[1..])
  }

  /** A result with `p` put in front of its text. */
  function Prefixed(p: string, r: Result<string, ScanError>): Result<string, ScanError> {
    match r
    case Ok(v) => Ok(p + v)
    case Err(e) => Err(e)
  }

  /** `merge_outputs` over the output lines `outs`: a header needs a next output line starting
      with "```" (otherwise the assertion panics) and takes its block from the output; lines
      outside console blocks are copied; every other line is dropped. */
  function Merge(ann: seq<Line>, outs: seq<string>): Result<string, ScanError>
    decreases |ann|
  {
    if ann == [] then Ok("")
    else
      var x := ann[0];
      if Opens(x.attr) then
        if outs == [] || !StartsWith(outs[0], Fence) then Err(Panicked)
        else
          var n := BlockLen(outs);
          Prefixed(Unlines(outs[..n]), Merge(ann[1..], outs[n..]))
      else if OutsideConsole(x.attr) then Prefixed(x.text + "\n", Merge(ann[1..], outs))
      else Merge(ann[1..], outs)
  }

  /** `merge_outputs`, reading the output with a cursor. */
  method MergeOutputs(ann: seq<Line>, outputs: string) returns (r: Result<string, ScanError>)
    ensures r == Merge(ann, Lines(outputs))
  {
    var outs := Lines(outputs);
    var pos := 0;
    var buf := "";
    assert ann[0..] == ann && outs[0..] == outs;
    PrefixedNothing(Merge(ann, outs));
    for i := 0 to |ann|
      invariant pos <= |outs|
      invariant Merge(ann, outs) == Prefixed(buf, Merge(ann[i..], outs[pos..]))
    {
      ghost var rest := outs[pos..];
      MergeUnfold(ann, i, rest);
      var attr := ann[i].attr;
      if Opens(attr) {
        if pos == |outs| || !StartsWith(outs[pos], Fence) {
          assert rest == [] || rest[0] == outs[pos];
          assert Merge(ann[i..], rest) == Err(Panicked);
          assert Merge(ann, outs) == Err(Panicked);
          return Err(Panicked);
        }
        ghost var before := buf;
        ghost var from := pos;
        buf, pos := CopyBlock(outs, pos, buf);
        assert rest[..BlockLen(rest)] == outs[from..pos];
        assert rest[BlockLen(rest)..] == outs[pos..];
        PrefixedTwice(before, Unlines(outs[from..pos]), Merge(ann[i + 1..], outs[pos..]));
      } else if OutsideConsole(attr) {
        PrefixedTwice(buf, ann[i].text + "\n", Merge(ann[i + 1..], outs[pos..]));
        buf := buf + (ann[i].text + "\n");
      }
    }
    assert ann[|ann|..] == [];
    assert Merge(ann, outs) == Ok(buf + "");
    assert buf + "" == buf;
    r := Ok(buf);
  }

  /** One step of `Merge` at position `i` of the annotation. */
  lemma MergeUnfold(ann: seq<Line>, i: nat, outs: seq<string>)
    requires i < |ann|
    ensures Merge(ann[i..], outs) ==
      var x := ann[i];
      if Opens(x.attr) then
        if outs == [] || !StartsWith(outs[0], Fence) then Err(Panicked)
        else Prefixed(Unlines(outs[..BlockLen(outs)]), Merge(ann[i + 1..], outs[BlockLen(outs)..]))
      else if OutsideConsole(x.attr) then Prefixed(x.text + "\n", Merge(ann[i + 1..], outs))
      else Merge(ann[i + 1..], outs)
  {
    assert ann[i..][0] == ann[i];
    assert ann[i..][1..] == ann[i + 1..];
  }

  /** The inner loop of `merge_outputs`: copies the output lines of one console block, up to
      and including the closing fence. */
  method CopyBlock(outs: seq<string>, pos: nat, buf: string) returns (buf': string, pos': nat)
    requires pos < |outs|
    ensures pos' == pos + BlockLen(outs[pos..]) <= |outs|
    ensures buf' == buf + Unlines(outs[pos..pos'])
  {
    buf', pos' := buf, pos;
    assert outs[pos..pos] == [];
    while pos' < |outs|
      invariant pos <= pos' <= |outs|
      invariant forall k :: pos <= k < pos' ==> outs[k] != Fence
      invariant buf' == buf + Unlines(outs[pos..pos'])
    {
      var l := outs[pos'];
      UnlinesAppend(outs[pos..pos'], [l]);
      assert outs[pos..pos' + 1] == outs[pos..pos'] + [l];
      buf' := buf' + l + "\n";
      pos' := pos' + 1;
      if l == Fence {
        BlockEnds(outs[pos..], pos' - pos);
        return;
      }
    }
    BlockEnds(outs[pos..], pos' - pos);
  }

  /** A block ends after the first fence, or at the end of the output. */
  lemma BlockEnds(outs: seq<string>, m: nat)
    requires 0 < m <= |outs|
    requires forall k :: 0 <= k && k + 1 < m ==> outs[k] != Fence
    requires m == |outs| || outs[m - 1] == Fence
    requires m < |outs| || outs[m - 1] == Fence || forall k :: 0 <= k < m ==> outs[k] != Fence
    ensures BlockLen(outs) == m
  {
  }

  lemma PrefixedTwice(a: string, b: string, r: Result<string, ScanError>)
    ensures Prefixed(a, Prefixed(b, r)) == Prefixed(a + b, r)
  {
    if r.Ok? {
      assert a + (b + r.value) == a + b + r.value;
    }
  }

  lemma PrefixedNothing(r: Result<string, ScanError>)
    ensures Prefixed("", r) == r
  {
    if r.Ok? {
      assert "" + r.value == r.value;
    }
  }

  /** Lines between a header and its footer, and footers, contribute nothing to the merge. */
  lemma {:induction false} MergeSkip(pre: seq<Line>, post: seq<Line>, outs: seq<string>)
    requires forall l :: l in pre ==> InBody(l.attr) || l.attr == ConsoleFooter
    ensures Merge(pre + post, outs) == Merge(post, outs)
    decreases |pre|
  {
    if pre != [] {
      assert (pre + post)[0] == pre[0];
      assert (pre + post)[1..] == pre[1..] + post;
      assert forall l :: l in pre[1..] ==> l in pre;
      MergeSkip(pre[1..], post, outs);
    } else {
      assert pre + post == post;
    }
  }

  /** One step of `Merge` at a first line `x`. */
  lemma MergeCons(x: Line, rest: seq<Line>, outs: seq<string>)
    ensures Merge([x] + rest, outs) ==
      if Opens(x.attr) then
        if outs == [] || !StartsWith(outs[0], Fence) then Err(Panicked)
        else Prefixed(Unlines(outs[..BlockLen(outs)]), Merge(rest, outs[BlockLen(outs)..]))
      else if OutsideConsole(x.attr) then Prefixed(x.text + "\n", Merge(rest, outs))
      else Merge(rest, outs)
  {
    assert ([x] + rest)[0] == x;
    assert ([x] + rest)[1..] == rest;
  }

  lemma KeptCons(x: Line, rest: seq<Line>)
    ensures Kept([x] + rest) == (if x.attr == ConsoleOutput then [] else [x]) + Kept(rest)
  {
    KeptAppend([x], rest);
    assert [x][..0] == [];
  }

  /** The merge does not look at output lines: dropping them first changes nothing. */
  lemma {:induction false} MergeOfKept(ann: seq<Line>, outs: seq<string>)
    ensures Merge(Kept(ann), outs) == Merge(ann, outs)
    decreases |ann|
  {
    if ann != [] {
      var x := ann[0];
      var rest := ann[1..];
      assert ann == [x] + rest;
      KeptCons(x, rest);
      MergeCons(x, rest, outs);
      if x.attr != ConsoleOutput {
        MergeCons(x, Kept(rest), outs);
        if Opens(x.attr) && outs != [] && StartsWith(outs[0], Fence) {
          MergeOfKept(rest, outs[BlockLen(outs)..]);
        } else {
          MergeOfKept(rest, outs);
        }
      } else {
        assert Kept(ann) == Kept(rest);
        MergeOfKept(rest, outs);
      }
    }
  }

  /** The merge only fails on the panic of its assertion. */
  lemma {:induction false} MergeFailsByPanic(ann: seq<Line>, outs: seq<string>)
    ensures Merge(ann, outs).Err? ==> Merge(ann, outs).error == Panicked
    decreases |ann|
  {
    if ann != [] {
      var x := ann[0];
      if Opens(x.attr) && outs != [] && StartsWith(outs[0], Fence) {
        MergeFailsByPanic(ann[1..], outs[BlockLen(outs)..]);
      } else if !Opens(x.attr) {
        MergeFailsByPanic(ann[1..], outs);
      }
    }
  }

  /** Footers are exactly "```" and no echoed line inside a block is: the fences are where the
      merge looks for them. */
  ghost predicate ExactFences(ann: seq<Line>) {
    forall l :: l in ann ==>
      (l.attr == ConsoleFooter ==> l.text == Fence) &&
      (l.attr == ConsoleCommand || l.attr == ConsoleCommandEnd || l.attr == ConsoleComment ==> l.text != Fence)
  }

  /** How many lines from the start of `rest` lie inside the block. */
  function BodyLen(rest: seq<Line>): (j: nat)
    ensures j <= |rest|
    ensures forall k :: 0 <= k < j ==> InBody(rest[k].attr)
    ensures j < |rest| ==> !InBody(rest[j].attr)
  {
    if rest == [] || !InBody(rest[0].attr) then 0 else 1 + BodyLen(rest[1..])
  }

  /** A header and the block lines after it echo the texts they keep, and none of those is a
      fence. */
  lemma BlockEchoes(x: Line, body: seq<Line>)
    requires Opens(x.attr) && x.text != Fence
    requires forall l :: l in body ==> InBody(l.attr)
    requires ExactFences(body)
    ensures EchoedTexts([x] + body) == [x.text] + Texts(Kept(body))
    ensures Kept([x] + body) == [x] + Kept(body)
    ensures forall k :: 0 <= k < |[x.text] + Texts(Kept(body))| ==> ([x.text] + Texts(Kept(body)))[k] != Fence
  {
    EchoedTextsAppend([x], body);
    KeptCons(x, body);
    assert [x][..0] == [];
    EchoedBody(body);
    KeptMembers(body);
    var kb := Texts(Kept(body));
    forall k | 0 <= k < |[x.text] + kb| ensures ([x.text] + kb)[k] != Fence {
      if k > 0 {
        assert Kept(body)[k - 1] in Kept(body);
      }
    }
  }

  /** The conditions of `MergeEchoes` hold of every stretch of lines. */
  lemma FencesOfSlice(ann: seq<Line>, i: nat, j: nat)
    requires i <= j <= |ann|
    requires FencedHeaders(ann) && ExactFences(ann)
    ensures FencedHeaders(ann[i..j]) && ExactFences(ann[i..j])
  {
    forall l | l in ann[i..j] ensures l in ann {
      var k :| i <= k < j && ann[k] == l;
      assert ann[k] in ann;
    }
  }

  /** A line outside console blocks in front of a document that merges back. */
  lemma MergeOutside(x: Line, rest: seq<Line>)
    requires OutsideConsole(x.attr)
    requires Merge(rest, EchoedTexts(rest)) == Ok(Unlines(Texts(Kept(rest))))
    ensures Merge([x] + rest, EchoedTexts([x] + rest)) == Ok(Unlines(Texts(Kept([x] + rest))))
  {
    assert EchoedTexts([x] + rest) == EchoedTexts(rest) by {
      EchoedTextsAppend([x], rest);
      assert [x][..0] == [];
    }
    KeptCons(x, rest);
    MergeCons(x, rest, EchoedTexts(rest));
    TextsAppend([x], Kept(rest));
    assert ([x.text] + Texts(Kept(rest)))[1..] == Texts(Kept(rest));
  }

  /** The first line after its start and the rest, chained from there. */
  lemma ChainedTail(ann: seq<Line>, start: Attr)
    requires Chained(ann, start) && ann != []
    ensures Step(start, ann[0].attr) && Chained(ann[1..], ann[0].attr)
  {
    assert ann == [ann[0]] + ann[1..];
    ChainedSplit([ann[0]], ann[1..], start);
    ChainedStep(ann, start, 0);
  }

  /** A header opens a block of lines inside it, up to its footer at `j` or to the end. */
  lemma BlockSplit(ann: seq<Line>, start: Attr) returns (j: nat)
    requires Chained(ann, start) && ann != [] && Opens(ann[0].attr)
    ensures 1 <= j <= |ann|
    ensures forall l :: l in ann[1..j] ==> InBody(l.attr)
    ensures j < |ann| ==> ann[j].attr == ConsoleFooter && Chained(ann[j + 1..], ConsoleFooter)
  {
    var rest := ann[1..];
    ChainedTail(ann, start);
    var n := BodyLen(rest);
    j := n + 1;
    assert ann[1..j] == rest[..n];
    if n < |rest| {
      assert ann[j].attr == ConsoleFooter by {
        ChainedStep(rest, ann[0].attr, n);
      }
      assert Chained(ann[j + 1..], ConsoleFooter) by {
        ChainedAfter(rest, ann[0].attr, n);
        assert ann[j + 1..] == rest[n + 1..];
      }
    }
  }

  /** The lines after position `n` are chained from the label at `n`. */
  lemma ChainedAfter(ann: seq<Line>, start: Attr, n: nat)
    requires Chained(ann, start) && n < |ann|
    ensures Chained(ann[n + 1..], ann[n].attr)
  {
    assert ann == ann[..n + 1] + ann[n + 1..];
    ChainedSplit(ann[..n + 1], ann[n + 1..], start);
  }

  /** With a quiet runner the output is the echoed lines; merging it gives the annotation back,
      without its output lines. */
  lemma {:induction false} MergeEchoes(ann: seq<Line>, start: Attr)
    requires ParserOf(start) == BaseTextParser || ParserOf(start) == OthersParser
    requires Chained(ann, start) && FencedHeaders(ann) && ExactFences(ann)
    ensures Merge(ann, EchoedTexts(ann)) == Ok(Unlines(Texts(Kept(ann))))
    decreases |ann|, 1
  {
    if ann != [] && !Opens(ann[0].attr) {
      MergeEchoesOutside(ann, start);
    } else if ann != [] {
      MergeEchoesBlock(ann, start);
    }
  }

  /** `MergeEchoes` at a first line outside console blocks. */
  lemma {:induction false} MergeEchoesOutside(ann: seq<Line>, start: Attr)
    requires ParserOf(start) == BaseTextParser || ParserOf(start) == OthersParser
    requires Chained(ann, start) && FencedHeaders(ann) && ExactFences(ann)
    requires ann != [] && !Opens(ann[0].attr)
    ensures Merge(ann, EchoedTexts(ann)) == Ok(Unlines(Texts(Kept(ann))))
    decreases |ann|, 0
  {
    ChainedTail(ann, start);
    FencesOfSlice(ann, 1, |ann|);
    MergeEchoes(ann[1..], ann[0].attr);
    MergeOutside(ann[0], ann[1..]);
    assert ann == [ann[0]] + ann[1..];
  }

  /** `MergeEchoes` at a header. */
  lemma {:induction false} MergeEchoesBlock(ann: seq<Line>, start: Attr)
    requires Chained(ann, start) && FencedHeaders(ann) && ExactFences(ann)
    requires ann != [] && Opens(ann[0].attr)
    ensures Merge(ann, EchoedTexts(ann)) == Ok(Unlines(Texts(Kept(ann))))
    decreases |ann|, 0
  {
    var j := BlockSplit(ann, start);
    if j == |ann| {
      MergeOpenBlock(ann);
    } else {
      var x, body, f, after := ann[0], ann[1..j], ann[j], ann[j + 1..];
      FencesOfSlice(ann, j + 1, |ann|);
      MergeEchoes(after, ConsoleFooter);
      assert StartsWith(x.text, Fence) && x.text != Fence && f.text == Fence && ExactFences(body) by {
        assert ann[0] in ann && ann[j] in ann;
        FencesOfSlice(ann, 1, j);
      }
      MergeClosedBlock(x, body, f, after);
      SplitAround(ann, j);
    }
  }

  /** A header whose block runs to the end of the document. */
  lemma MergeOpenBlock(ann: seq<Line>)
    requires ann != [] && Opens(ann[0].attr)
    requires forall l :: l in ann[1..] ==> InBody(l.attr)
    requires FencedHeaders(ann) && ExactFences(ann)
    ensures Merge(ann, EchoedTexts(ann)) == Ok(Unlines(Texts(Kept(ann))))
  {
    var x := ann[0];
    var body := ann[1..];
    assert ann == [x] + body;
    assert x in ann;
    FencesOfSlice(ann, 1, |ann|);
    BlockEchoes(x, body);
    OpenBlockMerge(x, body, [x.text] + Texts(Kept(body)));
    TextsAppend([x], Kept(body));
  }

  /** A header whose output holds no closing fence takes all of it. */
  lemma OpenBlockMerge(x: Line, body: seq<Line>, outs: seq<string>)
    requires Opens(x.attr) && outs != [] && StartsWith(outs[0], Fence)
    requires forall k :: 0 <= k < |outs| ==> outs[k] != Fence
    requires forall l :: l in body ==> InBody(l.attr)
    ensures Merge([x] + body, outs) == Ok(Unlines(outs))
  {
    BlockEnds(outs, |outs|);
    assert outs[..|outs|] == outs && outs[|outs|..] == [];
    MergeCons(x, body, outs);
    MergeSkip(body, [], []);
    assert body + [] == body;
    AppendEmpty(Unlines(outs));
  }

  /** A header, its block, its footer `f`, and the lines after it. */
  lemma MergeClosedBlock(x: Line, body: seq<Line>, f: Line, after: seq<Line>)
    requires Opens(x.attr) && StartsWith(x.text, Fence) && x.text != Fence
    requires forall l :: l in body ==> InBody(l.attr)
    requires ExactFences(body)
    requires f.attr == ConsoleFooter && f.text == Fence
    requires Merge(after, EchoedTexts(after)) == Ok(Unlines(Texts(Kept(after))))
    ensures var ann := [x] + (body + [f] + after);
      Merge(ann, EchoedTexts(ann)) == Ok(Unlines(Texts(Kept(ann))))
  {
    var ann := [x] + (body + [f] + after);
    BlockEchoes(x, body);
    var blk := [x.text] + Texts(Kept(body));
    var tail := EchoedTexts(after);
    var outs := blk + [Fence] + tail;
    calc {
      Merge(ann, EchoedTexts(ann));
    == { ClosedBlockEchoes(x, body, f, after); }
      Merge(ann, outs);
    == { FenceEndsBlock(blk, tail); MergeCons(x, body + [f] + after, outs); }
      Prefixed(Unlines(blk + [Fence]), Merge(body + [f] + after, tail));
    == { assert forall l :: l in body + [f] ==> l in body || l == f;
         MergeSkip(body + [f], after, tail); }
      Prefixed(Unlines(blk + [Fence]), Merge(after, tail));
    == { UnlinesAppend(blk + [Fence], Texts(Kept(after))); }
      Ok(Unlines(blk + [Fence] + Texts(Kept(after))));
    == { ClosedBlockKept(x, body, f, after); }
      Ok(Unlines(Texts(Kept(ann))));
    }
  }

  /** An annotation cut around its line `j`. */
  lemma SplitAround(ann: seq<Line>, j: nat)
    requires 1 <= j < |ann|
    ensures ann == [ann[0]] + (ann[1..j] + [ann[j]] + ann[j + 1..])
  {
    assert ann[..j] == [ann[0]] + ann[1..j];
    assert ann[j..] == [ann[j]] + ann[j + 1..];
    assert ann == ann[..j] + ann[j..];
  }

  /** The output of a block that ends with its fence `Fence`, followed by more output. */
  lemma FenceEndsBlock(blk: seq<string>, tail: seq<string>)
    requires blk != [] && StartsWith(blk[0], Fence)
    requires forall k :: 0 <= k < |blk| ==> blk[k] != Fence
    ensures var outs := blk + [Fence] + tail;
      outs != [] && StartsWith(outs[0], Fence) && BlockLen(outs) == |blk| + 1 &&
      outs[..BlockLen(outs)] == blk + [Fence] && outs[BlockLen(outs)..] == tail
  {
    var outs := blk + [Fence] + tail;
    assert forall k :: 0 <= k < |blk| ==> outs[k] == blk[k];
    BlockEnds(outs, |blk| + 1);
    assert outs[..|blk| + 1] == blk + [Fence];
    assert outs[|blk| + 1..] == tail;
  }

  /** The echoed lines of a closed block with its fence and what follows it. */
  lemma ClosedBlockEchoes(x: Line, body: seq<Line>, f: Line, after: seq<Line>)
    requires f.attr == ConsoleFooter && f.text == Fence
    requires EchoedTexts([x] + body) == [x.text] + Texts(Kept(body))
    ensures EchoedTexts([x] + (body + [f] + after)) == [x.text] + Texts(Kept(body)) + [Fence] + EchoedTexts(after)
  {
    assert [x] + (body + [f] + after) == ([x] + body) + [f] + after;
    EchoedTextsAppend([x] + body, [f]);
    EchoedTextsAppend([x] + body + [f], after);
    assert [f][..0] == [];
  }

  /** The kept texts of a closed block with its fence and what follows it. */
  lemma ClosedBlockKept(x: Line, body: seq<Line>, f: Line, after: seq<Line>)
    requires f.attr == ConsoleFooter && f.text == Fence
    requires Kept([x] + body) == [x] + Kept(body)
    ensures Texts(Kept([x] + (body + [f] + after))) == [x.text] + Texts(Kept(body)) + [Fence] + Texts(Kept(after))
  {
    KeptClosed(x, body, f, after);
    TextsClosed(x, Kept(body), f, Kept(after));
  }

  /** Removing output keeps the header and the fence of a closed block. */
  lemma KeptClosed(x: Line, body: seq<Line>, f: Line, after: seq<Line>)
    requires f.attr == ConsoleFooter
    requires Kept([x] + body) == [x] + Kept(body)
    ensures Kept([x] + (body + [f] + after)) == [x] + Kept(body) + [f] + Kept(after)
  {
    var head := [x] + body;
    calc {
      Kept([x] + (body + [f] + after));
    == { Regroup([x], body, [f], after); }
      Kept((head + [f]) + after);
    == { KeptAppend(head + [f], after); }
      Kept(head + [f]) + Kept(after);
    == { KeptSnoc(head, f); }
      [x] + Kept(body) + [f] + Kept(after);
    }
  }

  /** A line that is not output is kept. */
  lemma KeptSnoc(ann: seq<Line>, x: Line)
    requires x.attr != ConsoleOutput
    ensures Kept(ann + [x]) == Kept(ann) + [x]
  {
    SnocParts(ann, x);
  }

  /** The texts of a header, a body, a fence and the rest, part by part. */
  lemma TextsClosed(x: Line, kb: seq<Line>, f: Line, ka: seq<Line>)
    ensures Texts([x] + kb + [f] + ka) == [x.text] + Texts(kb) + [f.text] + Texts(ka)
  {
    TextsAppend([x] + kb + [f], ka);
    TextsAppend([x] + kb, [f]);
    TextsAppend([x], kb);
  }
}
