/** `remove_existing_command_outputs` of src/scan.rs: the document without the output
    lines a previous run left in its console blocks. */
module OutputRemoval {
  import opened Text
  import opened Classifier

  /** The annotated lines that are not command output, in order. */
  function Kept(ann: seq<Line>): (r: seq<Line>)
    ensures |r| <= |ann|
  {
    if ann == [] then []
    else
      var prev := Kept(ann[..|ann| - 1]);
      var last := ann[|ann| - 1];
      if last.attr == ConsoleOutput then prev else prev + [last]
  }

  /** The kept lines are exactly the lines of `ann` that are not output. */
  lemma {:induction false} KeptMembers(ann: seq<Line>)
    ensures forall x :: x in Kept(ann) <==> x in ann && x.attr != ConsoleOutput
  {
    if ann != [] {
      var init := ann[..|ann| - 1];
      KeptMembers(init);
      assert ann == init + [ann[|ann| - 1]];
    }
  }

  /** Filtering two annotations laid end to end. */
  lemma {:induction false} KeptAppend(a: seq<Line>, b: seq<Line>)
    ensures Kept(a + b) == Kept(a) + Kept(b)
  {
    if b != [] {
      var b' := b[..|b| - 1];
      assert (a + b)[..|a + b| - 1] == a + b';
      KeptAppend(a, b');
    } else {
      assert a + b == a;
    }
  }

  /** The document with every output line dropped and every other line ended by '\n'. */
  function Strip(doc: string): string {
    Unlines(Texts(Kept(Annotate(Lines(doc), BaseText))))
  }

  /** `remove_existing_command_outputs`, which never fails. */
  method RemoveExistingCommandOutputs(doc: string) returns (r: string)
    ensures r == Strip(doc)
  {
    var ann := AnnotateLines(doc);
    var buf := "";
    for i := 0 to |ann|
      invariant buf == Unlines(Texts(Kept(ann[..i])))
    {
      StripStep(ann, i);
      if ann[i].attr == ConsoleOutput {
        continue;
      }
      buf := buf + ann[i].text + "\n";
    }
    assert ann[..|ann|] == ann;
    r := buf;
  }

  /** One more line adds nothing to the stripped text when it is output, and itself and a
      '\n' otherwise. */
  lemma StripStep(ann: seq<Line>, i: nat)
    requires i < |ann|
    ensures var before := Unlines(Texts(Kept(ann[..i])));
            Unlines(Texts(Kept(ann[..i + 1])))
            == if ann[i].attr == ConsoleOutput then before else before + ann[i].text + "\n"
  {
    PrefixSnoc(ann, i);
    var k := Kept(ann[..i]);
    SnocParts(ann[..i], ann[i]);
    if ann[i].attr != ConsoleOutput {
      assert Kept(ann[..i + 1]) == k + [ann[i]];
      TextsAppend(k, [ann[i]]);
      assert Texts([ann[i]]) == [ann[i].text];
      UnlinesAppend(Texts(k), [ann[i].text]);
      assert Unlines([ann[i].text]) == ann[i].text + "\n" + "";
      AppendEmpty(ann[i].text + "\n");
      AppendAssoc(Unlines(Texts(k)), ann[i].text, "\n");
    }
  }

  /** A document without output lines keeps all of its lines. */
  lemma {:induction false} KeptWithoutOutput(ann: seq<Line>)
    requires forall i :: 0 <= i < |ann| ==> ann[i].attr != ConsoleOutput
    ensures Kept(ann) == ann
  {
    if ann != [] {
      KeptWithoutOutput(ann[..|ann| - 1]);
    }
  }

  /** Dropping output lines does not change how the remaining lines are labelled: an output
      line is read by the command parser and leaves the command parser in charge. */
  lemma {:induction false} KeptReannotates(lines: seq<string>, start: Attr)
    ensures var ann := Annotate(lines, start);
            && Annotate(Texts(Kept(ann)), start) == Kept(ann)
            && ParserOf(StateAfter(Kept(ann), start)) == ParserOf(StateAfter(ann, start))
  {
    if lines != [] {
      var n := |lines| - 1;
      var init := lines[..n];
      assert lines == init + [lines[n]];
      KeptReannotates(init, start);
      AnnotateSnoc(init, lines[n], start);
      ReannotateStep(Annotate(init, start), lines[n], start);
    }
  }

  /** One more line keeps `KeptReannotates` going. */
  lemma ReannotateStep(prev: seq<Line>, x: string, start: Attr)
    requires Annotate(Texts(Kept(prev)), start) == Kept(prev)
    requires ParserOf(StateAfter(Kept(prev), start)) == ParserOf(StateAfter(prev, start))
    ensures var ann := prev + [Line(x, Next(StateAfter(prev, start), x))];
            && Annotate(Texts(Kept(ann)), start) == Kept(ann)
            && ParserOf(StateAfter(Kept(ann), start)) == ParserOf(StateAfter(ann, start))
  {
    var a := StateAfter(prev, start);
    var last := Line(x, Next(a, x));
    var ann := prev + [last];
    var kp := Kept(prev);
    SnocParts(prev, last);
    if last.attr == ConsoleOutput {
      assert Kept(ann) == kp;
      OutputFollowsCommandParser(a, x);
    } else {
      assert Kept(ann) == kp + [last];
      TextsAppend(kp, [last]);
      assert Texts(kp + [last]) == Texts(kp) + [x];
      AnnotateSnoc(Texts(kp), x, start);
      NextByParser(StateAfter(kp, start), a, x);
    }
  }

  /** The lines of a stripped document are the texts of the kept lines. */
  lemma StripLines(doc: string)
    ensures Lines(Strip(doc)) == Texts(Kept(Annotate(Lines(doc), BaseText)))
  {
    var kept := Kept(Annotate(Lines(doc), BaseText));
    forall l | l in Texts(kept)
      ensures '\n' !in l
    {
      var i :| 0 <= i < |kept| && Texts(kept)[i] == l;
      KeptMembers(Annotate(Lines(doc), BaseText));
      assert kept[i] in kept;
      var j :| 0 <= j < |Lines(doc)| && Annotate(Lines(doc), BaseText)[j] == kept[i];
      assert l == Lines(doc)[j] && Lines(doc)[j] in Lines(doc);
    }
    LinesOfUnlines(Texts(kept));
  }

  /** Stripping twice strips no more than stripping once. */
  lemma StripIdempotent(doc: string)
    ensures Strip(Strip(doc)) == Strip(doc)
  {
    var kept := Kept(Annotate(Lines(doc), BaseText));
    StripLines(doc);
    KeptReannotates(Lines(doc), BaseText);
    assert Annotate(Lines(Strip(doc)), BaseText) == kept;
    assert forall i :: 0 <= i < |kept| ==> kept[i].attr != ConsoleOutput by {
      KeptMembers(Annotate(Lines(doc), BaseText));
      forall i | 0 <= i < |kept| ensures kept[i].attr != ConsoleOutput {
        assert kept[i] in kept;
      }
    }
    KeptWithoutOutput(kept);
  }

  /** A document whose lines all end in '\n' and that holds no output line is left alone. */
  lemma StripWithoutOutput(doc: string)
    requires doc == [] || doc[|doc| - 1] == '\n'
    requires forall l :: l in Annotate(Lines(doc), BaseText) ==> l.attr != ConsoleOutput
    ensures Strip(doc) == doc
  {
    var lines := Lines(doc);
    var ann := Annotate(lines, BaseText);
    forall i | 0 <= i < |ann|
      ensures ann[i].attr != ConsoleOutput
    {
      assert ann[i] in ann;
    }
    KeptWithoutOutput(ann);
    TextsOfAnnotate(lines, BaseText);
    assert Strip(doc) == Unlines(lines);
    UnlinesOfLines(doc);
  }
}
