/** What a service's output becomes in the log, for every way it is cut into chunks. */
module LineTheorems {
  import opened LineWriter

  /** What the writer has logged and what it carries. */
  datatype Log = Log(lines: seq<string>, buf: string)

  function Fed(chunks: seq<string>): Log {
    if chunks == [] then Log([], "")
    else
      var before := Fed(chunks[..|chunks| - 1]);
      var data := before.buf + chunks[|chunks| - 1];
      Log(before.lines + Lines(data), Rest(data))
  }

  function Flushed(log: Log): seq<string> {
    log.lines + if log.buf == "" then [] else [log.buf]
  }

  function Whole(chunks: seq<string>): string {
    if chunks == [] then "" else Whole(chunks[..|chunks| - 1]) + chunks[|chunks| - 1]
  }

  /** A chunk boundary between a CR and a LF. */
  predicate Split(x: string, y: string) {
    x != "" && y != "" && x[|x| - 1] == '\r' && y[0] == '\n'
  }

  function Splits(chunks: seq<string>): nat {
    if chunks == [] then 0
    else
      var before := chunks[..|chunks| - 1];
      Splits(before) + if Split(Whole(before), chunks[|chunks| - 1]) then 1 else 0
  }

  function NonEmpty(lines: seq<string>): seq<string> {
    if lines == [] then []
    else NonEmpty(lines[..|lines| - 1]) + if lines[|lines| - 1] == "" then [] else [lines[|lines| - 1]]
  }

  /** A command's output, written chunk by chunk and flushed at its end. */
  method LogOutput(chunks: seq<string>) returns (lines: seq<string>)
    ensures lines == Flushed(Fed(chunks))
  {
    var w := new ServiceLoggingWriter();
    for i := 0 to |chunks|
      invariant w.Valid() && fresh(w) && w.logged == Fed(chunks[..i]).lines && w.buf == Fed(chunks[..i]).buf
    {
      assert chunks[..i + 1][..i] == chunks[..i];
      var _ := w.Write(chunks[i]);
    }
    assert chunks[..|chunks|] == chunks;
    w.FinalFlush();
    lines := w.logged;
  }

  // ---------------------------------------------------------------- one boundary

  /** Appending after a first terminator that the appended text does not extend. */
  lemma CutStays(x: string, y: string)
    requires Cut(x) < |x|
    ensures Cut(x + y) == Cut(x)
  {
    BeforeCut(x);
    CutIs(x + y, Cut(x));
  }

  lemma Advance(x: string, y: string)
    requires Cut(x) < |x| && !(Consumed(x) == |x| && Split(x, y))
    ensures Cut(x + y) == Cut(x) && Consumed(x + y) == Consumed(x)
    ensures (x + y)[..Cut(x)] == x[..Cut(x)] && (x + y)[Consumed(x)..] == x[Consumed(x)..] + y
  {
    CutStays(x, y);
    hide Cut;
  }

  lemma LastOfTail(x: string, c: nat)
    requires c < |x|
    ensures |x[c..]| > 0 && x[c..][|x[c..]| - 1] == x[|x| - 1]
  {
  }

  lemma OneLine(x: string, y: string, lines: seq<string>, rest: string)
    requires Cut(x) < |x| && !(Consumed(x) == |x| && Split(x, y))
    requires Lines(x[Consumed(x)..] + y) == Lines(x[Consumed(x)..]) + lines && Rest(x[Consumed(x)..] + y) == rest
    ensures Lines(x + y) == Lines(x) + lines && Rest(x + y) == rest
  {
    hide *;
    Advance(x, y);
    FirstLine(x);
    FirstLine(x + y);
  }

  /** Unless a CRLF is split, splitting the carried rest and the next chunk continues the split. */
  lemma {:induction false} Append(x: string, y: string)
    requires !Split(x, y)
    ensures Lines(x + y) == Lines(x) + Lines(Rest(x) + y) && Rest(x + y) == Rest(Rest(x) + y)
    decreases |x|
  {
    if Cut(x) < |x| {
      hide Cut, Consumed, Lines, Rest;
      var c := Consumed(x);
      if c < |x| {
        LastOfTail(x, c);
      }
      Append(x[c..], y);
      FirstLine(x);
      OneLine(x, y, Lines(Rest(x) + y), Rest(Rest(x) + y));
    } else {
      LastPiece(x);
    }
  }

  /** A split CRLF counts as one terminator in the whole, and as two for the writer. */
  lemma {:induction false} AppendSplit(x: string, y: string)
    requires Split(x, y)
    ensures Rest(x) == "" && Lines(x + y) == Lines(x) + Lines(y[1..]) && Rest(x + y) == Rest(y[1..])
    decreases |x|
  {
    hide Cut, Consumed, Lines, Rest;
    var c := Consumed(x);
    if c == |x| {
      CutStays(x, y);
      assert Rest(x) == "" && Lines(x + y) == Lines(x) + Lines(y[1..]) && Rest(x + y) == Rest(y[1..]) by {
        ConsumedJoined(x, y);
        hide *;
        SameHead(x, y, Cut(x));
        FirstLine(x);
        FirstLine(x + y);
        assert x[|x|..] == "";
        NothingLeft();
      }
    } else {
      LastOfTail(x, c);
      AppendSplit(x[c..], y);
      FirstLine(x);
      OneLine(x, y, Lines(y[1..]), Rest(y[1..]));
    }
  }

  lemma ConsumedJoined(x: string, y: string)
    requires Split(x, y) && Cut(x) < |x| && Consumed(x) == |x| && Cut(x + y) == Cut(x)
    ensures Consumed(x + y) == |x| + 1
  {
    hide Cut;
  }

  lemma SameHead(x: string, y: string, k: nat)
    requires k <= |x| && y != ""
    ensures (x + y)[..k] == x[..k] && (x + y)[|x| + 1..] == y[1..]
  {
  }

  lemma NothingLeft()
    ensures Lines("") == [] && Rest("") == ""
  {
  }

  lemma LeadingLineFeed(y: string)
    requires y != "" && y[0] == '\n'
    ensures Lines(y) == [""] + Lines(y[1..]) && Rest(y) == Rest(y[1..])
  {
    assert Cut(y) == 0 && Consumed(y) == 1;
    assert y[..0] == "";
  }

  // ---------------------------------------------------------------- any chunks

  lemma {:induction false} NonEmptyPlus(a: seq<string>, b: seq<string>)
    ensures NonEmpty(a + b) == NonEmpty(a) + NonEmpty(b)
  {
    if b == [] {
      assert a + b == a;
    } else {
      var n := |b| - 1;
      assert (a + b)[..|a + b| - 1] == a + b[..n];
      NonEmptyPlus(a, b[..n]);
    }
  }

  /** The carried buffer is the rest of the whole stream; the lines are those of the whole stream
      with one empty line more for every split CRLF. */
  lemma {:induction false} FedIsSplit(chunks: seq<string>)
    ensures Fed(chunks).buf == Rest(Whole(chunks))
    ensures NonEmpty(Fed(chunks).lines) == NonEmpty(Lines(Whole(chunks)))
    ensures |Fed(chunks).lines| == |Lines(Whole(chunks))| + Splits(chunks)
    ensures Splits(chunks) == 0 ==> Fed(chunks).lines == Lines(Whole(chunks))
  {
    if chunks != [] {
      var before, y := chunks[..|chunks| - 1], chunks[|chunks| - 1];
      FedIsSplit(before);
      OneChunk(Whole(before), y, Fed(before).lines);
    }
  }

  lemma OneChunk(x: string, y: string, lines: seq<string>)
    requires NonEmpty(lines) == NonEmpty(Lines(x))
    ensures Rest(Rest(x) + y) == Rest(x + y)
    ensures NonEmpty(lines + Lines(Rest(x) + y)) == NonEmpty(Lines(x + y))
    ensures |Lines(x)| + |Lines(Rest(x) + y)| == |Lines(x + y)| + if Split(x, y) then 1 else 0
    ensures !Split(x, y) ==> Lines(x + y) == Lines(x) + Lines(Rest(x) + y)
  {
    hide Cut, Lines, Rest, NonEmpty;
    NonEmptyPlus(lines, Lines(Rest(x) + y));
    if Split(x, y) {
      AppendSplit(x, y);
      LeadingLineFeed(y);
      assert Rest(x) + y == y;
      NonEmptyPlus(Lines(x), Lines(y[1..]));
      EmptyLineVanishes(Lines(y[1..]));
    } else {
      Append(x, y);
      NonEmptyPlus(Lines(x), Lines(Rest(x) + y));
    }
  }

  lemma EmptyLineVanishes(lines: seq<string>)
    ensures NonEmpty([""] + lines) == NonEmpty(lines)
  {
    NonEmptyPlus([""], lines);
    assert [""][..0] == [];
  }

  /** The non-empty lines and the rest of a text are its runs. */
  lemma {:induction false} RunsOfSplit(s: string)
    ensures NonEmpty(Flushed(Log(Lines(s), Rest(s)))) == Runs(s)
    decreases |s|
  {
    hide Cut, Consumed, Lines, Rest, Runs;
    NonEmptyPlus(Lines(s), if Rest(s) == "" then [] else [Rest(s)]);
    if Cut(s) == |s| {
      LastPiece(s);
      WholeRun(s);
    } else {
      var tail := s[Consumed(s)..];
      RunsOfSplit(tail);
      NonEmptyPlus(Lines(tail), if Rest(tail) == "" then [] else [Rest(tail)]);
      NonEmptyPlus([s[..Cut(s)]], Lines(tail));
      FirstLine(s);
      assert Runs(s) == (if Cut(s) == 0 then [] else [s[..Cut(s)]]) + Runs(s[Consumed(s)..]) by {
        var k := Cut(s);
        LeadingRun(s);
        SkipBreak(s, k);
        ConsumedNext(s);
        if Consumed(s) == k + 2 {
          SkipBreak(s, k + 1);
        }
        hide *;
      }
      assert NonEmpty([s[..Cut(s)]]) == if s[..Cut(s)] == "" then [] else [s[..Cut(s)]];
    }
  }

  lemma WholeRun(s: string)
    requires Cut(s) == |s|
    ensures Runs(s) == if s == "" then [] else [s]
  {
    BeforeCut(s);
    assert s[|s|..] == "" && s[..|s|] == s;
  }

  lemma ConsumedNext(s: string)
    requires Cut(s) < |s|
    ensures Consumed(s) == Cut(s) + 1 || (Consumed(s) == Cut(s) + 2 && Cut(s) + 1 < |s| && IsBreak(s[Cut(s) + 1]))
    ensures IsBreak(s[Cut(s)])
  {
  }

  lemma LeadingRun(s: string)
    requires s != ""
    ensures Runs(s) == (if Cut(s) == 0 then [] else [s[..Cut(s)]]) + Runs(s[Cut(s)..])
  {
    if Cut(s) == 0 {
      assert s[0..] == s;
    } else {
      BeforeCut(s);
    }
  }

  lemma SkipBreak(s: string, k: nat)
    requires k < |s| && IsBreak(s[k])
    ensures Runs(s[k..]) == Runs(s[k + 1..])
  {
    assert s[k..][1..] == s[k + 1..];
  }

  /** For every chunking, the non-empty logged lines and the final flush are the maximal stretches
      of the whole stream without CR and LF, and the carried buffer never holds either. */
  lemma ChunkIndependent(chunks: seq<string>)
    ensures NonEmpty(Flushed(Fed(chunks))) == Runs(Whole(chunks))
    ensures NoBreak(Fed(chunks).buf)
  {
    FedIsSplit(chunks);
    var s := Whole(chunks);
    RunsOfSplit(s);
    RestUnbroken(s);
    hide *;
    FlushedParts(Fed(chunks), Log(Lines(s), Rest(s)));
  }

  lemma FlushedParts(a: Log, b: Log)
    requires a.buf == b.buf && NonEmpty(a.lines) == NonEmpty(b.lines)
    ensures NonEmpty(Flushed(a)) == NonEmpty(Flushed(b))
  {
    var last := if a.buf == "" then [] else [a.buf];
    NonEmptyPlus(a.lines, last);
    NonEmptyPlus(b.lines, last);
  }

  lemma {:induction false} RestUnbroken(s: string)
    ensures NoBreak(Rest(s))
    decreases |s|
  {
    if Cut(s) == |s| {
      BeforeCut(s);
    } else {
      RestUnbroken(s[Consumed(s)..]);
    }
  }

  /** The full list, empty lines included, is the greedy split of the whole stream exactly when no
      chunk boundary splits a CRLF; every split one adds an empty line. */
  lemma {:induction false} ExactUnlessSplit(chunks: seq<string>)
    ensures Flushed(Fed(chunks)) == Flushed(Log(Lines(Whole(chunks)), Rest(Whole(chunks)))) <==> Splits(chunks) == 0
    ensures |Fed(chunks).lines| == |Lines(Whole(chunks))| + Splits(chunks)
  {
    FedIsSplit(chunks);
    hide Fed, Lines, Rest, Whole, Splits;
  }

  /** A CRLF cut in two makes an extra empty line. */
  lemma SplitExample()
    ensures Flushed(Fed(["a\r", "\nb"])) == ["a", "", "b"] && Splits(["a\r", "\nb"]) == 1
    ensures Flushed(Log(Lines("a\r\nb"), Rest("a\r\nb"))) == ["a", "b"]
  {
    ExampleTexts();
    var two, one := ["a\r", "\nb"], ["a\r"];
    assert two[..1] == one && one[..0] == [];
    assert "" + "a\r" == "a\r" && "" + "\nb" == "\nb";
    hide Lines, Rest, Cut, Consumed;
    assert Fed(one) == Log(["a"], "") && Whole(one) == "a\r" && Splits(one) == 0;
  }

  lemma ExampleTexts()
    ensures Lines("a\r") == ["a"] && Rest("a\r") == ""
    ensures Lines("\nb") == [""] && Rest("\nb") == "b"
    ensures Lines("a\r\nb") == ["a"] && Rest("a\r\nb") == "b"
  {
    CutIs("a\r", 1);
    CutIs("a\r\nb", 1);
    CutIs("\nb", 0);
    CutIs("b", 1);
    assert "a\r"[..1] == "a" && "a\r"[2..] == "" && "a\r\nb"[..1] == "a" && "a\r\nb"[3..] == "b";
    assert "\nb"[..0] == "" && "\nb"[1..] == "b";
    hide Cut;
    FirstLine("a\r");
    FirstLine("a\r\nb");
    FirstLine("\nb");
    LastPiece("b");
    NothingLeft();
  }

  /** No character but CR and LF is lost: the runs put together are the stream without them. */
  lemma {:induction false} RunsKeepText(s: string)
    ensures Joint(Runs(s)) == Kept(s)
    decreases |s|
  {
    if s == "" {
    } else if IsBreak(s[0]) {
      RunsKeepText(s[1..]);
    } else {
      CutPositive(s);
      BeforeCut(s);
      RunsKeepText(s[Cut(s)..]);
      KeptRun(s, Cut(s));
    }
  }

  function Joint(runs: seq<string>): string {
    if runs == [] then "" else runs[0] + Joint(runs[1..])
  }

  function Kept(s: string): string {
    if s == "" then "" else (if IsBreak(s[0]) then "" else [s[0]]) + Kept(s[1..])
  }

  lemma {:induction false} KeptRun(s: string, k: nat)
    requires k <= |s| && forall i :: 0 <= i < k ==> !IsBreak(s[i])
    ensures Kept(s) == s[..k] + Kept(s[k..])
    decreases k
  {
    if k > 0 {
      KeptRun(s[1..], k - 1);
      assert s[1..][k - 1..] == s[k..] && [s[0]] + s[1..][..k - 1] == s[..k];
    } else {
      assert s[0..] == s;
    }
  }
}
