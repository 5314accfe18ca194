/** serviceLoggingWriter: an incremental splitter of a service's output into log lines, and what
    it logs of a whole stream whatever the chunks. */
module LineWriter {
  predicate IsBreak(c: char) { c == '\r' || c == '\n' }

  ghost predicate NoBreak(s: string) { forall i :: 0 <= i < |s| ==> !IsBreak(s[i]) }

  /** The index of the first `c`, or -1. */
  ghost predicate IsIndexOf(s: string, c: char, k: int) {
    && -1 <= k < |s| && (k >= 0 ==> s[k] == c)
    && forall i :: 0 <= i < (if k == -1 then |s| else k) ==> s[i] != c
  }

  // ---------------------------------------------------------------- the greedy split

  /** The index of the first CR or LF, or the length. */
  function Cut(s: string): (k: nat)
    ensures k <= |s| && NoBreak(s[..k]) && (k < |s| ==> IsBreak(s[k]))
  {
    if s == "" || IsBreak(s[0]) then 0
    else
      var k := Cut(s[1..]);
      OneMore(s, k);
      k + 1
  }

  lemma OneMore(s: string, k: nat)
    requires s != "" && !IsBreak(s[0]) && k <= |s[1..]| && NoBreak(s[1..][..k])
    ensures NoBreak(s[..k + 1])
  {
    var head, tail := s[..k + 1], s[1..][..k];
    forall i | 0 <= i < |head| ensures !IsBreak(head[i]) {
      if i > 0 {
        assert head[i] == tail[i - 1];
      }
    }
  }

  /** How much a line and its CRLF, CR or LF take. */
  function Consumed(s: string): (n: nat)
    requires Cut(s) < |s|
    ensures Cut(s) < n <= |s|
  {
    var k := Cut(s);
    if s[k] == '\r' && k + 1 < |s| && s[k + 1] == '\n' then k + 2 else k + 1
  }

  /** The terminated lines of a text, a CRLF being one terminator. */
  function Lines(s: string): seq<string>
    decreases |s|
  {
    if Cut(s) == |s| then [] else [s[..Cut(s)]] + Lines(s[Consumed(s)..])
  }

  /** What follows the last terminator. */
  function Rest(s: string): string
    decreases |s|
  {
    if Cut(s) == |s| then s else Rest(s[Consumed(s)..])
  }

  /** The maximal stretches of a text without CR and LF. */
  function Runs(s: string): seq<string>
    decreases |s|
  {
    if s == "" then []
    else if IsBreak(s[0]) then Runs(s[1..])
    else CutPositive(s); [s[..Cut(s)]] + Runs(s[Cut(s)..])
  }

  lemma CutPositive(s: string)
    requires s != "" && !IsBreak(s[0])
    ensures Cut(s) > 0
  {
  }

  lemma CutIs(s: string, k: nat)
    requires k <= |s| && (forall i :: 0 <= i < k ==> !IsBreak(s[i])) && (k < |s| ==> IsBreak(s[k]))
    ensures Cut(s) == k
  {
    var c := Cut(s);
    assert forall i :: 0 <= i < c ==> s[..c][i] == s[i];
    assert !(c < k);
    assert !(k < c);
  }

  // ---------------------------------------------------------------- the writer

  /** bytes.IndexByte. */
  method IndexByte(s: string, c: char) returns (k: int)
    ensures IsIndexOf(s, c, k)
  {
    for i := 0 to |s|
      invariant forall j :: 0 <= j < i ==> s[j] != c
    {
      if s[i] == c {
        return i;
      }
    }
    return -1;
  }

  /** The lower of two indices, where -1 means that there is none. */
  function FindLowerIndexThatIsNotMinusOne(indexOne: int, indexTwo: int): (k: int)
    requires -1 <= indexOne && -1 <= indexTwo
    ensures k == -1 <==> indexOne == -1 && indexTwo == -1
    ensures k == indexOne || k == indexTwo
    ensures (indexOne != -1 ==> k <= indexOne) && (indexTwo != -1 ==> k <= indexTwo)
  {
    if indexOne == -1 then indexTwo
    else if indexTwo == -1 then indexOne
    else if indexOne > indexTwo then indexTwo
    else indexOne
  }

  /** strings.TrimRight with the cutset CR LF. */
  method TrimRight(s: string) returns (t: string)
    ensures t <= s && (t != "" ==> !IsBreak(t[|t| - 1]))
    ensures forall i :: |t| <= i < |s| ==> IsBreak(s[i])
  {
    var n := |s|;
    while n > 0 && IsBreak(s[n - 1])
      invariant 0 <= n <= |s| && forall i :: n <= i < |s| ==> IsBreak(s[i])
    {
      n := n - 1;
    }
    t := s[..n];
  }

  class ServiceLoggingWriter {
    var buf: string
    var logged: seq<string>

    ghost predicate Valid()
      reads this
    {
      NoBreak(buf)
    }

    constructor ()
      ensures Valid() && buf == "" && logged == []
    {
      buf, logged := "", [];
    }

    /** Logs every complete line of what is left over and `b`, and keeps the rest. */
    method Write(b: string) returns (n: nat)
      modifies this
      ensures Valid() && n == |b|
      ensures logged == old(logged) + Lines(old(buf) + b) && buf == Rest(old(buf) + b)
    {
      hide Lines, Rest, Cut, Consumed, IsIndexOf;
      var data := buf + b;
      ghost var all, done: seq<string> := data, [];
      while true
        invariant Lines(all) == done + Lines(data) && Rest(all) == Rest(data)
        invariant logged == old(logged) + done
        decreases |data|
      {
        var returnIndex := IndexByte(data, '\r');
        var newLineIndex := IndexByte(data, '\n');
        var cutOffIndex: int;
        if returnIndex != -1 && newLineIndex != -1 && newLineIndex - returnIndex == 1 {
          cutOffIndex := newLineIndex;
        } else {
          cutOffIndex := FindLowerIndexThatIsNotMinusOne(newLineIndex, returnIndex);
        }
        Located(data, returnIndex, newLineIndex, cutOffIndex);
        if cutOffIndex == -1 {
          LastPiece(data);
          buf := data;
          return |b|;
        }
        var line := TrimRight(data[..cutOffIndex]);
        Trimmed(data, cutOffIndex, line);
        NextLine(data, done);
        logged, done := logged + [line], done + [line];
        data := data[cutOffIndex + 1..];
      }
    }

    /** Logs what the last write left incomplete. */
    method FinalFlush()
      requires Valid()
      modifies this
      ensures Valid() && buf == "" && logged == old(logged) + if old(buf) == "" then [] else [old(buf)]
    {
      if |buf| == 0 {
        return;
      }
      logged := logged + [buf];
      buf := "";
    }
  }

  /** The cut the writer makes ends the first line of the greedy split. */
  lemma Located(data: string, returnIndex: int, newLineIndex: int, cut: int)
    requires IsIndexOf(data, '\r', returnIndex) && IsIndexOf(data, '\n', newLineIndex)
    requires cut == if returnIndex != -1 && newLineIndex != -1 && newLineIndex - returnIndex == 1 then newLineIndex
                    else FindLowerIndexThatIsNotMinusOne(newLineIndex, returnIndex)
    ensures cut == -1 <==> Cut(data) == |data|
    ensures cut == -1 ==> NoBreak(data)
    ensures cut >= 0 ==> Consumed(data) == cut + 1
  {
    var first := FindLowerIndexThatIsNotMinusOne(newLineIndex, returnIndex);
    CutIs(data, if first == -1 then |data| else first);
  }

  lemma LastPiece(data: string)
    requires Cut(data) == |data|
    ensures Lines(data) == [] && Rest(data) == data
  {
  }

  lemma FirstLine(data: string)
    requires Cut(data) < |data|
    ensures Lines(data) == [data[..Cut(data)]] + Lines(data[Consumed(data)..])
    ensures Rest(data) == Rest(data[Consumed(data)..])
  {
  }

  lemma NextLine(data: string, done: seq<string>)
    requires Cut(data) < |data|
    ensures done + Lines(data) == done + [data[..Cut(data)]] + Lines(data[Consumed(data)..])
    ensures Rest(data) == Rest(data[Consumed(data)..])
  {
    FirstLine(data);
    hide *;
  }

  /** Trimming the terminator off leaves the line. */
  lemma Trimmed(data: string, cut: nat, line: string)
    requires Cut(data) < |data| && Consumed(data) == cut + 1
    requires line <= data[..cut] && (line != "" ==> !IsBreak(line[|line| - 1]))
    requires forall i :: |line| <= i < cut ==> IsBreak(data[..cut][i])
    ensures line == data[..Cut(data)]
  {
    ConsumedIs(data, cut);
    hide Cut, Consumed;
    TrimmedAt(data[..cut], Cut(data), line);
    assert data[..cut][..Cut(data)] == data[..Cut(data)];
  }

  lemma ConsumedIs(data: string, cut: nat)
    requires Cut(data) < |data| && Consumed(data) == cut + 1
    ensures Cut(data) <= cut <= Cut(data) + 1 && cut < |data|
    ensures forall i :: 0 <= i < cut ==> (IsBreak(data[..cut][i]) <==> i >= Cut(data))
  {
    hide Cut;
    BeforeCut(data);
    var k := Cut(data);
    var head := data[..cut];
    forall i | 0 <= i < cut ensures IsBreak(head[i]) <==> i >= k {
      assert head[i] == data[i];
    }
  }

  lemma BeforeCut(data: string)
    ensures forall i :: 0 <= i < Cut(data) ==> !IsBreak(data[i])
  {
    hide Cut;
    var head := data[..Cut(data)];
    forall i | 0 <= i < Cut(data) ensures !IsBreak(data[i]) {
      assert head[i] == data[i];
    }
  }

  lemma TrimmedAt(head: string, k: nat, line: string)
    requires k <= |head| && forall i :: 0 <= i < |head| ==> (IsBreak(head[i]) <==> i >= k)
    requires line <= head && (line != "" ==> !IsBreak(line[|line| - 1]))
    requires forall i :: |line| <= i < |head| ==> IsBreak(head[i])
    ensures line == head[..k]
  {
    var n := |line|;
    if n > 0 {
      assert line[n - 1] == head[n - 1];
    }
    if n < |head| {
      assert IsBreak(head[n]);
    }
    assert line == head[..n];
  }
}
