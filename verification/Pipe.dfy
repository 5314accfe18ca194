/** bufferedPipe: a bounded FIFO of bytes guarded by one mutex and one condition variable. */
module Pipe {
  type Byte = bv8

  const UINT64 := 0x1_0000_0000_0000_0000
  const MAX_LENGTH := 0x7FFF_FFFF_FFFF_FFFF   // the longest slice

  /** What the mutex protects. `limit` is an unsigned 64-bit number; 0 means no limit. */
  datatype Buffer = Buffer(bytes: seq<Byte>, limit: nat, writerDone: bool, closed: bool)

  datatype Outcome =
    | Accepted                      // the write was appended
    | Delivered(data: seq<Byte>)    // the read took these bytes
    | Eof
    | ClosedPipe
    | Sleeps                        // cond.Wait
    | Panics                        // bytes.Buffer cannot grow further

  /** The guard of the loop in `Write`, in 64-bit arithmetic. */
  predicate Full(b: Buffer, n: nat) {
    b.limit > 0 && |b.bytes| > 0 && (|b.bytes| + n) % UINT64 > b.limit
  }

  /** A write from the point where it holds the mutex to the point where it gives it up. */
  function WriteOnce(b: Buffer, p: seq<Byte>): (Outcome, Buffer) {
    if b.closed then (ClosedPipe, b)
    else if Full(b, |p|) then (Sleeps, b)
    else if |b.bytes| + |p| > MAX_LENGTH then (Panics, b)
    else (Accepted, b.(bytes := b.bytes + p))
  }

  /** A read of at most `n` bytes, from the point where it holds the mutex. */
  function ReadOnce(b: Buffer, n: nat): (Outcome, Buffer) {
    if |b.bytes| > 0 then
      var k := if n < |b.bytes| then n else |b.bytes|;
      (Delivered(b.bytes[..k]), b.(bytes := b.bytes[k..]))
    else if b.writerDone then (Eof, b)
    else if b.closed then (ClosedPipe, b)
    else (Sleeps, b)
  }

  /** Lengths of slices cannot wrap the 64-bit sum. */
  lemma NoWrap(b: Buffer, n: nat)
    requires |b.bytes| <= MAX_LENGTH && n <= MAX_LENGTH
    ensures Full(b, n) <==> b.limit > 0 && |b.bytes| > 0 && |b.bytes| + n > b.limit
  {
    assert (|b.bytes| + n) % UINT64 == |b.bytes| + n;
  }

  /** What a write comes to, in plain arithmetic. */
  predicate Decided(b: Buffer, p: seq<Byte>) {
    && (b.closed ==> WriteOnce(b, p) == (ClosedPipe, b))
    && (!b.closed && !Room(b, |p|) ==> WriteOnce(b, p) == (Sleeps, b))
    && (!b.closed && Room(b, |p|) && |b.bytes| + |p| <= MAX_LENGTH ==>
          WriteOnce(b, p) == (Accepted, b.(bytes := b.bytes + p)))
  }

  lemma Decides(b: Buffer, p: seq<Byte>)
    requires |b.bytes| <= MAX_LENGTH && |p| <= MAX_LENGTH
    ensures Decided(b, p)
  {
    NoWrap(b, |p|);
  }

  // ---------------------------------------------------------------- the pipe as an object

  function Max(a: nat, b: nat): nat { if a < b then b else a }

  function Min(a: nat, b: nat): nat { if a < b then a else b }

  /** A write of `n` bytes finds room: there is no limit, nothing is buffered, or the sum is within it. */
  predicate Room(b: Buffer, n: nat) {
    b.limit == 0 || b.bytes == [] || |b.bytes| + n <= b.limit
  }

  class BufferedPipe {
    const limit: nat
    var buf: seq<Byte>
    var writerDone: bool
    var closed: bool
    ghost var accepted: seq<Byte>     // every byte a write was accepted for
    ghost var delivered: seq<Byte>    // every byte a read returned
    ghost var largest: nat            // the longest accepted write

    ghost function Value(): Buffer
      reads this
    {
      Buffer(buf, limit, writerDone, closed)
    }

    /** What was read, followed by what is buffered, is what was accepted; the backlog is bounded. */
    ghost predicate Valid()
      reads this
    {
      && accepted == delivered + buf && |buf| <= MAX_LENGTH
      && (limit > 0 ==> |buf| <= Max(limit, largest))
    }

    constructor (limit: nat)
      ensures Valid() && Value() == Buffer([], limit, false, false) && accepted == delivered == []
    {
      this.limit := limit;
      buf, writerDone, closed, accepted, delivered, largest := [], false, false, [], [], 0;
    }

    /** cond.Wait gives the mutex up: until it returns, other goroutines use the pipe. */
    method Wait()
      requires Valid()
      modifies this
      ensures Valid() && old(accepted) <= accepted && old(delivered) <= delivered && old(largest) <= largest
      ensures (old(closed) ==> closed) && (old(writerDone) ==> writerDone)
    {
    }

    /** Blocks while the backlog is at the cap, for at most `wakeups` wake-ups. `at` is the pipe
        when the write last got the mutex. */
    method Write(p: seq<Byte>, wakeups: nat) returns (n: nat, outcome: Outcome, ghost at: Buffer)
      requires Valid() && |p| <= MAX_LENGTH
      modifies this
      ensures Valid() && (outcome, Value()) == WriteOnce(at, p) && at.limit == limit
      ensures n == (if outcome.Accepted? then |p| else 0)
      ensures Decided(at, p)
      ensures outcome.Accepted? ==>
                && |p| <= |accepted| && old(accepted) <= accepted[..|accepted| - |p|]
                && accepted[|accepted| - |p|..] == p
      ensures old(accepted) <= accepted && old(delivered) <= delivered
      ensures wakeups == 0 ==> at == old(Value())
    {
      hide Decided, Room;
      var patience := wakeups;
      at := Value();
      Decides(at, p);
      while limit > 0 && |buf| > 0 && (|buf| + |p|) % UINT64 > limit
        invariant Valid() && at == Value() && old(accepted) <= accepted && old(delivered) <= delivered
        invariant 0 <= patience <= wakeups && (patience == wakeups ==> at == old(Value()))
        invariant Decided(at, p)
        decreases patience
      {
        if closed {
          return 0, ClosedPipe, at;
        }
        if patience == 0 {
          return 0, Sleeps, at;
        }
        Wait();
        at, patience := Value(), patience - 1;
        Decides(at, p);
      }
      if closed {
        return 0, ClosedPipe, at;
      }
      if |buf| + |p| > MAX_LENGTH {
        return 0, Panics, at;
      }
      buf := buf + p;
      accepted, largest := accepted + p, Max(largest, |p|);
      return |p|, Accepted, at;
    }

    /** Blocks while nothing is buffered and more may come, for at most `wakeups` wake-ups. */
    method Read(p: array<Byte>, wakeups: nat) returns (n: nat, outcome: Outcome, ghost at: Buffer)
      requires Valid()
      modifies this, p
      ensures Valid() && (outcome, Value()) == ReadOnce(at, p.Length) && at.limit == limit
      ensures n == (if outcome.Delivered? then |outcome.data| else 0) && n <= p.Length
      ensures at.bytes != [] ==>
                && outcome.Delivered? && n == Min(p.Length, |at.bytes|) && p[..n] == at.bytes[..n]
                && Value() == at.(bytes := at.bytes[n..])
      ensures at.bytes == [] ==>
                Value() == at && outcome == if at.writerDone then Eof else if at.closed then ClosedPipe else Sleeps
      ensures outcome.Delivered? ==> p[..n] == outcome.data && p[n..] == old(p[n..])
      ensures outcome.Delivered? ==>
                && n <= |delivered| && old(delivered) <= delivered[..|delivered| - n]
                && delivered[|delivered| - n..] == outcome.data
      ensures outcome.Eof? ==> at.writerDone && delivered == accepted
      ensures old(accepted) <= accepted && old(delivered) <= delivered
      ensures wakeups == 0 ==> at == old(Value())
    {
      var patience := wakeups;
      at := Value();
      while |buf| == 0
        invariant Valid() && at == Value() && old(accepted) <= accepted && old(delivered) <= delivered
        invariant 0 <= patience <= wakeups && (patience == wakeups ==> at == old(Value()))
        invariant p[..] == old(p[..])
        decreases patience
      {
        if writerDone {
          return 0, Eof, at;
        }
        if closed {
          return 0, ClosedPipe, at;
        }
        if patience == 0 {
          return 0, Sleeps, at;
        }
        Wait();
        at, patience := Value(), patience - 1;
      }
      n := if p.Length < |buf| then p.Length else |buf|;
      outcome := Delivered(buf[..n]);
      Copy(p, buf[..n]);
      assert accepted == delivered + buf[..n] + buf[n..];
      buf, delivered := buf[n..], delivered + buf[..n];
    }

    static method Copy(p: array<Byte>, data: seq<Byte>)
      requires |data| <= p.Length
      modifies p
      ensures p[..|data|] == data && p[|data|..] == old(p[|data|..])
    {
      for i := 0 to |data|
        invariant p[..i] == data[..i] && p[|data|..] == old(p[|data|..])
      {
        p[i] := data[i];
      }
    }

    method CloseWrite()
      requires Valid()
      modifies this
      ensures Valid() && Value() == old(Value()).(writerDone := true)
      ensures accepted == old(accepted) && delivered == old(delivered)
    {
      writerDone := true;
    }

    method CloseRead()
      requires Valid()
      modifies this
      ensures Valid() && Value() == old(Value()).(closed := true)
      ensures accepted == old(accepted) && delivered == old(delivered)
    {
      closed := true;
    }
  }
}
