/**
  Reassembling lines from the chunks of a stream, with a limit on the unterminated tail
  (apps/desktop/src/polythLinkClient.ts, the stdout handler).
 */
module LineSplitter {

  const MAX_LINE_CHARS: nat := 4 * 1024 * 1024

  /** The position of the first newline, or the length. */
  function Newline(s: string): (k: nat)
    ensures k <= |s|
    ensures k < |s| ==> s[k] == '\n'
    ensures forall i :: 0 <= i < k ==> s[i] != '\n'
  {
    if s == [] || s[0] == '\n' then 0 else 1 + Newline(s[1..])
  }

  predicate HasNewline(s: string) {
    Newline(s) < |s|
  }

  // ---- the reference: a whole text ------------------------------------------------------

  function LinesOf(s: string): seq<string>
    decreases |s|
  {
    if HasNewline(s) then [s[..Newline(s)]] + LinesOf(s[Newline(s) + 1..]) else []
  }

  function TailOf(s: string): string
    decreases |s|
  {
    if HasNewline(s) then TailOf(s[Newline(s) + 1..]) else s
  }

  lemma NewlineIs(s: string, k: nat)
    requires k < |s| && s[k] == '\n' && forall i :: 0 <= i < k ==> s[i] != '\n'
    ensures Newline(s) == k
  {
  }

  lemma FirstLine(a: string, b: string)
    requires HasNewline(a)
    ensures HasNewline(a + b) && Newline(a + b) == Newline(a)
    ensures LinesOf(a + b) == [a[..Newline(a)]] + LinesOf(a[Newline(a) + 1..] + b)
    ensures TailOf(a + b) == TailOf(a[Newline(a) + 1..] + b)
  {
    var k := Newline(a);
    NewlineIs(a + b, k);
    assert (a + b)[..k] == a[..k];
    assert (a + b)[k + 1..] == a[k + 1..] + b;
  }

  /** Splitting may stop anywhere and go on from the tail. */
  lemma {:induction false} SplitAnywhere(a: string, b: string)
    ensures LinesOf(a + b) == LinesOf(a) + LinesOf(TailOf(a) + b)
    ensures TailOf(a + b) == TailOf(TailOf(a) + b)
    decreases |a|
  {
    if HasNewline(a) {
      var k := Newline(a);
      FirstLine(a, b);
      SplitAnywhere(a[k + 1..], b);
      assert [a[..k]] + (LinesOf(a[k + 1..]) + LinesOf(TailOf(a) + b)) == LinesOf(a) + LinesOf(TailOf(a) + b);
    } else {
      assert LinesOf(a) == [] && TailOf(a) == a;
    }
  }

  // ---- the stream ----------------------------------------------------------------------------

  function Concat(chunks: seq<string>): string {
    if chunks == [] then [] else chunks[0] + Concat(chunks[1..])
  }

  /** The handler throws on such a line, a line holding null; the lines behind it stay in the
      buffer until the next chunk. */
  type Fault = string -> bool

  predicate Stops(fault: Fault, s: string)
    decreases |s|
  {
    HasNewline(s) && (fault(s[..Newline(s)]) || Stops(fault, s[Newline(s) + 1..]))
  }

  /** The lines handled at once, the one that throws included ... */
  function Taken(fault: Fault, s: string): seq<string>
    decreases |s|
  {
    if !HasNewline(s) then []
    else if fault(s[..Newline(s)]) then [s[..Newline(s)]]
    else [s[..Newline(s)]] + Taken(fault, s[Newline(s) + 1..])
  }

  /** ... and what is left of the text. */
  function Rest(fault: Fault, s: string): string
    decreases |s|
  {
    if !HasNewline(s) then s
    else if fault(s[..Newline(s)]) then s[Newline(s) + 1..]
    else Rest(fault, s[Newline(s) + 1..])
  }

  /** What stays in the buffer after a chunk: an oversized tail is thrown away, but not by a
      handler that threw. */
  function Kept(fault: Fault, buffer: string, chunk: string): string {
    var s := buffer + chunk;
    if !Stops(fault, s) && |TailOf(s)| > MAX_LINE_CHARS then [] else Rest(fault, s)
  }

  /** The lines handled over a whole stream. */
  function Handled(fault: Fault, buffer: string, chunks: seq<string>): seq<string>
    decreases |chunks|
  {
    if chunks == [] then []
    else Taken(fault, buffer + chunks[0]) + Handled(fault, Kept(fault, buffer, chunks[0]), chunks[1..])
  }

  /** Some chunk ends in an oversized tail, and its line goes on to be terminated; or the stream
      ends while lines behind one that threw still wait. */
  predicate LosesText(fault: Fault, buffer: string, chunks: seq<string>)
    decreases |chunks|
  {
    if chunks == [] then HasNewline(buffer)
    else
      var s := buffer + chunks[0];
      if !Stops(fault, s) && |TailOf(s)| > MAX_LINE_CHARS then HasNewline(Concat(chunks[1..]))
      else LosesText(fault, Kept(fault, buffer, chunks[0]), chunks[1..])
  }

  /** Handling may stop at a line that throws and go on from what is left. */
  lemma {:induction false} TakenThenRest(fault: Fault, s: string, r: string)
    ensures LinesOf(s + r) == Taken(fault, s) + LinesOf(Rest(fault, s) + r)
    decreases |s|
  {
    if HasNewline(s) {
      FirstLine(s, r);
      if !fault(s[..Newline(s)]) {
        TakenThenRest(fault, s[Newline(s) + 1..], r);
      }
    }
  }

  lemma {:induction false} WithoutStop(fault: Fault, s: string)
    requires !Stops(fault, s)
    ensures Taken(fault, s) == LinesOf(s) && Rest(fault, s) == TailOf(s)
    decreases |s|
  {
    if HasNewline(s) {
      WithoutStop(fault, s[Newline(s) + 1..]);
    }
  }

  function Length(lines: seq<string>): nat {
    if lines == [] then 0 else |lines[0]| + Length(lines[1..])
  }

  lemma {:induction false} LengthAdds(a: seq<string>, b: seq<string>)
    ensures Length(a + b) == Length(a) + Length(b)
  {
    if a == [] {
      assert a + b == b;
    } else {
      assert (a + b)[1..] == a[1..] + b;
      LengthAdds(a[1..], b);
    }
  }

  lemma {:induction false} NewlineBehind(tail: string, rest: string)
    requires !HasNewline(tail)
    ensures Newline(tail + rest) == |tail| + Newline(rest)
  {
    if tail == [] {
      assert tail + rest == rest;
    } else {
      assert (tail + rest)[1..] == tail[1..] + rest;
      NewlineBehind(tail[1..], rest);
    }
  }

  lemma FirstOf(s: string, k: nat, first: string, others: string)
    requires k < |s| && Newline(s) == k && s[..k] == first && s[k + 1..] == others
    ensures LinesOf(s) == [first] + LinesOf(others)
  {
  }

  lemma Joint(a: string, b: string, n: nat)
    requires n < |b|
    ensures (a + b)[..|a| + n] == a + b[..n] && (a + b)[|a| + n + 1..] == b[n + 1..]
  {
  }

  /** Text in front of the first line becomes part of it. */
  lemma PrefixLengthens(tail: string, rest: string)
    requires !HasNewline(tail)
    ensures Length(LinesOf(tail + rest)) == Length(LinesOf(rest)) + (if HasNewline(rest) then |tail| else 0)
  {
    var k := Newline(rest);
    NewlineBehind(tail, rest);
    if k < |rest| {
      var others := rest[k + 1..];
      Joint(tail, rest, k);
      FirstOf(tail + rest, |tail| + k, tail + rest[..k], others);
      LengthAdds([tail + rest[..k]], LinesOf(others));
      LengthAdds([rest[..k]], LinesOf(others));
    }
  }

  lemma {:induction false} TailHasNone(s: string)
    ensures !HasNewline(TailOf(s))
    decreases |s|
  {
    if HasNewline(s) {
      TailHasNone(s[Newline(s) + 1..]);
    }
  }

  /** No stream handles more text than it carries. */
  lemma {:induction false} HandledBound(fault: Fault, buffer: string, chunks: seq<string>)
    ensures Length(Handled(fault, buffer, chunks)) <= Length(LinesOf(buffer + Concat(chunks)))
    decreases |chunks|
  {
    if chunks != [] {
      var s, rest := buffer + chunks[0], Concat(chunks[1..]);
      var kept := Kept(fault, buffer, chunks[0]);
      assert buffer + Concat(chunks) == s + rest;
      TakenThenRest(fault, s, rest);
      HandledBound(fault, kept, chunks[1..]);
      LengthAdds(Taken(fault, s), Handled(fault, kept, chunks[1..]));
      LengthAdds(Taken(fault, s), LinesOf(Rest(fault, s) + rest));
      if kept != Rest(fault, s) {
        WithoutStop(fault, s);
        TailHasNone(s);
        PrefixLengthens(TailOf(s), rest);
        assert [] + rest == rest;
      }
    }
  }

  lemma {:induction false} NothingHandled(fault: Fault, buffer: string, chunks: seq<string>)
    requires !HasNewline(buffer + Concat(chunks))
    ensures Handled(fault, buffer, chunks) == []
    decreases |chunks|
  {
    if chunks != [] {
      var s, rest := buffer + chunks[0], Concat(chunks[1..]);
      assert buffer + Concat(chunks) == s + rest;
      Halves(s, rest);
      assert [] + rest == rest;
      NothingHandled(fault, Kept(fault, buffer, chunks[0]), chunks[1..]);
    }
  }

  lemma Halves(a: string, b: string)
    requires !HasNewline(a + b)
    ensures !HasNewline(a) && !HasNewline(b)
  {
    forall i | 0 <= i < |a| ensures a[i] != '\n' {
      assert (a + b)[i] == a[i];
    }
    forall i | 0 <= i < |b| ensures b[i] != '\n' {
      assert (a + b)[|a| + i] == b[i];
    }
  }

  lemma OversizedExact(fault: Fault, tail: string, chunks: seq<string>)
    requires !HasNewline(tail) && tail != []
    ensures Handled(fault, [], chunks) == LinesOf(tail + Concat(chunks)) <==> !HasNewline(Concat(chunks))
  {
    var rest := Concat(chunks);
    assert [] + rest == rest;
    if HasNewline(rest) {
      HandledBound(fault, [], chunks);
      PrefixLengthens(tail, rest);
    } else {
      NothingHandled(fault, [], chunks);
      NewlineBehind(tail, rest);
    }
  }

  lemma SamePrefix(a: seq<string>, x: seq<string>, y: seq<string>)
    ensures a + x == a + y <==> x == y
  {
    assert (a + x)[|a|..] == x && (a + y)[|a|..] == y;
  }

  /** The lines handled are those of the concatenated text, however it was cut, exactly when no
      chunk boundary leaves an oversized tail that a later newline would have ended, and no line
      behind one that threw is still waiting at the end. */
  lemma {:induction false} ChunkingExact(fault: Fault, buffer: string, chunks: seq<string>)
    ensures Handled(fault, buffer, chunks) == LinesOf(buffer + Concat(chunks)) <==> !LosesText(fault, buffer, chunks)
    decreases |chunks|
  {
    if chunks == [] {
      assert buffer + Concat(chunks) == buffer;
    } else {
      var s, rest := buffer + chunks[0], Concat(chunks[1..]);
      var kept := Kept(fault, buffer, chunks[0]);
      assert buffer + Concat(chunks) == s + rest;
      TakenThenRest(fault, s, rest);
      SamePrefix(Taken(fault, s), Handled(fault, kept, chunks[1..]), LinesOf(Rest(fault, s) + rest));
      if !Stops(fault, s) && |TailOf(s)| > MAX_LINE_CHARS {
        WithoutStop(fault, s);
        TailHasNone(s);
        OversizedExact(fault, TailOf(s), chunks[1..]);
      } else {
        ChunkingExact(fault, kept, chunks[1..]);
      }
    }
  }

  /** Without a line that throws, only an oversized tail matters. */
  predicate LosesTail(buffer: string, chunks: seq<string>)
    decreases |chunks|
  {
    chunks != [] &&
    var tail := TailOf(buffer + chunks[0]);
    if |tail| > MAX_LINE_CHARS then HasNewline(Concat(chunks[1..])) else LosesTail(tail, chunks[1..])
  }

  lemma {:induction false} NeverStops(fault: Fault, s: string)
    requires forall line :: !fault(line)
    ensures !Stops(fault, s)
    decreases |s|
  {
    if HasNewline(s) {
      NeverStops(fault, s[Newline(s) + 1..]);
    }
  }

  lemma {:induction false} FaultlessExact(fault: Fault, buffer: string, chunks: seq<string>)
    requires !HasNewline(buffer) && forall line :: !fault(line)
    ensures LosesText(fault, buffer, chunks) <==> LosesTail(buffer, chunks)
    decreases |chunks|
  {
    if chunks != [] {
      var s := buffer + chunks[0];
      NeverStops(fault, s);
      WithoutStop(fault, s);
      TailHasNone(s);
      if |TailOf(s)| <= MAX_LINE_CHARS {
        FaultlessExact(fault, TailOf(s), chunks[1..]);
      }
    }
  }

  // ---- as it runs --------------------------------------------------------------------------------

  class LineReader {
    var buffer: string

    constructor ()
      ensures buffer == []
    {
      buffer := [];
    }

    /** One stdout "data" event: the lines it handles, whether the last of them threw, and whether
        the process is killed. */
    method OnData(fault: Fault, chunk: string) returns (lines: seq<string>, thrown: bool, kill: bool)
      modifies this
      ensures lines == Taken(fault, old(buffer) + chunk)
      ensures buffer == Kept(fault, old(buffer), chunk)
      ensures thrown <==> Stops(fault, old(buffer) + chunk)
      ensures kill <==> !thrown && |TailOf(old(buffer) + chunk)| > MAX_LINE_CHARS
    {
      buffer := buffer + chunk;
      ghost var s := buffer;
      lines, thrown, kill := [], false, false;
      while true
        invariant lines + Taken(fault, buffer) == Taken(fault, s) && Rest(fault, buffer) == Rest(fault, s)
        invariant Stops(fault, buffer) <==> Stops(fault, s)
        invariant TailOf(buffer) == TailOf(s)
        decreases |buffer|
      {
        var newline := Newline(buffer);
        if newline == |buffer| {
          break;
        }
        var line := buffer[..newline];
        buffer := buffer[newline + 1..];
        lines := lines + [line];
        if fault(line) {
          thrown := true;
          return;
        }
      }
      if |buffer| > MAX_LINE_CHARS {
        buffer := [];
        kill := true;
      }
    }
  }
}
