/** The random source, replaced by an injected stream of raw draws so that
    every generation is a deterministic function of the stream. */
module Randomness {
  import opened Outcomes

  /** The raw draws the random object will hand out, in order. Any run uses
      finitely many of them; a draw past the end reads as 0. */
  type Stream = seq<nat>

  /** Raw draw number p of the stream. */
  function Raw(s: Stream, p: nat): nat
  {
    if p < |s| then s[p] else 0
  }

  /** A value computed from draws, with the position of the first unused draw. */
  datatype Drawn<+T> = Drawn(out: Result<T>, pos: nat)

  /** The value `nextInt(bound)` yields when the raw draw at position p is used. */
  function Draw(s: Stream, p: nat, bound: int): (r: nat)
    requires bound > 0
    ensures r < bound
  {
    Raw(s, p) % bound
  }

  /** The generator's random object: a cursor into the injected stream. */
  class Random {
    const stream: Stream
    var pos: nat

    constructor (stream: Stream)
      ensures this.stream == stream && pos == 0
    {
      this.stream := stream;
      pos := 0;
    }

    /** `nextInt(bound)`: a value in [0, bound); a non-positive bound throws
        before any draw is consumed. */
    method NextInt(bound: int) returns (r: Result<int>)
      modifies this
      ensures bound > 0 ==> r == Success(Draw(stream, old(pos), bound)) && pos == old(pos) + 1
      ensures bound <= 0 ==> r == Failure(IllegalArgument) && pos == old(pos)
    {
      if bound <= 0 {
        return Failure(IllegalArgument);
      }
      r := Success(Draw(stream, pos, bound));
      pos := pos + 1;
    }
  }
}
