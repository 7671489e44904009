// The ring buffer of pipe.c with its wrapping counters.
module PipeBuffer {
  // A reader and a writer can be interrupted only where they sleep, so the
  // methods run from one sleep to the next, and runs call them in any order.

  const PIPESIZE: nat := 512
  const WRAP: nat := 0x1_0000_0000

  // How a turn of pipewrite() or piperead() ends: with the value it returns, or
  // asleep with i bytes done.
  datatype Outcome = Returned(value: int) | Asleep(i: nat)

  // One turn of some process.
  datatype Turn =
    | WriteTurn(addr: seq<char>, i: nat, killed: bool)
    | ReadTurn(n: nat, killed: bool)
    | CloseTurn(writable: bool)

  // The free-running positions r <= w and their counters of 32 bits.
  lemma CountersTell(r: nat, w: nat)
    requires r <= w <= r + PIPESIZE
    ensures (w % WRAP - r % WRAP) % WRAP == w - r
    ensures w % WRAP == r % WRAP <==> w == r
    ensures w % WRAP == (r % WRAP + PIPESIZE) % WRAP <==> w == r + PIPESIZE
  {
  }

  lemma CounterStep(x: nat)
    ensures (x % WRAP + 1) % WRAP == (x + 1) % WRAP && (x % WRAP) % PIPESIZE == x % PIPESIZE
  {
    var q, r := x / WRAP, x % WRAP;
    assert x == PIPESIZE * (0x80_0000 * q) + r;
    Remainder(r, 0x80_0000 * q);
    if r + 1 == WRAP {
      assert x + 1 == WRAP * (q + 1);
    } else {
      assert x + 1 == WRAP * q + (r + 1);
    }
  }

  lemma Remainder(r: nat, k: nat)
    ensures (PIPESIZE * k + r) % PIPESIZE == r % PIPESIZE
  {
  }

  // Positions less than a ring apart have different places.
  lemma PlacesDiffer(i: nat, j: nat)
    requires i < j < i + PIPESIZE
    ensures i % PIPESIZE != j % PIPESIZE
  {
  }

  class Pipe {
    const data: array<char>
    var nread: nat
    var nwrite: nat
    var readopen: bool
    var writeopen: bool
    // All bytes ever written and ever read.
    ghost var written: seq<char>
    ghost var taken: seq<char>

    ghost predicate Valid()
      reads this, data
    {
      && data.Length == PIPESIZE && |taken| <= |written| <= |taken| + PIPESIZE
      && nread == |taken| % WRAP && nwrite == |written| % WRAP
      && taken == written[..|taken|]
      && forall i :: |taken| <= i < |written| ==> data[i % PIPESIZE] == written[i]
    }

    // The bytes in the ring.
    ghost function Buffered(): (r: seq<char>)
      requires Valid()
      reads this, data
    {
      written[|taken|..]
    }

    // pipealloc()
    constructor ()
      ensures Valid() && written == [] && taken == [] && readopen && writeopen && fresh(data)
    {
      data := new char[PIPESIZE];
      nread, nwrite, readopen, writeopen := 0, 0, true, true;
      written, taken := [], [];
    }

    // pipewrite() from the i-th byte to its end or its next sleep.
    method Write(addr: seq<char>, i: nat, killed: bool) returns (r: Outcome, ghost k: nat)
      requires Valid() && i <= |addr|
      modifies this`nwrite, this`written, data
      ensures Valid() && nwrite < WRAP
      ensures i <= k <= |addr| && written == old(written) + addr[i..k]
      ensures match r
        case Asleep(j) => j == k < |addr| && |Buffered()| == PIPESIZE && readopen && !killed
        case Returned(v) =>
          || (v == |addr| && k == |addr|)
          || (v == -1 && k < |addr| && |Buffered()| == PIPESIZE && (!readopen || killed))
    {
      k := i;
      var j := i;
      while j < |addr|
        invariant i <= j <= |addr| && k == j && Valid() && written == old(written) + addr[i..j]
      {
        CountersTell(|taken|, |written|);
        if nwrite == (nread + PIPESIZE) % WRAP {
          if !readopen || killed {
            r := Returned(-1);
            return;
          }
          r := Asleep(j);
          return;
        }
        PutByte(addr[j]);
        j, k := j + 1, k + 1;
      }
      r := Returned(|addr|);
    }

    method PutByte(c: char)
      requires Valid() && |Buffered()| < PIPESIZE
      modifies this`nwrite, this`written, data
      ensures Valid() && written == old(written) + [c]
    {
      CounterStep(|written|);
      forall i | |taken| <= i < |written| ensures i % PIPESIZE != |written| % PIPESIZE {
        PlacesDiffer(i, |written|);
      }
      data[nwrite % PIPESIZE] := c;
      nwrite := (nwrite + 1) % WRAP;
      written := written + [c];
    }

    // piperead() from its test for an empty pipe to its end or its next sleep.
    method Read(n: nat, killed: bool) returns (r: Outcome, got: seq<char>)
      requires Valid()
      modifies this`nread, this`taken
      ensures Valid() && taken == old(taken) + got
      ensures r.Asleep? <==> old(Buffered()) == [] && writeopen && !killed
      ensures r.Asleep? ==> got == []
      ensures r == Returned(-1) <==> old(Buffered()) == [] && writeopen && killed
      ensures r == Returned(-1) ==> got == []
      ensures r.Returned? && r.value != -1 ==>
        r.value == |got| && got == old(Buffered())[..if n < |old(Buffered())| then n else |old(Buffered())|]
    {
      CountersTell(|taken|, |written|);
      got := [];
      if nread == nwrite && writeopen {
        if killed {
          return Returned(-1), got;
        }
        return Asleep(0), got;
      }
      var i := 0;
      while i < n
        invariant 0 <= i <= n && Valid() && |got| == i && taken == old(taken) + got
        invariant i <= |old(Buffered())| && got == old(Buffered())[..i]
      {
        CountersTell(|taken|, |written|);
        if nread == nwrite {
          break;
        }
        var c := TakeByte();
        got := got + [c];
        i := i + 1;
      }
      r := Returned(i);
    }

    method TakeByte() returns (c: char)
      requires Valid() && Buffered() != []
      modifies this`nread, this`taken
      ensures Valid() && taken == old(taken) + [c] && c == old(Buffered())[0]
    {
      CounterStep(|taken|);
      c := data[nread % PIPESIZE];
      nread := (nread + 1) % WRAP;
      taken := taken + [c];
    }

    // pipeclose(); the last one frees the pipe.
    method Close(writable: bool) returns (freed: bool)
      modifies this`readopen, this`writeopen
      ensures writeopen == (old(writeopen) && !writable) && readopen == (old(readopen) && writable)
      ensures freed == (!readopen && !writeopen)
    {
      if writable {
        writeopen := false;
      } else {
        readopen := false;
      }
      freed := !readopen && !writeopen;
    }

    // Readers and writers in any order: the bytes that came out, followed by
    // those still in the ring, are those that were there and went in.
    method Interleave(turns: seq<Turn>) returns (ghost put: seq<char>, got: seq<char>)
      requires Valid() && forall t :: t in turns && t.WriteTurn? ==> t.i <= |t.addr|
      modifies this, data
      ensures Valid() && old(Buffered()) + put == got + Buffered()
      ensures written == old(written) + put && taken == old(taken) + got
    {
      put, got := [], [];
      var m := 0;
      while m < |turns|
        invariant 0 <= m <= |turns| && Valid()
        invariant written == old(written) + put && taken == old(taken) + got
      {
        match turns[m] {
          case WriteTurn(addr, i, killed) =>
            assert turns[m] in turns;
            ghost var k;
            var r;
            r, k := Write(addr, i, killed);
            put := put + addr[i..k];
          case ReadTurn(n, killed) =>
            var r, more := Read(n, killed);
            got := got + more;
          case CloseTurn(writable) =>
            var freed := Close(writable);
        }
        m := m + 1;
      }
      Conserved(old(written), put, old(taken), got);
    }
  }

  lemma Conserved(w: seq<char>, put: seq<char>, t: seq<char>, got: seq<char>)
    requires |t| <= |w| && |t + got| <= |w + put| && t == w[..|t|] && t + got == (w + put)[..|t + got|]
    ensures w[|t|..] + put == got + (w + put)[|t + got|..]
  {
    var all := w + put;
    assert all == (t + got) + all[|t + got|..];
    assert w[|t|..] + put == all[|t|..];
  }
}
