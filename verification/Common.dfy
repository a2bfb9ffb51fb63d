/** Results, errors and flat byte memories shared by every component. */
module Common {
  type Name = string

  type byte = x: int | 0 <= x < 256 witness 0

  datatype Option<+T> = None | Some(value: T)

  /** The part of the crate's error type that the modelled code can return. */
  datatype Error =
    | DramOom(requested: nat, available: int, capacity: nat)
    | DeviceOom
    | InvalidGpu
    | DmaRingFull
    | UnknownAllocation
    | InvalidTransition
    | Io
    | Panic

  datatype Result<+T> = Ok(value: T) | Err(error: Error)

  function Zeros(n: nat): seq<byte> { seq(n, _ => 0) }

  /** The `n` bytes of `mem` from `p` on; bytes past the end read as zero. */
  function Peek(mem: seq<byte>, p: nat, n: nat): (r: seq<byte>)
    ensures |r| == n
    ensures p + n <= |mem| ==> r == mem[p..p + n]
  {
    seq(n, i requires 0 <= i => if p + i < |mem| then mem[p + i] else 0)
  }

  /** `mem` with `data` written at `p`; a write past the end is dropped. */
  function Poke(mem: seq<byte>, p: nat, data: seq<byte>): (r: seq<byte>)
    ensures |r| == |mem|
    ensures p + |data| <= |mem| ==> r[p..p + |data|] == data
    ensures forall i :: 0 <= i < |mem| && !(p <= i < p + |data|) ==> r[i] == mem[i]
  {
    if p + |data| <= |mem| then mem[..p] + data + mem[p + |data|..] else mem
  }

  /** Reading back a write returns it. */
  lemma PeekPoke(mem: seq<byte>, p: nat, data: seq<byte>)
    requires p + |data| <= |mem|
    ensures Peek(Poke(mem, p, data), p, |data|) == data
  {
  }

  /** A write inside a range is a write inside what the range reads as. */
  lemma PeekPokeWithin(mem: seq<byte>, p: nat, data: seq<byte>, n: nat)
    requires |data| <= n && p + n <= |mem|
    ensures Peek(Poke(mem, p, data), p, n) == Poke(Peek(mem, p, n), 0, data)
  {
    var after := Poke(mem, p, data);
    if data == [] {
      assert after == mem;
    } else {
      assert after[p..p + n] == data + mem[p + |data|..p + n];
    }
  }

  /** A read that meets no written byte does not see the write. */
  lemma PeekAround(mem: seq<byte>, p: nat, data: seq<byte>, q: nat, n: nat)
    requires q + n <= p || p + |data| <= q
    ensures Peek(Poke(mem, p, data), q, n) == Peek(mem, q, n)
  {
  }
}
