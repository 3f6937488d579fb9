/** Small shared vocabulary: optional values, audio blocks and the integer
    limits of the wasm32 target the Rust crates are compiled for. */
module Common {

  datatype Option<+T> = None | Some(value: T)

  /** Every engine renders blocks of exactly this many frames. */
  const BlockSize: nat := 128

  /** `usize::MAX` on wasm32, where `usize` is 32 bits wide. */
  const UsizeMax: nat := 0xFFFF_FFFF

  function Min(a: int, b: int): int {
    if a <= b then a else b
  }

  /** A block of silence. */
  function Zeros(n: nat): (z: seq<real>)
    ensures |z| == n
    ensures forall i :: 0 <= i < n ==> z[i] == 0.0
  {
    seq(n, _ => 0.0)
  }

  /** One rendered block: exactly `BlockSize` frames (`[f32; 128]`). */
  type Block = b: seq<real> | |b| == BlockSize witness Zeros(BlockSize)

  /** Sample-wise sum of two blocks (the `out_buf[s] += block[s]` loops). */
  function Mix(a: seq<real>, b: seq<real>): (m: seq<real>)
    requires |a| == |b|
    ensures |m| == |a|
    ensures forall i :: 0 <= i < |a| ==> m[i] == a[i] + b[i]
  {
    seq(|a|, i requires 0 <= i < |a| => a[i] + b[i])
  }

  /** `r` is what is left of `s` after a prefix has been consumed. */
  ghost predicate IsSuffix<T>(r: seq<T>, s: seq<T>) {
    |r| <= |s| && s[|s| - |r|..] == r
  }

  lemma SuffixTransitive<T>(a: seq<T>, b: seq<T>, c: seq<T>)
    requires IsSuffix(a, b) && IsSuffix(b, c)
    ensures IsSuffix(a, c)
  {
    assert c[|c| - |a|..] == c[|c| - |b|..][|b| - |a|..];
  }
}
