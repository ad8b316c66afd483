/** SHA-256 on machine words: what the program computes is the digest of FIPS 180-4. */
module Sha256 {

  import opened Hashing

  const ROUND: seq<bv32> := [
    0x428a2f98, 0x71374491, 0xb5c0fbcf, 0xe9b5dba5, 0x3956c25b, 0x59f111f1, 0x923f82a4, 0xab1c5ed5,
    0xd807aa98, 0x12835b01, 0x243185be, 0x550c7dc3, 0x72be5d74, 0x80deb1fe, 0x9bdc06a7, 0xc19bf174,
    0xe49b69c1, 0xefbe4786, 0x0fc19dc6, 0x240ca1cc, 0x2de92c6f, 0x4a7484aa, 0x5cb0a9dc, 0x76f988da,
    0x983e5152, 0xa831c66d, 0xb00327c8, 0xbf597fc7, 0xc6e00bf3, 0xd5a79147, 0x06ca6351, 0x14292967,
    0x27b70a85, 0x2e1b2138, 0x4d2c6dfc, 0x53380d13, 0x650a7354, 0x766a0abb, 0x81c2c92e, 0x92722c85,
    0xa2bfe8a1, 0xa81a664b, 0xc24b8b70, 0xc76c51a3, 0xd192e819, 0xd6990624, 0xf40e3585, 0x106aa070,
    0x19a4c116, 0x1e376c08, 0x2748774c, 0x34b0bcb5, 0x391c0cb3, 0x4ed8aa4a, 0x5b9cca4f, 0x682e6ff3,
    0x748f82ee, 0x78a5636f, 0x84c87814, 0x8cc70208, 0x90befffa, 0xa4506ceb, 0xbef9a3f7, 0xc67178f2]

  const INITIAL: Words<bv32> := Words(0x6a09e667, 0xbb67ae85, 0x3c6ef372, 0xa54ff53a, 0x510e527f, 0x9b05688c,
                                      0x1f83d9ab, 0x5be0cd19)

  // ---------------------------------------------------------------- the standard's operations (sections 3.2 and 4.1.2)

  function Choose(x: bv32, y: bv32, z: bv32): bv32 {
    (x & y) ^ (!x & z)
  }

  function Majority(x: bv32, y: bv32, z: bv32): bv32 {
    (x & y) ^ (x & z) ^ (y & z)
  }

  // The standard writes a rotation as two shifts.

  function BigSigma0(x: bv32): bv32 {
    ((x >> 2) | (x << 30)) ^ ((x >> 13) | (x << 19)) ^ ((x >> 22) | (x << 10))
  }

  function BigSigma1(x: bv32): bv32 {
    ((x >> 6) | (x << 26)) ^ ((x >> 11) | (x << 21)) ^ ((x >> 25) | (x << 7))
  }

  function SmallSigma0(x: bv32): bv32 {
    ((x >> 7) | (x << 25)) ^ ((x >> 18) | (x << 14)) ^ (x >> 3)
  }

  function SmallSigma1(x: bv32): bv32 {
    ((x >> 17) | (x << 15)) ^ ((x >> 19) | (x << 13)) ^ (x >> 10)
  }

  function FromBytes(b0: byte, b1: byte, b2: byte, b3: byte): bv32 {
    (b0 as bv32 << 24) | (b1 as bv32 << 16) | (b2 as bv32 << 8) | b3 as bv32
  }

  function ToBytes(word: bv32): (bytes: seq<byte>)
    ensures |bytes| == 4
  {
    BigEndian(word as nat, 4)
  }

  function Add(x: bv32, y: bv32): bv32 {
    x + y
  }

  const STANDARD := Algebra(FromBytes, ToBytes, Add, Choose, Majority, BigSigma0, BigSigma1, SmallSigma0, SmallSigma1,
                            ROUND, INITIAL)

  // ---------------------------------------------------------------- the program's operations

  function Rotated0(x: bv32): bv32 {
    x.RotateRight(2) ^ x.RotateRight(13) ^ x.RotateRight(22)
  }

  function Rotated1(x: bv32): bv32 {
    x.RotateRight(6) ^ x.RotateRight(11) ^ x.RotateRight(25)
  }

  function Spread0(x: bv32): bv32 {
    x.RotateRight(7) ^ x.RotateRight(18) ^ (x >> 3)
  }

  function Spread1(x: bv32): bv32 {
    x.RotateRight(17) ^ x.RotateRight(19) ^ (x >> 10)
  }

  const MACHINE := Algebra(FromBytes, ToBytes, Add, Choose, Majority, Rotated0, Rotated1, Spread0, Spread1, ROUND,
                           INITIAL)

  lemma Rotations0(x: bv32)
    ensures Rotated0(x) == BigSigma0(x)
  {
  }

  lemma Rotations1(x: bv32)
    ensures Rotated1(x) == BigSigma1(x)
  {
  }

  lemma Spreads0(x: bv32)
    ensures Spread0(x) == SmallSigma0(x)
  {
  }

  lemma Spreads1(x: bv32)
    ensures Spread1(x) == SmallSigma1(x)
  {
  }

  lemma Reordered(x: bv32, y: bv32, z: bv32, u: bv32)
    ensures x + y + z + u == u + z + y + x
  {
  }

  lemma AddBackwards(x: bv32, y: bv32, z: bv32, u: bv32)
    ensures Add(Add(Add(x, y), z), u) == Add(Add(Add(u, z), y), x)
  {
    calc {
      Add(Add(Add(x, y), z), u);
      Add(Add(x + y, z), u);
      Add(x + y + z, u);
      x + y + z + u;
      { Reordered(x, y, z, u); }
      u + z + y + x;
      Add(u + z + y, x);
      Add(Add(u + z, y), x);
      Add(Add(Add(u, z), y), x);
    }
  }

  lemma MachineIsStandard()
    ensures Agree(MACHINE, STANDARD)
  {
    forall x: bv32
      ensures MACHINE.big0(x) == STANDARD.big0(x) && MACHINE.big1(x) == STANDARD.big1(x)
              && MACHINE.small0(x) == STANDARD.small0(x) && MACHINE.small1(x) == STANDARD.small1(x)
    {
      Rotations0(x);
      Rotations1(x);
      Spreads0(x);
      Spreads1(x);
    }
  }

  lemma MachineIsValid()
    ensures Valid(MACHINE)
  {
    forall x: bv32, y: bv32, z: bv32, u: bv32
      ensures AddsBackwards(MACHINE, x, y, z, u)
    {
      AddBackwards(x, y, z, u);
    }
  }

  /** `sha256_prefix`: the leading bytes of the standard's digest, in hexadecimal. */
  method Sha256Prefix(value: seq<byte>, bytes: nat) returns (hex: string)
    requires bytes <= DIGEST
    ensures |Digest(STANDARD, value)| == DIGEST && hex == Hex(Digest(STANDARD, value)[..bytes])
  {
    MachineIsValid();
    MachineIsStandard();
    DigestsAgree(MACHINE, STANDARD, value);
    hex := DigestPrefix(MACHINE, value, bytes);
  }
}
