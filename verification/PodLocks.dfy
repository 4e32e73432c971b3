/** The 1024 mutexes that the actors of one node share; a pod name selects one of them. */
module PodLocks {
  const STRIPES := 1024
  const FNV_OFFSET := 2166136261
  const FNV_PRIME := 16777619
  const WORD := 0x1_0000_0000

  /** 32-bit FNV-1a. Pod names are ASCII, so a character is one byte. */
  function Fnv32a(name: string): (h: nat)
    ensures h < WORD
  {
    if name == "" then FNV_OFFSET
    else Round(Fnv32a(name[..|name| - 1]), name[|name| - 1])
  }

  function Round(h: nat, c: char): (r: nat)
    ensures r < WORD
  {
    Xor(h, c as nat % 256) * FNV_PRIME % WORD
  }

  /** Bitwise exclusive or. */
  function Xor(a: nat, b: nat): (r: nat) {
    if a == 0 then b
    else 2 * Xor(a / 2, b / 2) + (if a % 2 == b % 2 then 0 else 1)
  }

  /** The index that `GetPodLock` computes. */
  function Stripe(name: string): (i: nat)
    ensures i < STRIPES
  {
    Fnv32a(name) % STRIPES
  }

  /** A test vector of the FNV specification: the hash of "a" is 0xE40C292C. */
  lemma HashOfA(name: string)
    requires name == "a"
    ensures Fnv32a(name) == 0xE40C292C
    ensures Stripe(name) == 0x12C
  {
    var h, b, x := XorOfA();
    RoundIs(h, name[0], b, x);
    Product(x);
    assert name[..0] == "" && name[0] == 'a';
  }

  lemma RoundIs(h: nat, c: char, b: nat, x: nat)
    requires c as nat % 256 == b && Xor(h, b) == x
    ensures Round(h, c) == x * FNV_PRIME % WORD
  {
  }

  lemma Product(x: nat)
    requires x == 0x811C9DA4
    ensures x * FNV_PRIME % WORD == 0xE40C292C
  {
  }

  lemma XorOfA() returns (h: nat, b: nat, x: nat)
    ensures h == FNV_OFFSET && b == 'a' as nat && x == 0x811C9DA4 && Xor(h, b) == x
  {
    h, b, x := 0x811C9DC5, 0x61, 0x811C9DA4;
    XorZero(0x102393B);
    assert Xor(0x2047277, 0x1) == 0x2047276;
    assert Xor(0x408E4EE, 0x3) == 0x408E4ED;
    assert Xor(0x811C9DC, 0x6) == 0x811C9DA;
    assert Xor(0x102393B8, 0xC) == 0x102393B4;
    assert Xor(0x20472771, 0x18) == 0x20472769;
    assert Xor(0x408E4EE2, 0x30) == 0x408E4ED2;
  }

  lemma {:induction false} XorZero(a: nat)
    ensures Xor(a, 0) == a
  {
    if a > 0 {
      XorZero(a / 2);
    }
  }
}
