/**
 * The repeating-key XOR of PaxosAlgorithm/ByzantinePaxosRs/ports/crypto.rs. A Rust `&str` is a
 * sequence of Unicode scalar values, which is what a Dafny `char` is; `c as u8` keeps the low eight
 * bits of a char and `b as char` maps a byte to the char with that code.
 */
module XorCipher {
  /** Rust's `c as u8`: the low eight bits of the code. */
  function LowByte(c: char): (b: nat)
    ensures b < 256 && b == c as int % 256
  {
    c as int % 256
  }

  /** Bitwise exclusive or of two naturals, one bit at a time from the lowest. */
  function Xor(a: nat, b: nat): (r: nat)
    decreases a + b
  {
    if a == 0 && b == 0 then 0 else 2 * Xor(a / 2, b / 2) + (a + b) % 2
  }

  function Pow2(n: nat): (p: nat)
    ensures p > 0
  {
    if n == 0 then 1 else 2 * Pow2(n - 1)
  }

  /** The exclusive or of two n-bit values is an n-bit value. */
  lemma {:induction false} XorBelow(a: nat, b: nat, n: nat)
    requires a < Pow2(n) && b < Pow2(n)
    ensures Xor(a, b) < Pow2(n)
    decreases n
  {
    if n > 0 && !(a == 0 && b == 0) {
      XorBelow(a / 2, b / 2, n - 1);
    }
  }

  /** (a xor b) xor b == a. */
  lemma {:induction false} XorCancel(a: nat, b: nat)
    ensures Xor(Xor(a, b), b) == a
    decreases a + b
  {
    if !(a == 0 && b == 0) {
      var half := Xor(a / 2, b / 2);
      var c := 2 * half + (a + b) % 2;
      assert Xor(a, b) == c;
      assert c / 2 == half && (c + b) % 2 == a % 2;
      XorCancel(a / 2, b / 2);
      assert Xor(half, b / 2) == a / 2;
      assert Xor(c, b) == 2 * Xor(c / 2, b / 2) + (c + b) % 2;
    }
  }

  /** x xor x == 0. */
  lemma {:induction false} XorSelf(x: nat)
    ensures Xor(x, x) == 0
    decreases x
  {
    if x != 0 {
      XorSelf(x / 2);
    }
  }

  /** 0 xor x == x. */
  lemma {:induction false} XorZero(x: nat)
    ensures Xor(0, x) == x
    decreases x
  {
    if x != 0 {
      XorZero(x / 2);
    }
  }

  /** The closure `|(d, k)| ((d as u8) ^ (k as u8)) as char`. */
  function XorChar(d: char, k: char): (c: char)
    ensures c as int < 256 && c as int == Xor(LowByte(d), LowByte(k))
  {
    assert Pow2(8) == 256;
    XorBelow(LowByte(d), LowByte(k), 8);
    Xor(LowByte(d), LowByte(k)) as char
  }

  /**
   * `data.chars().zip(key.chars().cycle())` after the cycle has yielded j chars: the iterator stops
   * with the shorter side, and an empty key cycles to an empty iterator.
   */
  function ZipCycle(data: string, key: string, j: nat): (ps: seq<(char, char)>)
    decreases |data|
  {
    if data == [] || key == [] then []
    else [(data[0], key[j % |key|])] + ZipCycle(data[1..], key, j + 1)
  }

  /** Pair i of the zip is data[i] with key[(j + i) mod |key|]. */
  lemma {:induction false} ZipCycleIndex(data: string, key: string, j: nat)
    ensures |ZipCycle(data, key, j)| == if key == [] then 0 else |data|
    ensures key != [] ==> forall i :: 0 <= i < |data| ==>
      ZipCycle(data, key, j)[i] == (data[i], key[(j + i) % |key|])
    decreases |data|
  {
    if data != [] && key != [] {
      ZipCycleIndex(data[1..], key, j + 1);
    }
  }

  /** The map-and-collect over the zipped pairs. */
  function XorPairs(ps: seq<(char, char)>): (out: string)
    ensures |out| == |ps| && forall i :: 0 <= i < |ps| ==> out[i] == XorChar(ps[i].0, ps[i].1)
  {
    seq(|ps|, i requires 0 <= i < |ps| => XorChar(ps[i].0, ps[i].1))
  }

  /**
   * encrypt(data, key): data XORed with the repeated key, one char per data char while the key
   * is nonempty, nothing for an empty key, and every output char below 256.
   */
  function Encrypt(data: string, key: string): (out: string)
    ensures |out| == if key == [] then 0 else |data|
    ensures key != [] ==> forall i :: 0 <= i < |data| ==> out[i] == XorChar(data[i], key[i % |key|])
    ensures forall i :: 0 <= i < |out| ==> out[i] as int < 256
  {
    ZipCycleIndex(data, key, 0);
    XorPairs(ZipCycle(data, key, 0))
  }

  /** decrypt(data, key), written the same way as encrypt. */
  function Decrypt(data: string, key: string): (out: string)
    ensures |out| == if key == [] then 0 else |data|
    ensures key != [] ==> forall i :: 0 <= i < |data| ==> out[i] == XorChar(data[i], key[i % |key|])
  {
    ZipCycleIndex(data, key, 0);
    XorPairs(ZipCycle(data, key, 0))
  }

  /** Decryption is the same function as encryption. */
  lemma DecryptIsEncrypt(data: string, key: string)
    ensures Decrypt(data, key) == Encrypt(data, key)
  {
  }

  /** Every char of s is a single byte. */
  predicate Latin1(s: string)
  {
    forall i :: 0 <= i < |s| ==> s[i] as int < 256
  }

  /** XORing a byte-sized char twice with the same key char gives it back. */
  lemma XorCharTwice(d: char, k: char)
    requires d as int < 256
    ensures XorChar(XorChar(d, k), k) == d
  {
    var once := XorChar(d, k);
    var m, kb := LowByte(d), LowByte(k);
    assert m == d as int;
    assert once as int == Xor(m, kb);
    assert LowByte(once) == once as int;
    XorCancel(m, kb);
    assert XorChar(once, k) as int == d as int;
  }

  /** With a nonempty key, decrypting the encryption of byte-sized data gives the data back. */
  lemma RoundTrip(data: string, key: string)
    requires key != [] && Latin1(data)
    ensures Decrypt(Encrypt(data, key), key) == data
  {
    var enc := Encrypt(data, key);
    var dec := Decrypt(enc, key);
    forall i | 0 <= i < |data|
      ensures dec[i] == data[i]
    {
      XorCharTwice(data[i], key[i % |key|]);
    }
  }

  /** Encryption with an empty key loses the data: both directions return the empty string. */
  lemma EmptyKey(data: string)
    ensures Encrypt(data, "") == [] && Decrypt(data, "") == []
  {
  }

  /** `as u8` drops the high bits, so a char above 255 does not survive the round trip. */
  lemma WideCharLost()
    ensures Decrypt(Encrypt("Ā", "k"), "k") == "\0"
  {
    var data, key := "Ā", "k";
    var enc := Encrypt(data, key);
    assert LowByte(data[0]) == 0 && LowByte(key[0]) == key[0] as int;
    XorZero(key[0] as int);
    assert enc[0] == XorChar(data[0], key[0]) == key[0];
    var dec := Decrypt(enc, key);
    XorSelf(key[0] as int);
    assert dec[0] == XorChar(key[0], key[0]) == '\0';
    assert dec == "\0";
  }

  /**
   * The evidently intended char XOR: only the low byte is mixed with the key, the high bits of the
   * data char are kept. Every block of 256 codes lies wholly inside or wholly outside the surrogate
   * range, so the result is again a char.
   */
  function XorLow(d: char, k: char): (c: char)
    ensures c as int / 256 == d as int / 256
    ensures LowByte(c) == Xor(LowByte(d), LowByte(k))
  {
    var base := d as int - d as int % 256;
    var low := Xor(LowByte(d), LowByte(k));
    assert low < 256 by {
      assert Pow2(8) == 256;
      XorBelow(LowByte(d), LowByte(k), 8);
    }
    assert base + low < 0xD800 || 0xE000 <= base + low <= 0x10FFFF by {
      assert d as int < 0xD800 || 0xE000 <= d as int <= 0x10FFFF;
    }
    (base + low) as char
  }

  /** Repeating-key XOR on the low byte of each char. */
  function EncryptWide(data: string, key: string): (out: string)
    ensures |out| == if key == [] then 0 else |data|
    ensures key != [] ==> forall i :: 0 <= i < |data| ==> out[i] == XorLow(data[i], key[i % |key|])
  {
    if key == [] then [] else seq(|data|, i requires 0 <= i < |data| => XorLow(data[i], key[i % |key|]))
  }

  lemma XorLowTwice(d: char, k: char)
    ensures XorLow(XorLow(d, k), k) == d
  {
    var once := XorLow(d, k);
    var twice := XorLow(once, k);
    XorCancel(LowByte(d), LowByte(k));
    assert twice as int == (twice as int / 256) * 256 + twice as int % 256;
    assert d as int == (d as int / 256) * 256 + d as int % 256;
  }

  /** With a nonempty key the corrected cipher undoes itself on every string. */
  lemma WideRoundTrip(data: string, key: string)
    requires key != []
    ensures EncryptWide(EncryptWide(data, key), key) == data
  {
    var enc := EncryptWide(data, key);
    var dec := EncryptWide(enc, key);
    forall i | 0 <= i < |data|
      ensures dec[i] == data[i]
    {
      XorLowTwice(data[i], key[i % |key|]);
    }
  }
}
