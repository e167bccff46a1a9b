/**
 * The A/B split: a seed string is hashed over its UTF-16 code units with the
 * classic "times 31 plus code" hash kept in a signed 32-bit integer, and the
 * parity of the hash picks the variant. A variant remembered in browser
 * storage is accepted only when it is exactly "A" or "B".
 */
module AbFlags {
  import opened Wrappers
  import opened JsText

  datatype Variant = A | B

  const TwoTo32 := 0x1_0000_0000
  const TwoTo31 := 0x8000_0000

  /** JavaScript's ToInt32: the integer modulo 2^32, read as a signed 32-bit value. */
  function ToInt32(x: int): (r: int)
    ensures -TwoTo31 <= r < TwoTo31
    ensures (r - x) % TwoTo32 == 0
  {
    var m := x % TwoTo32;
    if m >= TwoTo31 then m - TwoTo32 else m
  }

  /** One round of the loop: `hash = ((hash << 5) - hash) + code`, then `hash & hash`. */
  function HashStep(hash: int, code: int): int {
    ToInt32(ToInt32(hash * 32) - hash + code)
  }

  /** The hash after all the code units, starting from 0. */
  function Hash(units: seq<int>): int {
    if units == [] then 0 else HashStep(Hash(units[..|units| - 1]), units[|units| - 1])
  }

  function Abs(x: int): nat {
    if x < 0 then -x else x
  }

  /** `getVariant`: 'A' when the absolute hash is even. */
  function VariantOf(seed: string): Variant {
    if Abs(Hash(CodeUnits(seed))) % 2 == 0 then A else B
  }

  /** The loop of `getVariant`, one code unit at a time. */
  method GetVariant(seed: string) returns (v: Variant)
    ensures v == VariantOf(seed)
  {
    var units := CodeUnits(seed);
    var hash := 0;
    for i := 0 to |units|
      invariant hash == Hash(units[..i])
    {
      assert units[..i + 1][..i] == units[..i];
      hash := ToInt32(hash * 32) - hash + units[i];
      hash := ToInt32(hash);
    }
    assert units[..|units|] == units;
    v := if Abs(hash) % 2 == 0 then A else B;
  }

  /** Wrapping twice is wrapping once: each round is the hash times 31 plus the code, modulo 2^32. */
  lemma HashStepTimes31(hash: int, code: int)
    ensures HashStep(hash, code) == ToInt32(31 * hash + code)
  {
    var w := ToInt32(hash * 32);
    var k := (w - hash * 32) / TwoTo32;
    assert w == hash * 32 + k * TwoTo32;
    SameResidue(w - hash + code, 31 * hash + code, k);
  }

  /** ToInt32 depends only on the residue modulo 2^32. */
  lemma SameResidue(x: int, y: int, k: int)
    requires x == y + k * TwoTo32
    ensures ToInt32(x) == ToInt32(y)
  {
    assert x % TwoTo32 == y % TwoTo32;
  }

  /** Wrapping keeps parity, since 2^32 is even. */
  lemma ToInt32Parity(x: int)
    ensures ToInt32(x) % 2 == x % 2
  {
    var k := (ToInt32(x) - x) / TwoTo32;
    assert ToInt32(x) == x + k * TwoTo32;
    assert k * TwoTo32 == 2 * (k * TwoTo31);
    AddEven(x, k * TwoTo31);
  }

  /** The sum of the code units. */
  function Sum(units: seq<int>): int {
    if units == [] then 0 else Sum(units[..|units| - 1]) + units[|units| - 1]
  }

  /** The hash has the parity of the sum of the code units (31 is odd and wrapping keeps parity). */
  lemma {:induction false} HashParity(units: seq<int>)
    ensures Hash(units) % 2 == Sum(units) % 2
  {
    if units != [] {
      var front := units[..|units| - 1];
      var h := Hash(front);
      var c := units[|units| - 1];
      HashParity(front);
      StepParity(h, c);
      assert Hash(units) == HashStep(h, c);
      assert Sum(units) == Sum(front) + c;
      AddParity(h, Sum(front), c);
    }
  }

  lemma AddParity(a: int, b: int, c: int)
    requires a % 2 == b % 2
    ensures (a + c) % 2 == (b + c) % 2
  {
  }

  /** One round changes the parity by the parity of the code unit. */
  lemma StepParity(h: int, c: int)
    ensures HashStep(h, c) % 2 == (h + c) % 2
  {
    var a := ToInt32(h * 32);
    ToInt32Parity(h * 32);
    AddEven(0, 16 * h);
    assert h * 32 == 0 + 2 * (16 * h);
    var j := a / 2;
    assert a == 2 * j;
    assert a - h + c == h + c + 2 * (j - h);
    AddEven(h + c, j - h);
    ToInt32Parity(a - h + c);
  }

  lemma AddEven(x: int, m: int)
    ensures (x + 2 * m) % 2 == x % 2
  {
  }

  /** A seed gets 'A' exactly when the sum of its UTF-16 code units is even; the empty seed gets 'A'. */
  lemma VariantParity(seed: string)
    ensures VariantOf(seed) == A <==> Sum(CodeUnits(seed)) % 2 == 0
    ensures VariantOf("") == A
  {
    var h := Hash(CodeUnits(seed));
    HashParity(CodeUnits(seed));
    assert Abs(h) % 2 == h % 2 by {
      if h < 0 {
        assert -h == 2 * (-h / 2) + (-h) % 2;
      }
    }
  }

  /** `getStoredVariant`: only an exact "A" or "B" in browser storage is taken, and there is no storage on the server. */
  function StoredVariant(inBrowser: bool, stored: Option<string>): (r: Option<Variant>)
    ensures r == Some(A) <==> inBrowser && stored == Some("A")
    ensures r == Some(B) <==> inBrowser && stored == Some("B")
    ensures r.None? <==> !inBrowser || (stored != Some("A") && stored != Some("B"))
  {
    if !inBrowser then None
    else if stored == Some("A") then Some(A)
    else if stored == Some("B") then Some(B)
    else None
  }
}
