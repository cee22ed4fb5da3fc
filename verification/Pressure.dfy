/** Disk pressure in exact percentages, and the exact number of bytes to free. */
module Pressure {
  import opened Types

  datatype DiskPressure = Ok | High | Critical

  const U128 := 0x1_0000_0000_0000_0000_0000_0000_0000_0000

  type u8 = x: int | 0 <= x < 0x100

  type u128 = x: int | 0 <= x < U128

  /** Thresholds as the configuration accepts them. */
  predicate ValidThresholds(high: u8, critical: u8) { 0 < high < critical <= 100 }

  function SatSubU64(a: u64, b: u64): u64 { if a >= b then a - b else 0 }

  /** Space in use: more free than total reads as empty. */
  function Used(total: u64, available: u64): u64 { SatSubU64(total, available) }

  /** A percentage of a 64-bit size, in 128 bits: the products below never wrap. */
  function Scaled(size: u64, pct: u8): u128 {
    ScaledFits(size, pct);
    size * pct
  }

  lemma ScaleOrder(size: int, a: int, b: int)
    requires size >= 0 && a <= b
    ensures size * a <= size * b
  {
    assert size * b == size * a + size * (b - a);
  }

  lemma ScaledFits(size: u64, pct: u8)
    ensures 0 <= size * pct < U128
  {
    ScaleOrder(size, 0, pct);
    ScaleOrder(size, pct, 0x100);
  }

  function Classify(total: u64, available: u64, high: u8, critical: u8): DiskPressure {
    if total == 0 then Ok
    else
      var scaled := Scaled(Used(total, available), 100);
      if scaled >= Scaled(total, critical) then Critical
      else if scaled >= Scaled(total, high) then High
      else Ok
  }

  /** The bytes to free to fall strictly below `pct`. */
  function BytesOver(total: u64, available: u64, pct: u8): u64 {
    var scaled := Scaled(total, pct);
    var allowed := (if scaled >= 1 then scaled - 1 else 0) / 100;
    var used := Used(total, available);
    if used >= allowed then used - allowed else 0
  }

  /** The level against one mark, said without the code's division. */
  predicate AtLeast(total: u64, used: u64, pct: u8) { total > 0 && used * 100 >= total * pct }

  /** Pressure is at least High exactly at or above the high mark, and Critical exactly at the critical one. */
  lemma ClassifyIsExact(total: u64, available: u64, high: u8, critical: u8)
    requires ValidThresholds(high, critical)
    ensures Classify(total, available, high, critical) != Ok <==> AtLeast(total, Used(total, available), high)
    ensures Classify(total, available, high, critical) == Critical <==> AtLeast(total, Used(total, available), critical)
  {
    ScaleOrder(total, high, critical);
  }

  lemma AllowedIsLargest(total: u64, pct: u8, allowed: int)
    requires total > 0 && pct > 0 && allowed == (total * pct - 1) / 100
    ensures allowed * 100 < total * pct <= (allowed + 1) * 100
  {
    assert total * pct >= 1;
  }

  /**
   * The eviction target is exact: zero precisely below the mark; freeing it brings the filesystem below
   * the mark, one byte fewer does not, and it never asks for more than is in use.
   */
  lemma BytesOverIsExact(total: u64, available: u64, high: u8, critical: u8)
    requires ValidThresholds(high, critical)
    ensures var over := BytesOver(total, available, high);
            && over <= Used(total, available)
            && (over > 0 <==> Classify(total, available, high, critical) != Ok)
            && available + over < 0x1_0000_0000_0000_0000
            && Classify(total, available + over, high, critical) == Ok
            && (over > 0 ==> Classify(total, available + over - 1, high, critical) != Ok)
  {
    var over := BytesOver(total, available, high);
    ClassifyIsExact(total, available, high, critical);
    if total > 0 {
      var allowed := (total * high - 1) / 100;
      assert total * high >= 1;
      AllowedIsLargest(total, high, allowed);
      BelowTotal(total, high, allowed);
      if over > 0 {
        assert Used(total, available + over) == allowed;
        assert Used(total, available + over - 1) == allowed + 1;
        ClassifyIsExact(total, available + over - 1, high, critical);
      }
      ClassifyIsExact(total, available + over, high, critical);
    }
  }

  lemma BelowTotal(total: u64, pct: u8, allowed: int)
    requires 0 < pct <= 100 && allowed * 100 < total * pct
    ensures allowed < total
  {
    ScaleOrder(total, pct, 100);
  }
}
