/** The byte-swap functions of kern/lib/bswap.c. */
module Bswap {

  function Bswap16(val: bv16): bv16 {
    ((val & 0x00ff) << 8) | ((val & 0xff00) >> 8)
  }

  function Bswap32(val: bv32): bv32 {
    ((val & 0x0000_00ff) << 24) | ((val & 0x0000_ff00) << 8) | ((val & 0x00ff_0000) >> 8) | ((val & 0xff00_0000) >> 24)
  }

  function Bswap64(val: bv64): bv64 {
    ((val & 0x0000_0000_0000_00ff) << 56)
    | ((val & 0x0000_0000_0000_ff00) << 40)
    | ((val & 0x0000_0000_00ff_0000) << 24)
    | ((val & 0x0000_0000_ff00_0000) << 8)
    | ((val & 0x0000_00ff_0000_0000) << 8)
    | ((val & 0x0000_ff00_0000_0000) << 24)
    | ((val & 0x00ff_0000_0000_0000) >> 40)
    | ((val & 0xff00_0000_0000_0000) >> 56)
  }

  /** Byte i from the right. */
  function Byte32(val: bv32, i: nat): bv32
    requires i < 4
  {
    if i == 0 then val & 0xff else if i == 1 then (val >> 8) & 0xff else if i == 2 then (val >> 16) & 0xff
    else val >> 24
  }

  function Byte64(val: bv64, i: nat): bv64
    requires i < 8
  {
    if i == 0 then val & 0xff else if i == 1 then (val >> 8) & 0xff else if i == 2 then (val >> 16) & 0xff
    else if i == 3 then (val >> 24) & 0xff else if i == 4 then (val >> 32) & 0xff
    else if i == 5 then (val >> 40) & 0xff else if i == 6 then (val >> 48) & 0xff else val >> 56
  }

  lemma Bswap16Reverses(val: bv16)
    ensures Bswap16(val) & 0xff == val >> 8 && Bswap16(val) >> 8 == val & 0xff
  {
  }

  lemma Bswap32Reverses(val: bv32, i: nat)
    requires i < 4
    ensures Byte32(Bswap32(val), 3 - i) == Byte32(val, i)
  {
  }

  lemma Bswap32Twice(val: bv32)
    ensures Bswap32(Bswap32(val)) == val
  {
  }

  ghost predicate Reverses(val: bv64, r: bv64) {
    forall i: nat :: i < 8 ==> Byte64(r, 7 - i) == Byte64(val, i)
  }

  /** The outer bytes are swapped; bytes 2 and 3 become 0 and byte 4 is mixed
      into byte 5. */
  lemma Bswap64Bytes(val: bv64)
    ensures
      var r := Bswap64(val);
      && Byte64(r, 7) == Byte64(val, 0) && Byte64(r, 6) == Byte64(val, 1)
      && Byte64(r, 5) == Byte64(val, 2) | Byte64(val, 4) && Byte64(r, 4) == Byte64(val, 3)
      && Byte64(r, 3) == 0 && Byte64(r, 2) == 0
      && Byte64(r, 1) == Byte64(val, 6) && Byte64(r, 0) == Byte64(val, 7)
  {
  }

  /** The bytes come out in reverse order exactly when bytes 4 and 5 are 0. */
  lemma Bswap64Reverses(val: bv64)
    ensures Reverses(val, Bswap64(val)) <==> val & 0x0000_ffff_0000_0000 == 0
  {
    var r := Bswap64(val);
    Bswap64Bytes(val);
    assert (Byte64(val, 4) == 0 && Byte64(val, 5) == 0) <==> val & 0x0000_ffff_0000_0000 == 0;
    if Reverses(val, r) {
      assert Byte64(r, 7 - 4) == Byte64(val, 4) && Byte64(r, 7 - 5) == Byte64(val, 5);
    }
    hide Bswap64, Byte64;
  }

  /** Swapping twice gives the argument back exactly when its four middle
      bytes are 0. */
  lemma Bswap64Twice(val: bv64)
    ensures Bswap64(Bswap64(val)) == val <==> val & 0x0000_ffff_ffff_0000 == 0
  {
  }

  lemma Bswap64NoInvolution()
    ensures Bswap64(Bswap64(0x0001_0000)) != 0x0001_0000
  {
  }
}
