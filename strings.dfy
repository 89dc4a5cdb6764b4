/** The C-style string helpers (src/common/string.rs).

    `strlen` and `strcmp` take Rust string slices, which are UTF-8 byte
    strings: a slice is a `string` here and its length in bytes is the sum
    of its characters' UTF-8 widths.  `strcpy` works on raw byte pointers,
    modelled as two byte arrays indexed from the pointers. */
module Strings {
  import opened Wrappers

  /** The number of bytes UTF-8 spends on a character (section 3 of
      RFC 3629). */
  function Utf8Width(c: char): (w: nat)
    ensures 1 <= w <= 4
    ensures w == 1 <==> c as int < 0x80
  {
    if c as int < 0x80 then 1
    else if c as int < 0x800 then 2
    else if c as int < 0x10000 then 3
    else 4
  }

  /** `strlen`: `str::len`, the length in bytes. */
  function Strlen(s: string): (n: nat)
    ensures |s| <= n <= 4 * |s|
    ensures s == [] ==> n == 0
  {
    if s == [] then 0 else Utf8Width(s[0]) + Strlen(s[1..])
  }

  /** The byte length of a concatenation is the sum of the lengths. */
  lemma {:induction false} StrlenAppend(a: string, b: string)
    ensures Strlen(a + b) == Strlen(a) + Strlen(b)
    decreases |a|
  {
    if a == [] {
      assert a + b == b;
    } else {
      assert (a + b)[1..] == a[1..] + b;
      StrlenAppend(a[1..], b);
    }
  }

  /** An ASCII string is as many bytes long as it has characters. */
  lemma {:induction false} StrlenAscii(s: string)
    requires forall i :: 0 <= i < |s| ==> s[i] as int < 0x80
    ensures Strlen(s) == |s|
    decreases |s|
  {
    if s != [] {
      StrlenAscii(s[1..]);
    }
  }

  /** `strcmp`: 0 for equal strings, 1 for any difference. */
  function Strcmp(s1: string, s2: string): (r: int)
    ensures r == 0 <==> s1 == s2
    ensures r == 0 || r == 1
  {
    if s1 == s2 then 0 else 1
  }

  /** The result does not depend on the order of the arguments, so it is
      no ordering: both directions of a difference give 1. */
  lemma StrcmpSymmetric(s1: string, s2: string)
    ensures Strcmp(s1, s2) == Strcmp(s2, s1)
    ensures s1 != s2 ==> Strcmp(s1, s2) == 1 && Strcmp(s2, s1) == 1
  {
  }

  /** The index of the first 0 byte at or after `i`, if any. */
  function FirstZeroFrom(s: seq<bv8>, i: nat): (r: Option<nat>)
    ensures r.Some? ==> i <= r.value < |s| && s[r.value] == 0 &&
                        forall k :: i <= k < r.value ==> s[k] != 0
    ensures r.None? ==> forall k :: i <= k < |s| ==> s[k] != 0
    decreases |s| - i
  {
    if i >= |s| then None
    else if s[i] == 0 then Some(i)
    else FirstZeroFrom(s, i + 1)
  }

  /** The index of the terminating 0 byte. */
  function FirstZero(s: seq<bv8>): Option<nat> {
    FirstZeroFrom(s, 0)
  }

  /** `strcpy`: copies `src` up to and including its first 0 byte into
      `dst` and returns `dst`.  The source loop stops only at a 0 byte, so
      `src` must contain one and `dst` must have room for the copy. */
  method Strcpy(dst: array<bv8>, src: array<bv8>) returns (r: array<bv8>)
    requires FirstZero(src[..]).Some? && FirstZero(src[..]).value < dst.Length
    modifies dst
    ensures r == dst
    ensures var z := FirstZero(old(src[..])).value;
            dst[..z + 1] == old(src[..z + 1]) && dst[z + 1..] == old(dst[z + 1..])
  {
    ghost var z := FirstZero(src[..]).value;
    var i := 0;
    while true
      invariant 0 <= i <= z
      invariant forall k :: 0 <= k < i ==> dst[k] == old(src[k])
      invariant forall k :: i <= k < src.Length ==> src[k] == old(src[k])
      invariant forall k :: i <= k < dst.Length ==> dst[k] == old(dst[k])
      decreases z - i
    {
      var c := src[i];
      dst[i] := c;
      if c == 0 {
        break;
      }
      i := i + 1;
    }
    assert i == z;
    assert dst[..z + 1] == old(src[..z + 1]);
    r := dst;
  }
}
