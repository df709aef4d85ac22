/**
 * `encode_key_mapping`, defined identically in kitty/pass_keys.py and
 * kitty/neighboring_window.py: parse a shortcut such as "ctrl+shift+x",
 * build a `KeyEvent` whose six modifier flags are read off the bitmask
 * (shift=1, alt=2, ctrl=4, super=8, hyper=16, meta=32), and let the window
 * encode it for its child.
 */
module KeyEncoding {
  import opened Host

  /** Bit `k` of `n`, as Python's `bool(n & 2**k)` reads it for `n >= 0`. */
  function Bit(n: nat, k: nat): bool {
    if k == 0 then n % 2 == 1 else Bit(n / 2, k - 1)
  }

  /** The bitmask whose low six bits are the given flags. */
  function ModsValue(f: Modifiers): nat {
    (if f.shift then 1 else 0) + (if f.alt then 2 else 0) + (if f.ctrl then 4 else 0)
    + (if f.super then 8 else 0) + (if f.hyper then 16 else 0) + (if f.meta then 32 else 0)
  }

  /**
   * The flags `KeyEvent` receives for a bitmask: `bool(mods & 1)`, ...,
   * `bool(mods & 32)`. Together they are exactly the low six bits of `mods`;
   * the higher bits (caps lock, num lock) reach the event only through `mods`.
   */
  function DecodeMods(mods: nat): (f: Modifiers)
    ensures ModsValue(f) == mods % 64
  {
    LowBits(mods);
    Modifiers(
      shift := mods % 2 == 1,
      alt := (mods / 2) % 2 == 1,
      ctrl := (mods / 4) % 2 == 1,
      super := (mods / 8) % 2 == 1,
      hyper := (mods / 16) % 2 == 1,
      meta := (mods / 32) % 2 == 1)
  }

  /** Each flag is the matching bit of the mask: shift 0, alt 1, ctrl 2, super 3, hyper 4, meta 5. */
  lemma DecodeModsBits(mods: nat)
    ensures DecodeMods(mods).shift == Bit(mods, 0)
    ensures DecodeMods(mods).alt == Bit(mods, 1)
    ensures DecodeMods(mods).ctrl == Bit(mods, 2)
    ensures DecodeMods(mods).super == Bit(mods, 3)
    ensures DecodeMods(mods).hyper == Bit(mods, 4)
    ensures DecodeMods(mods).meta == Bit(mods, 5)
  {
    assert mods / 2 / 2 == mods / 4;
    assert mods / 4 / 2 == mods / 8;
    assert mods / 8 / 2 == mods / 16;
    assert mods / 16 / 2 == mods / 32;
  }

  /** Decoding the mask built from a set of flags gives back those flags. */
  lemma DecodeModsValue(f: Modifiers)
    ensures DecodeMods(ModsValue(f)) == f
  {
    var b0, b1, b2, b3, b4, b5 :=
      if f.shift then 1 else 0, if f.alt then 1 else 0, if f.ctrl then 1 else 0,
      if f.super then 1 else 0, if f.hyper then 1 else 0, if f.meta then 1 else 0;
    var v := ModsValue(f);
    var r1 := b1 + 2 * (b2 + 2 * (b3 + 2 * (b4 + 2 * b5)));
    var r2 := b2 + 2 * (b3 + 2 * (b4 + 2 * b5));
    var r3 := b3 + 2 * (b4 + 2 * b5);
    var r4 := b4 + 2 * b5;
    assert v == b0 + 2 * r1;
    HalfOf(v, b0, r1);
    HalfOf(r1, b1, r2);
    HalfOf(r2, b2, r3);
    HalfOf(r3, b3, r4);
    HalfOf(r4, b4, b5);
    DivHalf(v, 2);
    DivHalf(v, 4);
    DivHalf(v, 8);
    DivHalf(v, 16);
  }

  /** Halving `b + 2 * r` with `b` a bit. */
  lemma HalfOf(v: nat, b: nat, r: nat)
    requires b < 2 && v == b + 2 * r
    ensures v % 2 == b && v / 2 == r
  {
  }

  /** Halving the quotient is dividing by twice the divisor. */
  lemma DivHalf(n: nat, a: nat)
    requires a > 0
    ensures n / a / 2 == n / (2 * a)
  {
    var q := n / a;
    var r := n % a;
    var q2 := q / 2;
    var r2 := q % 2;
    assert n == a * (2 * q2 + r2) + r;
    assert n == (2 * a) * q2 + (a * r2 + r);
    DivUnique(n, 2 * a, q2, a * r2 + r);
  }

  /** The quotient is determined by any decomposition with an in-range remainder. */
  lemma DivUnique(n: nat, d: nat, q: nat, r: nat)
    requires d > 0 && n == d * q + r && r < d
    ensures n / d == q && n % d == r
  {
    var q0, r0 := n / d, n % d;
    assert d * q0 + r0 == d * q + r;
    if q0 > q {
      MulAtLeast(d, q0 - q);
      assert false;
    } else if q0 < q {
      MulAtLeast(d, q - q0);
      assert false;
    }
  }

  lemma MulAtLeast(d: nat, k: nat)
    requires k >= 1
    ensures d * k >= d
  {
  }

  /** The low six bits of `n`, assembled bit by bit, are `n % 64`. */
  lemma LowBits(n: nat)
    ensures n % 64 == n % 2 + 2 * ((n / 2) % 2) + 4 * ((n / 4) % 2) + 8 * ((n / 8) % 2)
                      + 16 * ((n / 16) % 2) + 32 * ((n / 32) % 2)
  {
    ModDouble(n, 32);
    ModDouble(n / 2, 16);
    ModDouble(n / 4, 8);
    ModDouble(n / 8, 4);
    ModDouble(n / 16, 2);
    DivHalf(n, 2);
    DivHalf(n, 4);
    DivHalf(n, 8);
    DivHalf(n, 16);
  }

  /** `n % (2m)` splits into the low bit and the rest modulo `m`. */
  lemma ModDouble(n: nat, m: nat)
    requires m > 0
    ensures n % (2 * m) == n % 2 + 2 * ((n / 2) % m)
  {
    var q := n / 2;
    var r := n % 2;
    var a := q / m;
    var b := q % m;
    assert n == 2 * (m * a + b) + r;
    assert n == (2 * m) * a + (2 * b + r);
    DivUnique(n, 2 * m, a, 2 * b + r);
  }

  /** "ctrl+shift+x" parses to mask 5: exactly ctrl and shift are set. */
  lemma CtrlShiftFlags()
    ensures DecodeMods(5) == Modifiers(shift := true, alt := false, ctrl := true, super := false, hyper := false, meta := false)
  {
  }

  /** The `KeyEvent` built from a parsed shortcut. */
  function KeyEventOf(shortcut: Shortcut): (e: KeyEvent)
    ensures e.mods == shortcut.mods && e.key == shortcut.key
    ensures ModsValue(e.flags) == e.mods % 64
  {
    KeyEvent(shortcut.mods, shortcut.key, DecodeMods(shortcut.mods))
  }

  /**
   * `encode_key_mapping(window, key_mapping)`: the window encodes one event
   * carrying the parsed mask and key, whose six flags are bits 0 to 5 of
   * the mask (shift, alt, ctrl, super, hyper, meta).
   */
  function EncodeKeyMapping(rt: Runtime, window: Window, keyMapping: string): (r: Bytes)
    ensures var sc := rt.parseShortcut(keyMapping);
      r == window.encodedKey(KeyEvent(sc.mods, sc.key,
        Modifiers(Bit(sc.mods, 0), Bit(sc.mods, 1), Bit(sc.mods, 2), Bit(sc.mods, 3), Bit(sc.mods, 4), Bit(sc.mods, 5))))
  {
    var shortcut := rt.parseShortcut(keyMapping);
    DecodeModsBits(shortcut.mods);
    window.encodedKey(KeyEventOf(shortcut))
  }
}
