/** The standard controller of controller.cpp: eight buttons latched into a
    shift register when the strobe falls, then read out one bit per read of
    0x4016/0x4017, A first, with bit 6 of the open bus set. */
module Pad {
  import opened Bits

  /** `FC_KEY_A` .. `FC_KEY_RIGHT`: bit positions in the latched byte. */
  const KeyA: nat := 0
  const KeyB: nat := 1
  const KeySelect: nat := 2
  const KeyStart: nat := 3
  const KeyUp: nat := 4
  const KeyDown: nat := 5
  const KeyLeft: nat := 6
  const KeyRight: nat := 7

  /** The byte with bit i set exactly when key i is down. */
  function Packed(keys: seq<bool>): (b: nat)
    ensures b < Pow2(|keys|)
  {
    if |keys| == 0 then 0 else (if keys[0] then 1 else 0) + 2 * Packed(keys[1..])
  }

  /** Bit i of `v`, counting from the least significant. */
  function Bit(v: nat, i: nat): (b: nat)
    ensures b < 2
  {
    if i == 0 then v % 2 else Bit(v / 2, i - 1)
  }

  /** Bit i of the packed byte is key i. */
  lemma {:induction false} PackedBit(keys: seq<bool>, i: nat)
    requires i < |keys|
    ensures Bit(Packed(keys), i) == (if keys[i] then 1 else 0)
  {
    if i > 0 {
      PackedBit(keys[1..], i - 1);
    }
  }

  /** Adding a key at the top adds its bit at position |keys|: the order in
      which `get_key_states` builds the byte. */
  lemma {:induction false} PackedSnoc(keys: seq<bool>, b: bool)
    ensures Packed(keys + [b]) == Packed(keys) + (if b then Pow2(|keys|) else 0)
  {
    if |keys| > 0 {
      assert (keys + [b])[1..] == keys[1..] + [b];
      PackedSnoc(keys[1..], b);
    } else {
      assert (keys + [b])[1..] == [];
    }
  }

  /** Every bit at or above position n of a value below 2^n is clear. */
  lemma {:induction false} HighBitsClear(v: nat, n: nat, i: nat)
    requires v < Pow2(n) && n <= i
    ensures Bit(v, i) == 0
  {
    if i > 0 {
      if n > 0 {
        HighBitsClear(v / 2, n - 1, i - 1);
      } else {
        HighBitsClear(v / 2, 0, i - 1);
      }
    }
  }

  /** What `output_key_states` returns from a latched byte, and the byte left
      for the next read. */
  function ShiftOut(latched: byte): (r: (byte, byte))
    ensures r.0 == 0x40 + latched % 2
    ensures r.1 == latched / 2
  {
    (0x40 + latched % 2, latched / 2)
  }

  /** The values `n` reads return, strobe low, from a latched byte. */
  function ReadOut(latched: byte, n: nat): (out: seq<byte>)
    ensures |out| == n
  {
    if n == 0 then [] else [ShiftOut(latched).0] + ReadOut(ShiftOut(latched).1, n - 1)
  }

  /** Read i of a latched byte returns 0x40 plus bit i of the byte. */
  lemma {:induction false} ReadOutBits(latched: byte, n: nat, i: nat)
    requires i < n
    ensures ReadOut(latched, n)[i] == 0x40 + Bit(latched, i)
  {
    if i > 0 {
      ReadOutBits(latched / 2, n - 1, i - 1);
    }
  }

  /** After the strobe falls, eight reads return the buttons A, B, Select,
      Start, Up, Down, Left, Right as 0x40 or 0x41, and every read after the
      eighth returns 0x40. */
  lemma {:induction false} ReportOrder(keys: seq<bool>, n: nat, i: nat)
    requires |keys| == 8 && i < n
    ensures Packed(keys) < 0x100
    ensures i < 8 ==> ReadOut(Packed(keys), n)[i] == (if keys[i] then 0x41 else 0x40)
    ensures i >= 8 ==> ReadOut(Packed(keys), n)[i] == 0x40
  {
    assert Pow2(8) == 256 by { assert Pow2(4) == 16; }
    ReadOutBits(Packed(keys), n, i);
    if i < 8 {
      PackedBit(keys, i);
    } else {
      HighBitsClear(Packed(keys), 8, i);
    }
  }

  class Controller {
    var strobe: bool
    var keystate: byte
    /** `cur_keystate`: the live button state the front end writes. */
    const live: array<bool>

    ghost predicate Valid()
      reads this
    {
      live.Length == 8
    }

    constructor (keys: array<bool>)
      requires keys.Length == 8
      ensures Valid() && live == keys && !strobe && keystate == 0
    {
      live := keys;
      strobe := false;
      keystate := 0;
    }

    /** `init`: strobe low, nothing latched, no button down. */
    method Init()
      requires Valid()
      modifies this, live
      ensures !strobe && keystate == 0
      ensures forall k :: 0 <= k < 8 ==> !live[k]
    {
      strobe := false;
      keystate := 0;
      var t := 0;
      while t <= 7
        invariant 0 <= t <= 8
        invariant !strobe && keystate == 0
        invariant forall k :: 0 <= k < t ==> !live[k]
      {
        live[t] := false;
        t := t + 1;
      }
    }

    /** `get_key_states`: latch the live buttons, key i into bit i. */
    method LatchKeys()
      requires Valid()
      modifies this
      ensures keystate == Packed(live[..])
      ensures strobe == old(strobe)
    {
      assert Pow2(8) == 256 by { assert Pow2(4) == 16; }
      var acc := 0;
      var bit := 1;
      var k := 0;
      while k <= 7
        invariant 0 <= k <= 8
        invariant acc == Packed(live[..k]) && bit == Pow2(k)
        invariant strobe == old(strobe)
      {
        assert live[..k + 1] == live[..k] + [live[k]];
        PackedSnoc(live[..k], live[k]);
        if live[k] {
          acc := acc + bit;
        }
        bit := bit * 2;
        k := k + 1;
      }
      assert live[..] == live[..8];
      keystate := acc;
    }

    /** `write_strobe`: bit 0 is the new strobe; a falling strobe latches. */
    method WriteStrobe(data: byte)
      requires Valid()
      modifies this
      ensures strobe == (data % 2 == 1)
      ensures old(strobe) && !strobe ==> keystate == Packed(live[..])
      ensures !(old(strobe) && !strobe) ==> keystate == old(keystate)
    {
      var wasHigh := strobe;
      strobe := data % 2 == 1;
      if wasHigh && !strobe {
        LatchKeys();
      }
    }

    /** `output_key_states`: with the strobe high, the live A button; with it
        low, the latched low bit, shifting the latch for the next read. Bit 6
        is always set. */
    method Output() returns (v: byte)
      requires Valid()
      modifies this
      ensures strobe == old(strobe)
      ensures strobe ==> v == (if live[KeyA] then 0x41 else 0x40) && keystate == old(keystate)
      ensures !strobe ==> (v, keystate) == ShiftOut(old(keystate))
    {
      if strobe {
        v := if live[KeyA] then 0x41 else 0x40;
      } else {
        v := 0x40 + keystate % 2;
        keystate := keystate / 2;
      }
    }
  }
}
