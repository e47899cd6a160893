/** Compact vertex encodings: an RGBA colour packed into 32 bits and texture coordinates
    quantised to 16 bits. Float-to-integer conversions are modelled as the floor of an
    exact real product; the inputs are clamped to [0, 1] first, so the product is never
    negative and truncation toward zero is the floor. */
module VertexPacking {
  import opened Glm

  type Int16 = x: int | -0x8000 <= x < 0x8000
  type UInt16 = x: int | 0 <= x < 0x1_0000
  type Int32 = x: int | -0x8000_0000 <= x < 0x8000_0000
  type Byte = x: int | 0 <= x < 0x100

  /** `PackedVertex`: three 16-bit signed position components, a 32-bit RGBA colour, two
      16-bit texture coordinates and a 32-bit packed normal. */
  datatype PackedVertex = PackedVertex(pos: seq<Int16>, colour: bv32, tex: seq<UInt16>, normal: Int32)
  {
    predicate WellFormed() { |pos| == 3 && |tex| == 2 }
  }

  /** `glm::clamp(c, 0, 1)`. */
  function Clamp01(c: real): (r: real)
    ensures 0.0 <= r <= 1.0
    ensures c <= 0.0 ==> r == 0.0
    ensures c >= 1.0 ==> r == 1.0
    ensures 0.0 <= c <= 1.0 ==> r == c
  {
    if c < 0.0 then 0.0 else if c > 1.0 then 1.0 else c
  }

  /** Clamp to [0, 1], scale to [0, top] and truncate. */
  function Quantise(c: real, top: nat): int {
    (Clamp01(c) * top as real).Floor
  }

  /** The quantised value lies in [0, top]; inputs at or below 0 give 0 and inputs at or
      above 1 give top. */
  lemma QuantiseRange(c: real, top: nat)
    ensures 0 <= Quantise(c, top) <= top
    ensures c <= 0.0 ==> Quantise(c, top) == 0
    ensures c >= 1.0 ==> Quantise(c, top) == top
  {
    var a, t := Clamp01(c), top as real;
    MulBounds(a, t);
    FloorBounds(a * t, top);
    if c <= 0.0 {
      assert a == 0.0;
      assert a * t == 0.0;
    } else if c >= 1.0 {
      assert a == 1.0;
      assert a * t == t;
    }
  }

  lemma FloorBounds(p: real, top: nat)
    requires 0.0 <= p <= top as real
    ensures 0 <= p.Floor <= top
  {
  }

  lemma MulBounds(a: real, b: real)
    requires 0.0 <= a <= 1.0 && 0.0 <= b
    ensures 0.0 <= a * b <= b
  {
    assert b - a * b == (1.0 - a) * b;
    assert (1.0 - a) * b >= 0.0;
  }

  /** Quantisation never reverses the order of two inputs. */
  lemma QuantiseMonotone(c: real, d: real, top: nat)
    requires c <= d
    ensures Quantise(c, top) <= Quantise(d, top)
  {
    var a, b := Clamp01(c), Clamp01(d);
    assert a <= b;
    assert a * top as real <= b * top as real by {
      MulMonotone(a, b, top as real);
    }
  }

  lemma MulMonotone(a: real, b: real, t: real)
    requires a <= b && 0.0 <= t
    ensures a * t <= b * t
  {
    assert (b - a) * t >= 0.0 by {
      assert b - a >= 0.0;
    }
  }

  /** The byte a colour channel becomes. */
  function ChannelByte(c: real): Byte
  {
    QuantiseRange(c, 255);
    Quantise(c, 255)
  }

  /** A channel byte is floor(clamp(c, 0, 1) * 255): channels at or below 0 give 0, at or
      above 1 give 255, and brighter channels never get smaller bytes. */
  lemma ChannelByteProperties(c: real, d: real)
    ensures ChannelByte(c) == Quantise(c, 255)
    ensures c <= 0.0 ==> ChannelByte(c) == 0
    ensures c >= 1.0 ==> ChannelByte(c) == 255
    ensures c <= d ==> ChannelByte(c) <= ChannelByte(d)
  {
    QuantiseRange(c, 255);
    QuantiseRange(d, 255);
    if c <= d {
      QuantiseMonotone(c, d, 255);
    }
  }

  /** The 32-bit word with a in bits 24-31, b in 16-23, g in 8-15 and r in 0-7. */
  function PackRGBA(r: bv8, g: bv8, b: bv8, a: bv8): bv32 {
    (a as bv32 << 24) | (b as bv32 << 16) | (g as bv32 << 8) | r as bv32
  }

  /** Shifting and masking recovers each byte of a packed word. */
  lemma UnpackRGBA(r: bv8, g: bv8, b: bv8, a: bv8)
    ensures (PackRGBA(r, g, b, a) & 0xFF) as bv8 == r
    ensures ((PackRGBA(r, g, b, a) >> 8) & 0xFF) as bv8 == g
    ensures ((PackRGBA(r, g, b, a) >> 16) & 0xFF) as bv8 == b
    ensures (PackRGBA(r, g, b, a) >> 24) as bv8 == a
  {
  }

  /** `packColor`: each channel quantised to a byte, alpha fixed at 255. */
  function PackColor(colour: Vec3): bv32 {
    PackRGBA(ChannelByte(colour.x) as bv8, ChannelByte(colour.y) as bv8, ChannelByte(colour.z) as bv8, 255)
  }

  /** The top byte of a packed colour is always 255, and the low three bytes are the
      red, green and blue channel bytes; from the packed word the channels come back. */
  lemma PackColorLayout(colour: Vec3)
    ensures PackColor(colour) >> 24 == 0xFF
    ensures (PackColor(colour) & 0xFF) as bv8 == ChannelByte(colour.x) as bv8
    ensures ((PackColor(colour) >> 8) & 0xFF) as bv8 == ChannelByte(colour.y) as bv8
    ensures ((PackColor(colour) >> 16) & 0xFF) as bv8 == ChannelByte(colour.z) as bv8
  {
    UnpackRGBA(ChannelByte(colour.x) as bv8, ChannelByte(colour.y) as bv8, ChannelByte(colour.z) as bv8, 255);
  }

  /** One texture coordinate quantised to 16 bits. */
  function TexComponent(t: real): (r: UInt16)
  {
    QuantiseRange(t, 65535);
    Quantise(t, 65535)
  }

  /** `packTexCoord`: writes the two quantised coordinates into outTex[0] and outTex[1]
      and nothing else. */
  method PackTexCoord(tex: array<real>, outTex: array<UInt16>)
    requires tex.Length >= 2 && outTex.Length >= 2
    modifies outTex
    ensures outTex[0] == TexComponent(tex[0]) && outTex[1] == TexComponent(tex[1])
    ensures forall k | 2 <= k < outTex.Length :: outTex[k] == old(outTex[k])
  {
    outTex[0] := TexComponent(tex[0]);
    outTex[1] := TexComponent(tex[1]);
  }

  /** Texture components: 0 maps to 0, 1 maps to 65535, out-of-range inputs are clamped,
      and the map is monotone. */
  lemma TexComponentProperties(t: real, s: real)
    ensures TexComponent(0.0) == 0 && TexComponent(1.0) == 65535
    ensures t <= 0.0 ==> TexComponent(t) == 0
    ensures t >= 1.0 ==> TexComponent(t) == 65535
    ensures t <= s ==> TexComponent(t) <= TexComponent(s)
  {
    QuantiseRange(0.0, 65535);
    QuantiseRange(1.0, 65535);
    QuantiseRange(t, 65535);
    if t <= s {
      QuantiseMonotone(t, s, 65535);
    }
  }
}
