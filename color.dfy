/**
 * The RGB32 colour of src/Main.cpp: three 8-bit channels packed into the
 * low 24 bits of a 32-bit pixel, red highest, the top byte always zero.
 */
module Color {

  /** The red channel as CreateRGB extracts it: bits 16..23. */
  function Red(rgb: bv32): bv8 { ((rgb >> 16) & 0xFF) as bv8 }

  /** The green channel as CreateRGB extracts it: bits 8..15. */
  function Green(rgb: bv32): bv8 { ((rgb >> 8) & 0xFF) as bv8 }

  /** The blue channel as CreateRGB extracts it: bits 0..7. */
  function Blue(rgb: bv32): bv8 { (rgb & 0xFF) as bv8 }

  /** The bit composition ReturnRGB performs on three channel values. */
  function Pack(r: bv8, g: bv8, b: bv8): (rgb: bv32)
    ensures rgb < 0x100_0000
    ensures Red(rgb) == r && Green(rgb) == g && Blue(rgb) == b
  {
    (0 << 24) | ((r as bv32) << 16) | ((g as bv32) << 8) | (b as bv32)
  }

  /** Packing the three channels of any pixel gives back its low 24 bits. */
  lemma PackUnpack(rgb: bv32)
    ensures Pack(Red(rgb), Green(rgb), Blue(rgb)) == rgb & 0xFF_FFFF
  {
  }

  /** Two channel triples pack to the same pixel only if they are equal. */
  lemma PackInjective(r: bv8, g: bv8, b: bv8, r': bv8, g': bv8, b': bv8)
    requires Pack(r, g, b) == Pack(r', g', b')
    ensures r == r' && g == g' && b == b'
  {
  }

  /**
   * The four palette entries `cl`: entries 0 and 1 (brown, dark blue) are the
   * checker pair under a sphere, entries 2 and 3 (yellow, blue) the lit pair.
   */
  const Palette: seq<bv32> := [Pack(120, 65, 45), Pack(0, 0, 100), Pack(255, 255, 0), Pack(0, 0, 200)]

  /** A colour object whose channels CreateRGB overwrites in place. */
  class RGB32 {
    var r: bv8
    var g: bv8
    var b: bv8

    /** The default constructor: black. */
    constructor Black()
      ensures r == 0 && g == 0 && b == 0
    {
      r, g, b := 0, 0, 0;
    }

    constructor (r: bv8, g: bv8, b: bv8)
      ensures this.r == r && this.g == g && this.b == b
    {
      this.r, this.g, this.b := r, g, b;
    }

    /** Loads the channels from a packed pixel; the top byte is ignored. */
    method CreateRGB(rgb: bv32)
      modifies this
      ensures r == Red(rgb) && g == Green(rgb) && b == Blue(rgb)
      ensures ReturnRGB() == rgb & 0xFF_FFFF
    {
      r := ((rgb >> 16) & 0xFF) as bv8;
      g := ((rgb >> 8) & 0xFF) as bv8;
      b := (rgb & 0xFF) as bv8;
      PackUnpack(rgb);
    }

    /** The packed pixel: red in bits 16..23, green in 8..15, blue in 0..7. */
    function ReturnRGB(): (rgb: bv32)
      reads this
      ensures rgb < 0x100_0000
      ensures Red(rgb) == r && Green(rgb) == g && Blue(rgb) == b
    {
      Pack(r, g, b)
    }
  }

  /** Reloading a colour from its own packed value leaves its channels unchanged. */
  method ReloadKeepsChannels(c: RGB32)
    modifies c
    ensures c.r == old(c.r) && c.g == old(c.g) && c.b == old(c.b)
  {
    var packed := c.ReturnRGB();
    c.CreateRGB(packed);
  }
}
