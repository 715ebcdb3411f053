/** The white balancer node (white_balancer.cpp): it keeps a colour temperature, set from the
    reconfigure callback, and rescales every channel of every incoming BGR image by 255 over the
    table's white component for that channel, clamping at 255. */
module WhiteBalance {
  import opened Wrappers
  import opened KelvinTable

  /** A channel value of a bgr8 image. */
  newtype byte = x: int | 0 <= x < 256

  /** C++ division of ints: the quotient is truncated toward zero. */
  function TruncDiv(a: int, b: int): (q: int)
    requires b > 0
    ensures 0 <= a ==> 0 <= q && q * b <= a < q * b + b
    ensures a < 0 ==> q <= 0 && q * b - b < a <= q * b
  {
    if a >= 0 then a / b else -((-a) / b)
  }

  /** The temperature set_temp stores for a requested temperature. */
  function RoundedTemp(t: int): int
  {
    100 * TruncDiv(t, 100)
  }

  /** set_temp rounds toward zero to a multiple of 100: downwards for non-negative requests and
      upwards for negative ones, by less than 100 either way. */
  lemma RoundedTempBounds(t: int)
    ensures RoundedTemp(t) % 100 == 0
    ensures 0 <= t ==> 0 <= RoundedTemp(t) <= t < RoundedTemp(t) + 100
    ensures t < 0 ==> RoundedTemp(t) - 100 < t <= RoundedTemp(t) <= 0
  {
  }

  /** After set_temp(t) the table lookup succeeds exactly for 1000 <= t <= 12099. */
  lemma RoundedTempIsKey(t: int)
    ensures Lookup(RoundedTemp(t)).Some? <==> 1000 <= t <= 12099
  {
    RoundedTempBounds(t);
  }

  // ---------------------------------------------------------------------------------------
  // The branch-free clamp of line 187, on 32-bit two's-complement ints.

  /** The value of a 32-bit pattern read as a two's-complement int. */
  function Signed(b: bv32): int
  {
    if b < 0x8000_0000 then b as int else b as int - 0x1_0000_0000
  }

  /** `255 ^ ((x ^ 255) & -(x < 255))`: the comparison gives 1 or 0, its negation all ones or
      all zeros. */
  function ClampBits(x: bv32): bv32
  {
    var mask: bv32 := if Signed(x) < 255 then 0xFFFF_FFFF else 0;
    255 ^ ((x ^ 255) & mask)
  }

  /** The bit trick computes min(x, 255) for every 32-bit int x. */
  lemma ClampBitsIsMin(x: bv32)
    ensures Signed(ClampBits(x)) == if Signed(x) < 255 then Signed(x) else 255
  {
    if Signed(x) < 255 {
      assert ClampBits(x) == 255 ^ (x ^ 255);
      assert 255 ^ (x ^ 255) == x;
    } else {
      assert ClampBits(x) == 255;
    }
  }

  // ---------------------------------------------------------------------------------------
  // The channel scaling of imageCallback.

  /** The new value of a channel with value `color` whose white component is `white`: the
      product of 255/white and color, truncated, then clamped at 255. */
  function Balanced(color: byte, white: int): byte
    requires 1 <= white <= 255
  {
    var scaled := (255 * color as int) / white;
    if scaled < 255 then scaled as byte else 255
  }

  /** Scaling never darkens a channel and never overflows a byte, and a channel whose white
      component is already 255 is left as it is. */
  lemma BalancedBounds(color: byte, white: int)
    requires 1 <= white <= 255
    ensures color <= Balanced(color, white) <= 255
    ensures white == 255 ==> Balanced(color, white) == color
  {
    var c := color as int;
    DivAtLeast(255 * c, white, c);
  }

  /** A quotient is at least c when the dividend is at least c times the divisor. */
  lemma DivAtLeast(x: int, d: int, c: int)
    requires d > 0 && x >= d * c
    ensures x / d >= c
  {
    var q, r := x / d, x % d;
    assert x == d * q + r && r < d;
    assert d * q > d * (c - 1);
  }

  /** The white component that channel `channel` (0 blue, 1 green, 2 red) of a bgr8 image is
      divided by: the table vector is in RGB order, so it is entry 2 - channel. */
  function ChannelWhite(w: White, channel: nat): int
    requires channel < 3
  {
    Component(w, 2 - channel)
  }

  /** The outcome of one image callback. */
  datatype CallbackOutcome =
    | Published          // the balanced image was published
    | ConversionFailed   // cv_bridge could not convert the message to bgr8; logged and dropped
    | OutOfRange         // kelvin.at threw std::out_of_range, which nothing catches

  class WhiteBalancer {
    var temp: int

    /** The temperature starts at 1000 K, a key of the table. */
    constructor ()
      ensures temp == 1000 && Lookup(temp).Some?
    {
      temp := 1000;
    }

    /** set_temp: keep the requested temperature rounded toward zero to a multiple of 100. */
    method SetTemp(t: int)
      modifies this
      ensures temp == RoundedTemp(t)
    {
      temp := 100 * TruncDiv(t, 100);
    }

    /** The reconfigure callback passes the configured temperature on to set_temp. */
    method CallbackRC(configTemp: int)
      modifies this
      ensures temp == RoundedTemp(configTemp)
      ensures Lookup(temp).Some? <==> 1000 <= configTemp <= 12099
    {
      SetTemp(configTemp);
      RoundedTempIsKey(configTemp);
    }

    /** imageCallback on a bgr8 image of image.Length0 rows and image.Length1 columns, whose
        third dimension holds the three channels. `convertible` says whether cv_bridge can
        present the message as bgr8. */
    method ImageCallback(image: array3<byte>, convertible: bool) returns (outcome: CallbackOutcome)
      requires image.Length2 == 3
      modifies image
      ensures Lookup(temp).None? ==> outcome == OutOfRange && unchanged(image)
      ensures Lookup(temp).Some? && !convertible ==> outcome == ConversionFailed && unchanged(image)
      ensures Lookup(temp).Some? && convertible ==>
        && outcome == Published
        && forall i, j, k :: 0 <= i < image.Length0 && 0 <= j < image.Length1 && 0 <= k < 3 ==>
             image[i, j, k] == Balanced(old(image[i, j, k]), ChannelWhite(Lookup(temp).value, k))
    {
      var white := Lookup(temp);
      if white.None? {
        return OutOfRange;
      }
      var divisors := Divisors(white.value);
      if !convertible {
        return ConversionFailed;
      }
      var dimX, dimY := image.Length1, image.Length0;
      for row := 0 to dimX
        invariant forall i, j, k :: 0 <= i < image.Length0 && 0 <= j < image.Length1 && 0 <= k < 3 ==>
          image[i, j, k] == if j < row then Balanced(old(image[i, j, k]), divisors[k]) else old(image[i, j, k])
      {
        for column := 0 to dimY
          invariant forall i, j, k :: 0 <= i < image.Length0 && 0 <= j < image.Length1 && 0 <= k < 3 ==>
            image[i, j, k] ==
              if j < row || (j == row && i < column) then Balanced(old(image[i, j, k]), divisors[k])
              else old(image[i, j, k])
        {
          BalancePixel(image, column, row, divisors);
        }
      }
      return Published;
    }
  }

  /** The scalar loop of imageCallback: the divisor of each BGR channel. */
  method Divisors(white: White) returns (divisors: seq<int>)
    requires InByteRange(white)
    ensures |divisors| == 3
    ensures forall channel :: 0 <= channel < 3 ==> divisors[channel] == ChannelWhite(white, channel)
    ensures forall channel :: 0 <= channel < 3 ==> 1 <= divisors[channel] <= 255
  {
    divisors := [0, 0, 0];
    for channel := 0 to 3
      invariant |divisors| == 3
      invariant forall c :: 0 <= c < channel ==> divisors[c] == ChannelWhite(white, c)
    {
      divisors := divisors[channel := Component(white, 2 - channel)];
    }
  }

  /** The channel loop for the pixel at (column, row): every channel is balanced and no other
      cell of the image changes. */
  method BalancePixel(image: array3<byte>, column: nat, row: nat, divisors: seq<int>)
    requires image.Length2 == 3 && column < image.Length0 && row < image.Length1
    requires |divisors| == 3 && forall k :: 0 <= k < 3 ==> 1 <= divisors[k] <= 255
    modifies image
    ensures forall i, j, k :: 0 <= i < image.Length0 && 0 <= j < image.Length1 && 0 <= k < 3 ==>
      image[i, j, k] == if i == column && j == row then Balanced(old(image[i, j, k]), divisors[k])
                        else old(image[i, j, k])
  {
    for channel := 0 to 3
      invariant forall i, j, k :: 0 <= i < image.Length0 && 0 <= j < image.Length1 && 0 <= k < 3 ==>
        image[i, j, k] == if i == column && j == row && k < channel then Balanced(old(image[i, j, k]), divisors[k])
                          else old(image[i, j, k])
    {
      var color := image[column, row, channel];
      image[column, row, channel] := Balanced(color, divisors[channel]);
    }
  }

  /** Balancing a channel by its divisor from a table entry (the value ImageCallback writes into
      every cell) never darkens it and never exceeds 255, and leaves it unchanged when that
      white component is 255. */
  lemma BalancedImage(color: byte, w: White, channel: nat)
    requires InByteRange(w) && channel < 3
    ensures color <= Balanced(color, ChannelWhite(w, channel)) <= 255
    ensures ChannelWhite(w, channel) == 255 ==> Balanced(color, ChannelWhite(w, channel)) == color
  {
    BalancedBounds(color, ChannelWhite(w, channel));
  }
}
