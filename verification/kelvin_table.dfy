/** The colour-temperature table of the white balancer (white_balancer.cpp): for every
    temperature from 1000 K to 12000 K in steps of 100 K, the red, green and blue components of
    white light at that temperature. The node reads it with std::map::at, which throws
    std::out_of_range for a missing key; here a missing key yields None. The 111 entries are
    split into eight parts of consecutive keys so that each part is checked on its own. */
module KelvinTable {
  import opened Wrappers

  /** The components of white at one temperature, in the table's RGB order. */
  datatype White = White(red: int, green: int, blue: int)

  /** Component `index` of the table's three-element vector: 0 red, 1 green, 2 blue. */
  function Component(w: White, index: nat): int
    requires index < 3
  {
    if index == 0 then w.red else if index == 1 then w.green else w.blue
  }

  /** Every component is a positive divisor that fits a byte. */
  predicate InByteRange(w: White)
  {
    1 <= w.red <= 255 && 1 <= w.green <= 255 && 1 <= w.blue <= 255
  }

  /** white_balancer.cpp lines 22-35: 1000 K to 2300 K. */
  function Part0(kelvin: int): (w: Option<White>)
    ensures w.Some? <==> 1000 <= kelvin <= 2300 && kelvin % 100 == 0
    ensures w.Some? ==> InByteRange(w.value)
  {
    match kelvin
    case 1000 => Some(White(255, 56, 1))
    case 1100 => Some(White(255, 71, 1))
    case 1200 => Some(White(255, 83, 1))
    case 1300 => Some(White(255, 93, 1))
    case 1400 => Some(White(255, 101, 1))
    case 1500 => Some(White(255, 109, 1))
    case 1600 => Some(White(255, 115, 1))
    case 1700 => Some(White(255, 121, 1))
    case 1800 => Some(White(255, 126, 1))
    case 1900 => Some(White(255, 131, 1))
    case 2000 => Some(White(255, 138, 18))
    case 2100 => Some(White(255, 142, 33))
    case 2200 => Some(White(255, 147, 44))
    case 2300 => Some(White(255, 152, 54))
    case _ => None
  }

  /** white_balancer.cpp lines 36-49: 2400 K to 3700 K. */
  function Part1(kelvin: int): (w: Option<White>)
    ensures w.Some? <==> 2400 <= kelvin <= 3700 && kelvin % 100 == 0
    ensures w.Some? ==> InByteRange(w.value)
  {
    match kelvin
    case 2400 => Some(White(255, 157, 63))
    case 2500 => Some(White(255, 161, 72))
    case 2600 => Some(White(255, 165, 79))
    case 2700 => Some(White(255, 169, 87))
    case 2800 => Some(White(255, 173, 94))
    case 2900 => Some(White(255, 177, 101))
    case 3000 => Some(White(255, 180, 107))
    case 3100 => Some(White(255, 184, 114))
    case 3200 => Some(White(255, 187, 120))
    case 3300 => Some(White(255, 190, 126))
    case 3400 => Some(White(255, 193, 132))
    case 3500 => Some(White(255, 196, 137))
    case 3600 => Some(White(255, 199, 143))
    case 3700 => Some(White(255, 201, 148))
    case _ => None
  }

  /** white_balancer.cpp lines 50-63: 3800 K to 5100 K. */
  function Part2(kelvin: int): (w: Option<White>)
    ensures w.Some? <==> 3800 <= kelvin <= 5100 && kelvin % 100 == 0
    ensures w.Some? ==> InByteRange(w.value)
  {
    match kelvin
    case 3800 => Some(White(255, 204, 153))
    case 3900 => Some(White(255, 206, 159))
    case 4000 => Some(White(255, 209, 163))
    case 4100 => Some(White(255, 211, 168))
    case 4200 => Some(White(255, 213, 173))
    case 4300 => Some(White(255, 215, 177))
    case 4400 => Some(White(255, 217, 182))
    case 4500 => Some(White(255, 219, 186))
    case 4600 => Some(White(255, 221, 190))
    case 4700 => Some(White(255, 223, 194))
    case 4800 => Some(White(255, 225, 198))
    case 4900 => Some(White(255, 227, 202))
    case 5000 => Some(White(255, 228, 206))
    case 5100 => Some(White(255, 230, 210))
    case _ => None
  }

  /** white_balancer.cpp lines 64-77: 5200 K to 6500 K. */
  function Part3(kelvin: int): (w: Option<White>)
    ensures w.Some? <==> 5200 <= kelvin <= 6500 && kelvin % 100 == 0
    ensures w.Some? ==> InByteRange(w.value)
  {
    match kelvin
    case 5200 => Some(White(255, 232, 213))
    case 5300 => Some(White(255, 233, 217))
    case 5400 => Some(White(255, 235, 220))
    case 5500 => Some(White(255, 236, 224))
    case 5600 => Some(White(255, 238, 227))
    case 5700 => Some(White(255, 239, 230))
    case 5800 => Some(White(255, 240, 233))
    case 5900 => Some(White(255, 242, 236))
    case 6000 => Some(White(255, 243, 239))
    case 6100 => Some(White(255, 244, 242))
    case 6200 => Some(White(255, 245, 245))
    case 6300 => Some(White(255, 246, 247))
    case 6400 => Some(White(255, 248, 251))
    case 6500 => Some(White(255, 249, 253))
    case _ => None
  }

  /** white_balancer.cpp lines 78-91: 6600 K to 7900 K. */
  function Part4(kelvin: int): (w: Option<White>)
    ensures w.Some? <==> 6600 <= kelvin <= 7900 && kelvin % 100 == 0
    ensures w.Some? ==> InByteRange(w.value)
  {
    match kelvin
    case 6600 => Some(White(254, 249, 255))
    case 6700 => Some(White(252, 247, 255))
    case 6800 => Some(White(249, 246, 255))
    case 6900 => Some(White(247, 245, 255))
    case 7000 => Some(White(245, 243, 255))
    case 7100 => Some(White(243, 242, 255))
    case 7200 => Some(White(240, 241, 255))
    case 7300 => Some(White(239, 240, 255))
    case 7400 => Some(White(237, 239, 255))
    case 7500 => Some(White(235, 238, 255))
    case 7600 => Some(White(233, 237, 255))
    case 7700 => Some(White(231, 236, 255))
    case 7800 => Some(White(230, 235, 255))
    case 7900 => Some(White(228, 234, 255))
    case _ => None
  }

  /** white_balancer.cpp lines 92-105: 8000 K to 9300 K. */
  function Part5(kelvin: int): (w: Option<White>)
    ensures w.Some? <==> 8000 <= kelvin <= 9300 && kelvin % 100 == 0
    ensures w.Some? ==> InByteRange(w.value)
  {
    match kelvin
    case 8000 => Some(White(227, 233, 255))
    case 8100 => Some(White(225, 232, 255))
    case 8200 => Some(White(224, 231, 255))
    case 8300 => Some(White(222, 230, 255))
    case 8400 => Some(White(221, 230, 255))
    case 8500 => Some(White(220, 229, 255))
    case 8600 => Some(White(218, 229, 255))
    case 8700 => Some(White(217, 227, 255))
    case 8800 => Some(White(216, 227, 255))
    case 8900 => Some(White(215, 226, 255))
    case 9000 => Some(White(214, 225, 255))
    case 9100 => Some(White(212, 225, 255))
    case 9200 => Some(White(211, 224, 255))
    case 9300 => Some(White(210, 223, 255))
    case _ => None
  }

  /** white_balancer.cpp lines 106-119: 9400 K to 10700 K. */
  function Part6(kelvin: int): (w: Option<White>)
    ensures w.Some? <==> 9400 <= kelvin <= 10700 && kelvin % 100 == 0
    ensures w.Some? ==> InByteRange(w.value)
  {
    match kelvin
    case 9400 => Some(White(209, 223, 255))
    case 9500 => Some(White(208, 222, 255))
    case 9600 => Some(White(207, 221, 255))
    case 9700 => Some(White(207, 221, 255))
    case 9800 => Some(White(206, 220, 255))
    case 9900 => Some(White(205, 220, 255))
    case 10000 => Some(White(207, 218, 255))
    case 10100 => Some(White(207, 218, 255))
    case 10200 => Some(White(206, 217, 255))
    case 10300 => Some(White(205, 217, 255))
    case 10400 => Some(White(204, 216, 255))
    case 10500 => Some(White(204, 216, 255))
    case 10600 => Some(White(203, 215, 255))
    case 10700 => Some(White(202, 215, 255))
    case _ => None
  }

  /** white_balancer.cpp lines 120-132: 10800 K to 12000 K. */
  function Part7(kelvin: int): (w: Option<White>)
    ensures w.Some? <==> 10800 <= kelvin <= 12000 && kelvin % 100 == 0
    ensures w.Some? ==> InByteRange(w.value)
  {
    match kelvin
    case 10800 => Some(White(202, 214, 255))
    case 10900 => Some(White(201, 214, 255))
    case 11000 => Some(White(200, 213, 255))
    case 11100 => Some(White(200, 213, 255))
    case 11200 => Some(White(199, 212, 255))
    case 11300 => Some(White(198, 212, 255))
    case 11400 => Some(White(198, 212, 255))
    case 11500 => Some(White(197, 211, 255))
    case 11600 => Some(White(197, 211, 255))
    case 11700 => Some(White(197, 210, 255))
    case 11800 => Some(White(196, 210, 255))
    case 11900 => Some(White(195, 210, 255))
    case 12000 => Some(White(195, 209, 255))
    case _ => None
  }

  /** kelvin.at(k): defined exactly for the multiples of 100 from 1000 to 12000, and every entry
      it yields has all components in [1, 255]. */
  function Lookup(kelvin: int): (w: Option<White>)
    ensures w.Some? <==> 1000 <= kelvin <= 12000 && kelvin % 100 == 0
    ensures w.Some? ==> InByteRange(w.value)
  {
    if kelvin < 2400 then Part0(kelvin)
    else if kelvin < 3800 then Part1(kelvin)
    else if kelvin < 5200 then Part2(kelvin)
    else if kelvin < 6600 then Part3(kelvin)
    else if kelvin < 8000 then Part4(kelvin)
    else if kelvin < 9400 then Part5(kelvin)
    else if kelvin < 10800 then Part6(kelvin)
    else Part7(kelvin)
  }
}
