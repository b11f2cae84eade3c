/** Where the four logical nametables lie in nametable memory. */
module Nametables {
  datatype Arrangement = Vertical | Horizontal | SingleScreenLower | SingleScreenUpper | FourScreen
  {
    function ResolveAddress(addr: nat): nat {
      var address := addr % 0x1000;
      var table := address / 0x400;
      var offset := address % 0x400;
      match this
      case Horizontal => if table % 2 == 0 then offset else 0x400 + offset
      case Vertical => if table < 2 then offset else 0x400 + offset
      case SingleScreenLower => offset
      case SingleScreenUpper => 0x400 + offset
      case FourScreen => address
    }
  }
}
