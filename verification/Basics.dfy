/** What several components share. */
module Basics {
  const TWO_64: nat := 0x1_0000_0000_0000_0000

  function DeleteAt<T>(s: seq<T>, i: nat): seq<T>
    requires i < |s|
  {
    s[..i] + s[i + 1..]
  }
}
