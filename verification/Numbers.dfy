/** What the models of machine arithmetic share. */
module Numbers {

  const TWO_31: nat := 0x8000_0000
  const TWO_63: int := 0x8000_0000_0000_0000
  const TWO_64: int := 0x1_0000_0000_0000_0000

  ghost predicate KeepsOrder(f: real -> real, x: real, y: real) {
    x <= y ==> f(x) <= f(y)
  }
}
