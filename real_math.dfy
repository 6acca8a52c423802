/** Real-number helpers shared by the particle field and the tilting card. */
module RealMath {
  function Abs(r: real): (a: real)
    ensures a >= 0.0
    ensures a == r || a == -r
  {
    if r < 0.0 then -r else r
  }
}
