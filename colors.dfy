/** The two colours a box can show: GREEN when its ball landed in the box
  * first drawn, RED when probing had to move it elsewhere. */
module Colors {
  datatype Color = Red | Green

  /** A row of `n` GREEN boxes, the colour every box starts with. */
  function Greens(n: nat): (g: seq<Color>)
    ensures |g| == n && forall i :: 0 <= i < n ==> g[i] == Green
  {
    seq(n, _ => Green)
  }
}
