/** The refill cycle that both benchmarks follow: a hundred and fifty draws, fifty
    from each of three priority sources. */
module DrawCycle {

  const TOP_UP_EVERY: nat := 150

  /** Units left in source i of the cycle after r draws, from fifty each. */
  function Left(i: nat, r: nat): int {
    if r <= 50 * i then 50 else if r >= 50 * (i + 1) then 0 else 50 * (i + 1) - r
  }
}
