/** Liquidity levels and the sweeps detected against them. */
module SweepTypes {
  import opened Foundations

  datatype Strength = Major | MajorH4Only | Minor | Structural

  datatype MarkedLevel = MarkedLevel(price: real, side: Side, name: string, strength: Strength)

  datatype Sweep = Sweep(
    direction: Trend,
    levelPrice: real,
    levelName: string,
    levelStrength: Strength,
    time: int,
    extreme: real,
    returnTime: int,
    excursion: real)
}
