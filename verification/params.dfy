/** The parameter dictionary the simulation and the layer schemes consume
    (the keys `np`, `dz`, `dr`, `nz`, `nr`, `na`, `nl`, `n`, `mua`, `mus`,
    `g`, `d`), and the default stack of config.py. */
module Params {
  /** `photons` is the dictionary's `np` entry. `n` lists the ambient index
      above, the layers' indices and the ambient index below; `mua`, `mus`,
      `g` and `d` hold one entry per layer. */
  datatype InputData = InputData(
    photons: int, dz: real, dr: real, nz: nat, nr: nat, na: nat, nl: nat,
    n: seq<real>, mua: seq<real>, mus: seq<real>, g: seq<real>, d: seq<real>)
  {
    /** The photon count and the grid are those of `o`. */
    ghost predicate SameGrid(o: InputData)
    {
      photons == o.photons && dz == o.dz && dr == o.dr && nz == o.nz && nr == o.nr && na == o.na
    }
  }

  /** The shape the aggregation schemes index into: four tissue layers
      between two ambient media. */
  ghost predicate FourLayers(data: InputData)
  {
    && |data.n| == 6
    && |data.mua| == 4 && |data.mus| == 4 && |data.g| == 4 && |data.d| == 4
  }

  /** `DEFAULT_INPUT_DATA` (config.py:7-20). */
  const DefaultInput: InputData := InputData(
    50000, 0.2, 0.2, 10, 20, 30, 4,
    [1.0, 1.37, 1.43, 1.33, 1.37, 1.0],
    [0.018, 0.016, 0.004, 0.036],
    [19.0, 16.0, 2.4, 22.0],
    [0.9, 0.9, 0.9, 0.9],
    [0.3, 0.5, 0.2, 0.4])
}
