/** What a symbol looks like, drawn row by row: '#' is a dark module, or one that a mask inverts. */
module QrFigures {

  /** A finder and the light ring around it, from one module above and to the left of its corner. */
  const FINDER: seq<string> := [
    ".........",
    ".#######.",
    ".#.....#.",
    ".#.###.#.",
    ".#.###.#.",
    ".#.###.#.",
    ".#.....#.",
    ".#######.",
    "........."]

  const ALIGNMENT: seq<string> := [
    "#####",
    "#...#",
    "#.#.#",
    "#...#",
    "#####"]

  /** The part of a mask that repeats over the whole symbol; numbers that name no mask stand for the last one. */
  function Tile(mask: int): (tile: seq<string>)
    ensures |tile| > 0 && |tile[0]| > 0
  {
    match mask
    case 0 =>
      ["#.",
       ".#"]
    case 1 =>
      ["#",
       "."]
    case 2 =>
      ["#.."]
    case 3 =>
      ["#..",
       "..#",
       ".#."]
    case 4 =>
      ["###...",
       "###...",
       "...###",
       "...###"]
    case 5 =>
      ["######",
       "#.....",
       "#..#..",
       "#.#.#.",
       "#..#..",
       "#....."]
    case 6 =>
      ["######",
       "###...",
       "##.##.",
       "#.#.#.",
       "#.##.#",
       "#...##"]
    case _ =>
      ["#.#.#.",
       "...###",
       "#...##",
       ".#.#.#",
       "###...",
       ".###.."]
  }

  predicate Inked(figure: seq<string>, x: int, y: int)
  {
    0 <= y < |figure| && 0 <= x < |figure[y]| && figure[y][x] == '#'
  }

  /** Whether a mask inverts the module in column x of row y. */
  predicate Inverts(mask: int, x: nat, y: nat)
  {
    Inked(Tile(mask), x % |Tile(mask)[0]|, y % |Tile(mask)|)
  }
}
