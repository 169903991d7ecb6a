/** Symbol table shared by the server and the client, the cell and outcome
    values exchanged between them, and JavaScript's `Math.round`. */
module SharedUtils {

  const TILE_BULBASAUR: int := 1
  const TILE_PIKACHU: int := 2
  const TILE_CHARMANDER: int := 3
  const TILE_SQUIRTLE: int := 4
  const TILE_EEVEE: int := 5
  const TILE_BALL: int := 6

  /** The symbol codes the server draws from, in draw order. */
  const TILES_ARRAY: seq<int> :=
    [TILE_BULBASAUR, TILE_PIKACHU, TILE_CHARMANDER, TILE_SQUIRTLE, TILE_EEVEE, TILE_BALL]

  /** A board cell. `Missing` is the JavaScript `undefined` that an
      out-of-range index into TILES_ARRAY yields; the JSON encoding sends it
      to the client as `null`. */
  datatype Cell = Symbol(code: int) | Missing

  /** One spin result as the server sends it. */
  datatype GameOutcome = GameOutcome(board: seq<seq<Cell>>, smallWin: bool, bigWin: bool, bonus: bool)

  /** `getKeyValue(key)`: a projection that reads `key` out of any object
      that has it (the key type is constrained to the object's keys). */
  function GetKeyValue<K(!new), V(!new)>(key: K): (project: map<K, V> --> V)
    ensures forall obj: map<K, V> :: key in obj ==> project.requires(obj) && project(obj) == obj[key]
  {
    (obj: map<K, V>) requires key in obj => obj[key]
  }

  /** `TILES_ARRAY[i]`, where JavaScript answers `undefined` outside the array. */
  function TileAt(i: int): (c: Cell)
    ensures c.Symbol? <==> 0 <= i < |TILES_ARRAY|
    ensures c.Symbol? ==> c.code == i + 1
  {
    if 0 <= i < |TILES_ARRAY| then Symbol(TILES_ARRAY[i]) else Missing
  }

  /** JavaScript's `Math.round`: the nearest integer, halves rounded up. */
  function Round(x: real): (n: int)
    ensures n as real - 0.5 <= x < n as real + 0.5
  {
    (x + 0.5).Floor
  }

  /** The symbol table has six entries, entry i holds code i + 1, and the
      codes are strictly increasing (hence pairwise distinct). */
  lemma TilesArrayShape()
    ensures |TILES_ARRAY| == 6
    ensures forall i :: 0 <= i < |TILES_ARRAY| ==> TILES_ARRAY[i] == i + 1
    ensures forall i, j :: 0 <= i < j < |TILES_ARRAY| ==> TILES_ARRAY[i] < TILES_ARRAY[j]
  {
  }

  /** A value is a symbol of the table exactly when it is a code 1..6. */
  lemma SymbolMembership(v: int)
    ensures v in TILES_ARRAY <==> 1 <= v <= 6
  {
    if 1 <= v <= 6 {
      assert TILES_ARRAY[v - 1] == v;
    }
  }
}
