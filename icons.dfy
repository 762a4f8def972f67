/** The `weatherIconId` helper: the mapping from a forecast's numeric weather
    symbol code to one of seven icons. */
module Icons {

  /** A forecast record's `symbol`; only its `number` is read here. */
  datatype Symbol = Symbol(number: int)

  /** The seven icon ids. */
  const IconIds: set<int> := {5, 7, 8, 10, 12, 13, 14}

  /** The icon classes as a table, independent of the switch below: `code`
      is drawn with icon `id` (no code is, for a number that is not an icon
      id). */
  predicate InIconClass(id: int, code: int) {
    match id
    case 5 => code == 5 || code == 9 || code == 22
    case 7 =>
      code == 7 || code == 20 || code == 23 || code == 24 || code == 26 || code == 30 ||
      code == 31 || code == 40 || code == 42 || code == 46 || code == 47
    case 8 => code == 8 || code == 21 || code == 28 || code == 33 || code == 44 || code == 49
    case 10 => code == 10 || code == 25 || code == 41
    case 12 => code == 12 || code == 27 || code == 32 || code == 43 || code == 48
    case 13 => code == 13 || code == 29 || code == 45 || code == 50
    case 14 => code == 14 || code == 34
    case _ => false
  }

  /** True when no icon class lists `code`. */
  predicate Unlisted(code: int) {
    forall id | id in IconIds :: !InIconClass(id, code)
  }

  /** The switch on `symbol.number`: a listed code gives its class's icon id,
      any other code is returned unchanged (there is no error case). */
  function WeatherIconId(symbol: Symbol): (r: int)
    ensures forall id | id in IconIds :: r == id <==> InIconClass(id, symbol.number)
    ensures r in IconIds || r == symbol.number
  {
    match symbol.number
    case 5 | 9 | 22 => 5
    case 7 | 20 | 24 | 23 | 26 | 30 | 31 | 40 | 42 | 46 | 47 => 7
    case 8 | 21 | 28 | 33 | 44 | 49 => 8
    case 10 | 25 | 41 => 10
    case 12 | 27 | 32 | 43 | 48 => 12
    case 13 | 29 | 45 | 50 => 13
    case 14 | 34 => 14
    case _ => symbol.number
  }

  /** Every icon id is a member of its own class, and no code is in two
      classes, so the table is a partition of the listed codes. */
  lemma IconClassesPartition()
    ensures forall id | id in IconIds :: InIconClass(id, id)
    ensures forall id1, id2, code | id1 in IconIds && id2 in IconIds &&
      InIconClass(id1, code) && InIconClass(id2, code) :: id1 == id2
  {
  }

  /** A code that no class lists is returned unchanged: unknown codes are
      not an error. */
  lemma UnlistedCodeUnchanged(symbol: Symbol)
    requires Unlisted(symbol.number)
    ensures WeatherIconId(symbol) == symbol.number
  {
  }

  /** Mapping an icon id again gives the same icon id. */
  lemma WeatherIconIdIdempotent(symbol: Symbol)
    ensures WeatherIconId(Symbol(WeatherIconId(symbol))) == WeatherIconId(symbol)
  {
  }
}
