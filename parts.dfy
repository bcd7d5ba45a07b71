/** Catalog records of the switchgear parts database, as the selection
    algorithm reads them. The selection core never writes them: every
    query is a read over an immutable table, modelled as a sequence in
    the table's storage order. */
module Parts {

  datatype Option<+T> = None | Some(value: T)

  /** A starting method and its inclusive motor-power envelope in HP. */
  datatype StartingMethod = StartingMethod(
    name: string,
    description: string,
    minPowerHp: real,
    maxPowerHp: real,
    startingCurrentReduction: real,
    startingTorqueReduction: real,
    complexityLevel: int,
    costFactor: real)

  /** A contactor; `frameSize` is the key overload relays are matched on. */
  datatype Contactor = Contactor(
    model: string,
    manufacturer: string,
    currentRating: real,
    voltageRating: real,
    utilizationCategory: string,
    poles: int,
    frameSize: string,
    price: real)

  /** An overload relay. `compatibleFrames` is the already parsed JSON list
      of contactor frame sizes; an empty list means "any frame". */
  datatype OverloadRelay = OverloadRelay(
    model: string,
    manufacturer: string,
    rangeMin: real,
    rangeMax: real,
    tripClass: int,
    resetType: string,
    compatibleFrames: seq<string>,
    price: real)

  /** The three tables the selection algorithm queries. */
  datatype Catalog = Catalog(
    methods: seq<StartingMethod>,
    contactors: seq<Contactor>,
    relays: seq<OverloadRelay>)
}
