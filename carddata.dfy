/** One catalogue entry, as loaded from the data file; the field names are its JSON keys. */
module CardData {

  datatype Record = Record(
    number: string,
    title: string,
    description: string,
    sector: string,
    phaseTitle: string,
    ai1: string,         // an AI capability tag; "" means the slot is empty
    ai2: string,
    ai3: string,
    challenge: string,   // "" means no challenge
    Impact: int,
    AISuitability: int,
    Novelty: int
  )
}
