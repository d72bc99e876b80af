/** The bill record and the two fixed enumerations (src/types/bill.ts). */
module BillTypes {
  import opened Wrappers

  /** A calendar date as the JavaScript `Date` accessors report it: full year,
      zero-based month (0 is January) and day of the month. */
  datatype CalendarDate = CalendarDate(year: int, month0: int, day: int)

  /** `Date.parse(text)` together with `new Date(text)`: `None` stands for NaN
      (an Invalid Date), `Some(d)` for the local calendar date the text denotes.
      The runtime's parser is not part of this model, so every operation that
      needs it takes it as a parameter. */
  type DateParser = string -> Option<CalendarDate>

  /** The fields of a bill other than its id, `Omit<Bill, 'id'>`: what the form
      submits for a new bill and what the store validates. The amount is a
      number of currency units; `date` is the raw text the form collected. */
  datatype BillData = BillData(
    name: string,
    amount: real,
    date: string,
    category: string,
    frequency: string)

  /** A stored bill: the store-assigned id plus the five data fields. */
  datatype Bill = Bill(id: string, data: BillData)

  /** The category names, in the order the form lists them. */
  const Categories: seq<string> := [
    "Power", "Water", "Gas", "Rent", "Insurance", "Health Insurance",
    "Internet", "Streaming Subscription", "Gym", "Subscriptions", "Loans", "Other"
  ]

  /** The frequency names, in the order the form lists them. */
  const Frequencies: seq<string> := [
    "Weekly", "Fortnightly", "Monthly", "Quarterly", "Yearly", "One-time"
  ]

  /** A frequency string as the projector reads it: one of the six listed
      names, or any other text, which no branch of the projector matches. */
  datatype Frequency =
    | Weekly | Fortnightly | Monthly | Quarterly | Yearly | OneTime
    | Unknown(text: string)
  {
    predicate Known() { !Unknown? }
  }

  /** The text a frequency is stored as. */
  function FrequencyName(f: Frequency): (s: string)
    ensures f.Known() ==> s in Frequencies
  {
    match f
    case Weekly => "Weekly"
    case Fortnightly => "Fortnightly"
    case Monthly => "Monthly"
    case Quarterly => "Quarterly"
    case Yearly => "Yearly"
    case OneTime => "One-time"
    case Unknown(text) => text
  }

  /** Reads a stored frequency string with JavaScript's `===` comparison. */
  function ParseFrequency(s: string): (f: Frequency)
    ensures FrequencyName(f) == s
    ensures f.Known() <==> s in Frequencies
  {
    if s == "Weekly" then Weekly
    else if s == "Fortnightly" then Fortnightly
    else if s == "Monthly" then Monthly
    else if s == "Quarterly" then Quarterly
    else if s == "Yearly" then Yearly
    else if s == "One-time" then OneTime
    else Unknown(s)
  }

  /** Reading back the stored name of a listed frequency gives that frequency. */
  lemma ParseFrequencyName(f: Frequency)
    requires f.Known()
    ensures ParseFrequency(FrequencyName(f)) == f
  {
  }

  /** The frequency list holds exactly six distinct names, one per listed
      frequency, and its third entry is the form's default, Monthly. */
  lemma FrequenciesAreSix()
    ensures |Frequencies| == 6
    ensures forall i, j :: 0 <= i < j < |Frequencies| ==> Frequencies[i] != Frequencies[j]
    ensures forall i :: 0 <= i < |Frequencies| ==> ParseFrequency(Frequencies[i]).Known()
    ensures Frequencies[2] == FrequencyName(Monthly)
  {
  }

  /** The category list holds exactly twelve distinct names, Power first. */
  lemma CategoriesAreTwelve()
    ensures |Categories| == 12
    ensures forall i, j :: 0 <= i < j < |Categories| ==> Categories[i] != Categories[j]
    ensures Categories[0] == "Power"
  {
  }
}
