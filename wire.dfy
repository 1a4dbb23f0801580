/** The decoded JSON reply of the remote language model, described by what the
    scorer can observe of it. A value the scorer computes with is described by
    what Python's `float()` and a multiplication by a float make of it. */
module Wire {

  /** A key of a JSON object: missing, or present with a value. */
  datatype Field<T> = Absent | Present(value: T)

  /** A JSON value the scorer converts or multiplies: a number (or a boolean, as 0
      or 1), for which `float(v)` and `w * v` both give its value; a string that
      `float()` parses, for which `w * v` raises `TypeError`; or any other value,
      for which both raise. */
  datatype Num = Number(value: real) | NumericText(value: real) | NotNumeric

  /** An element of the `relevant_bus` array. */
  datatype RawBu =
    | BuObject(buId: Field<string>, relevance: Field<Num>)
    | BuNotObject

  /** The `relevant_bus` key: missing, a JSON array, or some other (truthy or falsy) value. */
  datatype RawBus =
    | BusAbsent
    | BusList(entries: seq<RawBu>)
    | BusNotList

  /** The `scores` key: missing, an object, or a value that has no `.get`. */
  datatype RawScores =
    | ScoresAbsent
    | ScoresObject(values: map<string, Num>)
    | ScoresNotObject

  /** The keys of one analysis object that validation reads. */
  datatype RawAnalysis = RawAnalysis(
    signalType: Field<string>,
    relevantBus: RawBus,
    scores: RawScores,
    headline: Field<string>,
    whatSummary: Field<string>,
    whyItMatters: Field<string>,
    quickWin: Field<string>,
    suggestedOwner: Field<string>,
    estimatedImpact: Field<string>,
    outreachTemplate: Field<string>)

  /** A decoded reply: an object, an array of replies, or any other JSON value. */
  datatype Reply =
    | ReplyObject(analysis: RawAnalysis)
    | ReplyArray(items: seq<Reply>)
    | ReplyScalar
}
