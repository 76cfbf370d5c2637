/** The records the ledger grammar produces. All of them are immutable values. */
module Types {
  import opened Parsing

  /** Where the symbol of an amount stands relative to its quantity, and whether
      blanks separate the two. */
  datatype AmountFormat =
    | SymbolLeftNoSpace
    | SymbolLeftWithSpace
    | SymbolRightNoSpace
    | SymbolRightWithSpace
  {
    predicate SymbolLeft() {
      this == SymbolLeftNoSpace || this == SymbolLeftWithSpace
    }

    predicate WithSpace() {
      this == SymbolLeftWithSpace || this == SymbolRightWithSpace
    }
  }

  /** `*` marks a cleared transaction, `!` an uncleared one. */
  datatype TransactionStatus = Cleared | Uncleared

  /** A calendar date as written; month and day are not range-checked. */
  datatype Date = Date(year: int, month: int, day: int)

  /** The first line of a transaction. */
  datatype Header = Header(
    lineNumber: int,
    date: Date,
    status: TransactionStatus,
    code: Option<string>,
    payee: string,
    comment: Option<string>)

  /** A currency or security name, and whether it was written between double quotes. */
  datatype Symbol = Symbol(value: string, quoted: bool)

  /** A quantity kept as exact decimal text (grouping commas removed), its symbol, and
      the layout it was written in. */
  datatype Amount = Amount(value: string, symbol: Symbol, format: AmountFormat)

  /** "`symbol` was worth `amount` on `date`". */
  datatype Price = Price(date: Date, symbol: Symbol, amount: Amount)
}
