# Ledger text parser, modelled in Dafny

This project models the parser of ledger journal text. It reads transaction
headers, accounts, amounts, prices and price databases from plain text. The
original parser is a set of parser combinators written with the combine 1.x
library. Every parser takes a cursor (the remaining text and the current line
number) and returns a value with the remaining text, or a failure. Failures
report whether input was consumed. A failure after consumption is never
backtracked by `or`, `optional` or `many`.

The model keeps that shape. Each production is a pure function from a
`State(text, line)` to a `Reply<T>`:

- `Ok(value, tag, rest)` is a success.
- `Fail(tag, left)` is a failure with the number of characters left at the
  failure point.
- `Abort(left)` stands for a panic.

The `tag` is `Consumed` or `Empty`, as in combine. The invariant `Sound`
relates a reply to its input, and every production ensures it:

- an empty success leaves the state unchanged;
- a consuming success moves to a proper suffix, and the consumed text followed
  by the rest is the input;
- the line counter advances by the line feeds consumed;
- an empty failure is reported at the start of the input.

Modules, one per layer of the grammar:

- `Parsing`: the combinators (sequence, `or`, `optional`, `many`, `many1`,
  `map`, `char`, `satisfy`) and the `Sound` invariant.
- `Lexers`: `line_number`, `whitespace`, `.skip(whitespace)`, `line_ending`
  and `two_digits`.
- `Types`: the records `AmountFormat`, `TransactionStatus`, `Date`, `Header`,
  `Symbol`, `Amount` and `Price`.
- `Dates`, `Headers`, `Accounts`, `Amounts`, `Prices`: the productions. Each is
  given a reference definition of what it accepts and a writer (`DateText`,
  `HeaderText`, `AccountText`, `AmountText`, `PriceText`, `PriceDbText`).
  A round-trip lemma states that the production reads back what the writer
  wrote.
- `Cases`: the examples of the source's own tests, derived from the round
  trips.

## Model

| member | source | states |
|---|---|---|
| Lexers.LineNumber | src/main.rs:64-67 | The current line is returned and no input is consumed. |
| Lexers.Whitespace | src/main.rs:81-85 | Fails, without consuming, exactly on empty input or input that does not start with a space or tab. Otherwise it returns the whole non-empty run of spaces and tabs, and what follows does not start with one. |
| Lexers.SkipBlank | src/main.rs:352-354 | `p.skip(whitespace)` succeeds exactly when `p` succeeds and a blank follows. It keeps `p`'s value and drops all the blanks. A failure after `p` consumed counts as consumed. |
| Lexers.SkipOneBlank | src/main.rs:352-354 | A production followed by one blank and a non-blank keeps its value, and the rest starts after the blank. |
| Lexers.Crlf | src/main.rs:119 | Succeeds exactly on "\r\n" and yields a line feed. A lone carriage return fails after consumption. |
| Lexers.LineEnding | src/main.rs:117-124 | Succeeds exactly on "\n" or "\r\n" and always yields "\n" (tests 126-140). It consumes exactly those characters. It fails without consuming exactly when the input starts with neither a carriage return nor a line feed. |
| Lexers.TwoDigitsToInt | src/main.rs:145-149 | The result lies in 0..99, with the tens digit and the units digit as its quotient and remainder by 10. |
| Lexers.TwoDigitsToIntRoundTrip | src/main.rs:145-149 | Every number in 0..99 is read back from its two digits. |
| Lexers.TwoDigitsToIntInjective | src/main.rs:145-149 | Two different digit pairs never give the same number. |
| Lexers.TwoDigits | src/main.rs:160-169 | Succeeds exactly on two digits and returns their two-digit value. It fails without consuming exactly when the first character is not a digit. |
| Dates.Decimal | src/main.rs:187 | The decimal numeral of a natural number is non-empty, all digits, and reads back as that number. |
| Dates.ParseI32 | src/main.rs:187 | The string-to-i32 conversion succeeds exactly on a non-empty run of digits whose value is at most 2^31-1, and then returns that value. |
| Dates.DashTwoDigits | src/main.rs:184 | A dash and two digits give the two-digit value. It fails without consuming exactly when there is no dash. |
| Dates.MonthDay | src/main.rs:184 | Succeeds exactly on "-dd-dd" and returns month and day as two-digit values, with no calendar range check. |
| Dates.ParseDate | src/main.rs:182-193 | Succeeds only after consuming. It fails without consuming exactly when the input starts with neither a digit nor `-`. |
| Dates.DateAfterYearSpec | src/main.rs:184-190 | After the year digits, the reply succeeds or panics exactly when month and day are there. It panics exactly when the year does not convert. Otherwise the date is (year value, month, day). |
| Dates.ParseDateSpec | src/main.rs:182-193 | Against the reference `DatePattern`/`DateValue`, `date` succeeds or panics exactly on the date pattern. It panics exactly when the year digits are absent or exceed 2^31-1. Otherwise the year is the decimal value of the digit run and month and day are the two-digit fields. The rest starts after the day, and the date fits its field widths. |
| Dates.DateRoundTrip | src/main.rs:182-193 | Every date whose fields fit is read back from its text, whatever follows. |
| Headers.ParseStatus | src/main.rs:210-216 | `*` gives `Cleared`, `!` gives `Uncleared` (tests 218-232). Anything else fails without consuming. |
| Headers.StatusChar | src/main.rs:210-216 | Each status is written with `*` or `!`. |
| Headers.CodeBody | src/main.rs:239 | The code text is the longest run without a line break or `)`, and it must be followed by `)`. The value is exactly that run. |
| Headers.ParseCode | src/main.rs:237-242 | It fails without consuming exactly when the text does not start with `(`. The value contains no line break or `)`. |
| Headers.CodeRoundTrip | src/main.rs:237-242 | A parenthesised code is read back without its parentheses. The empty code "()" gives the empty text (tests 244-266). |
| Headers.ParsePayee | src/main.rs:271-275 | The payee is the longest non-empty run without `;` or a line break, trailing blanks included. It fails exactly on empty input or one starting with `;` or a line break (tests 277-307). |
| Headers.PayeeRoundTrip | src/main.rs:271-275 | A payee is read back up to the first `;` or line break. |
| Headers.ParseComment | src/main.rs:313-318 | A `;` and the rest of the line. The value drops the `;` and keeps a following blank, and the rest starts at the line end (tests 320-342). |
| Headers.CommentRoundTrip | src/main.rs:313-318 | A comment is read back up to the line break after it. |
| Headers.PayeeAndComment | src/main.rs:355-356 | The payee and an optional comment. The payee starts at the first character, and the reply ends at a line end. |
| Headers.PayeeAndCommentRoundTrip | src/main.rs:355-356 | A payee with or without a comment is read back, with `None` exactly when no comment was written. |
| Headers.CodePayeeComment | src/main.rs:354-356 | The optional code with its blanks, the payee and the optional comment. Without a code the payee starts where the text does. With a code the payee does not start with a blank. |
| Headers.CodePayeeCommentRoundTrip | src/main.rs:354-356 | An optional code, a payee and an optional comment are read back as written. |
| Headers.StatusToEnd | src/main.rs:353-356 | The status is the one its character denotes. Payee, code and comment obey their character classes, and the reply ends at a line end. |
| Headers.ParseHeader | src/main.rs:347-368 | The header carries the line it starts on. It fails without consuming exactly when the date cannot start. On success the header is one the grammar can produce, and it runs to the end of its line. |
| Headers.HeaderRoundTrip | src/main.rs:347-368 | Every producible header, written on a line, is read back with the line number where it starts. |
| Accounts.ParseSubAccount | src/main.rs:449-453 | The longest non-empty alphanumeric run; a leading digit is allowed (tests 455-469). It fails without consuming exactly when the text does not start with a letter or digit. |
| Accounts.ColonSubAccount | src/main.rs:476 | A colon followed by a sub-account. A colon without one fails after consumption. |
| Accounts.AccountTail | src/main.rs:476 | The sub-accounts after the first, each a non-empty alphanumeric name. It stops before anything but a colon. |
| Accounts.ParseAccount | src/main.rs:474-478 | At least one sub-account, each a non-empty alphanumeric name. The account never stops before a letter, a digit or a colon. |
| Accounts.AccountConsumed | src/main.rs:474-478 | Joining the sub-accounts with colons gives exactly the consumed text, in root-to-leaf order. |
| Accounts.AccountRoundTrip | src/main.rs:474-478 | Every list of sub-account names, joined by colons, is read back in order (tests 480-498). |
| Amounts.RemoveCommasKeeps | src/main.rs:524 | Removing commas leaves no comma and keeps every other character as often as it occurred. |
| Amounts.RemoveCommasAppend | src/main.rs:524 | Comma removal distributes over concatenation. |
| Amounts.RemoveCommasIdempotent | src/main.rs:524 | Removing commas twice is removing them once. |
| Amounts.RemoveOneComma | src/main.rs:524 | One grouping comma between comma-free texts is dropped. |
| Amounts.ParseSign | src/main.rs:505-511 | The optional minus sign is mapped to "-" or "" and consumed. |
| Amounts.WrittenValid | src/main.rs:503-527 | Removing the commas from a written quantity gives a producible quantity: an optional `-`, a digit, then only digits and dots. |
| Amounts.QuantityDigits | src/main.rs:512-515 | The first digit and the run of digits, commas and dots. It succeeds exactly when a digit comes first, and it stops before any other character. |
| Amounts.ParseQuantity | src/main.rs:503-527 | It fails without consuming exactly when the text starts with neither a digit nor `-`. A success stops before any digit, comma or dot. |
| Amounts.QuantitySpec | src/main.rs:503-527 | Against the reference `QuantityLength`, it succeeds exactly when a written quantity starts the text. It consumes all of it and returns it without commas. The value has no comma, and the number of dots is not checked. |
| Amounts.QuantityRoundTrip | src/main.rs:503-527 | Every written quantity is read back as its text without commas. |
| Amounts.NegativeQuantityExample | src/main.rs:547-554 | "-1,110.38" reads as "-1110.38". |
| Amounts.GroupedQuantityExample | src/main.rs:538-545 | "2,314" reads as "2314". |
| Amounts.QuotedSymbol | src/main.rs:568-576 | Succeeds exactly on `"`, a non-empty run without `"` or a line break, and a closing `"`. The value is that run with `quoted` set, and the rest starts after the closing quote. It fails without consuming exactly when the text does not start with `"`. |
| Amounts.UnquotedSymbol | src/main.rs:592-600 | The longest non-empty run without `-`, digits, `;`, space, `"`, tab or a line break, with `quoted` false. |
| Amounts.ParseSymbol | src/main.rs:638-643 | The quoted form is tried first. A symbol is quoted exactly when its text starts with `"`. It fails without consuming exactly when neither form can start. |
| Amounts.SymbolRoundTrip | src/main.rs:638-643 | Every producible symbol is read back from its text. |
| Amounts.OptionalBlanks | src/main.rs:672 | Whether blanks follow, exactly when the text starts with one. When they do, the whole run of them is consumed; otherwise nothing is. |
| Amounts.SymbolThenQuantity | src/main.rs:670-685 | The format is symbol-left. It fails without consuming exactly when no symbol can start. |
| Amounts.SymbolThenQuantitySpec | src/main.rs:670-685 | The symbol's own text comes first. The format has a space exactly when a blank follows that text. |
| Amounts.QuantityThenSymbol | src/main.rs:720-735 | The format is symbol-right. It fails without consuming exactly when the text starts with neither a digit nor `-`. |
| Amounts.SymbolThenQuantityValid | src/main.rs:670-685 | Every symbol-first amount read is one the grammar can produce. |
| Amounts.QuantityThenSymbolSpec | src/main.rs:720-735 | The value is the written quantity without its commas. The format has a space exactly when a blank follows the quantity, and the amount is producible. |
| Amounts.ParseAmount | src/main.rs:770-775 | The reply is the quantity-first form's exactly when the text starts with a digit or `-`, and the symbol-first form's otherwise. |
| Amounts.AmountSpec | src/main.rs:770-775 | The symbol is on the left exactly when the text does not start with a digit or `-`. The format has a space exactly when a blank follows the part written first, so the four formats are mutually exclusive. |
| Amounts.SymbolLeftReads | src/main.rs:670-685 | A symbol, an optional blank and a written quantity give the symbol-left amount. Its value has the commas dropped, and it is WithSpace exactly when the blank is there. |
| Amounts.SymbolRightReads | src/main.rs:720-735 | A written quantity, an optional blank and a symbol give the symbol-right amount. Its value has the commas dropped, and it is WithSpace exactly when the blank is there. |
| Amounts.QuantityFailsAt | src/main.rs:503-527 | On text that starts no written quantity, `quantity` fails at the start when there is no `-`. When a `-` has no digit after it, it fails just after the `-`, and that failure counts as consumed. |
| Amounts.SymbolLeftFailsAtQuantity | src/main.rs:670-685 | `amount` on a symbol, an optional blank and text that starts no quantity fails after consumption. The failure is reported where the quantity was expected (after its `-`, if any), not at the start of the amount. |
| Amounts.AmountRoundTrip | src/main.rs:770-775 | Every producible amount is read back from its text in its own format. |
| Prices.PriceMark | src/main.rs:815 | `P` followed by blanks, which are all consumed. |
| Prices.SymbolAndAmount | src/main.rs:817-818 | A symbol, blanks and an amount. It fails without consuming exactly when no symbol can start, and a success ends where the amount cannot continue. |
| Prices.DateSymbolAmount | src/main.rs:816-818 | A date, blanks, a symbol, blanks and an amount. It fails without consuming exactly when no date can start, and a success ends where the amount cannot continue. |
| Prices.ParsePrice | src/main.rs:812-826 | It fails without consuming exactly when the text does not start with `P`. A success ends where the amount cannot continue. |
| Prices.PriceValid | src/main.rs:812-826 | Every price read has a date, symbol and amount that their own grammars produce. |
| Prices.PriceRoundTrip | src/main.rs:812-826 | Every producible price is read back from `P`, its date, symbol and amount separated by one blank. |
| Prices.NextPrice | src/main.rs:859 | A line ending and the price on the next line. |
| Prices.PriceTail | src/main.rs:859 | The prices after the first. Every failure is a consumed failure. A success stops where no line break follows, and with no prices it consumes nothing. |
| Prices.NextPriceStep | src/main.rs:859 | A line ending followed by a price gives that price. A line ending followed by text that is not a price fails after consumption. |
| Prices.PriceTailBreak | src/main.rs:859 | Prices on lines, followed by a line break and no price, make the tail fail. |
| Prices.PriceEntries | src/main.rs:859 | It fails without consuming exactly when the text does not start with `P`. A success holds at least one price and is not followed by a line break. |
| Prices.ParsePriceDb | src/main.rs:857-861 | It gives no prices, consuming nothing, exactly when the text does not start with `P`, in particular on empty input (tests 863-869). Otherwise every failure is a consumed failure. |
| Prices.NextPriceCrlf | src/main.rs:859 | After a "\r\n" separator the next entry is read exactly as after "\n": the same reply, rest and line. |
| Prices.PriceTailCrlf | src/main.rs:859 | The entries after a "\r\n" separator are exactly those after a "\n" separator. |
| Prices.PriceTailRoundTrip | src/main.rs:859 | N prices, each after a line break, are read back in order. |
| Prices.PriceDbRoundTrip | src/main.rs:857-861 | N producible prices on N lines are read back as exactly those N prices in file order. Empty text gives none. |
| Prices.PriceDbTrailingBreak | src/main.rs:857-861 | A database whose last price is followed by a line break, with no price after it, fails as a whole after consumption. |
| Cases.DateExample | src/main.rs:195-205 | "2015-10-17" reads as year 2015, month 10, day 17. |
| Cases.FullHeaderExample | src/main.rs:370-388 | The full header line reads with code "conf# abc-123", payee "Payee " and comment "Comment". |
| Cases.CodeOnlyHeaderExample | src/main.rs:389-407 | The `!` header with a code reads with no comment. |
| Cases.CommentOnlyHeaderExample | src/main.rs:408-426 | The header with a comment reads with no code. |
| Cases.BareHeaderExample | src/main.rs:427-444 | The header with neither reads with both absent. |
| Cases.SymbolLeftNoSpaceExample | src/main.rs:687-700 | "$13,245.00" reads as 13245.00, `$`, SymbolLeftNoSpace. |
| Cases.SymbolLeftWithSpaceExample | src/main.rs:702-715 | "$ 13,245.00" reads as SymbolLeftWithSpace. |
| Cases.SymbolRightNoSpaceExample | src/main.rs:737-750 | "13,245.463AAPL" reads as SymbolRightNoSpace with `AAPL`. |
| Cases.SymbolRightWithSpaceExample | src/main.rs:752-765 | The quantity, a blank and the quoted fund reads as SymbolRightWithSpace. |
| Cases.AmountLeftExample | src/main.rs:777-790 | `amount` reads "$13,245.46" in the symbol-first form. |
| Cases.AmountRightExample | src/main.rs:792-805 | `amount` reads the quantity-first example in the quantity-first form. |
| Cases.SinglePrice | src/main.rs:828-852 | The price test line reads as the expected price. |
| Cases.SingleDb | src/main.rs:871-897 | The same line is a database of one price. |
| Cases.ThreeDb | src/main.rs:899-967 | Three price lines read as the three expected prices, in order. |

## Left out

- `main` (src/main.rs:971-983) is a console driver that prints a result. It is not modelled.
- Error reports: the combine library's messages, expectation labels and column positions are not modelled. A failure carries only its consumed/empty tag and the number of characters left.
- Line numbers are unbounded naturals, not `i32`. Only line feeds advance them, as in combine.
- `alpha_num()` (src/main.rs:451) is modelled on ASCII letters and digits. Rust's `char::is_alphanumeric` also accepts other Unicode letters and digits. The digit class is exact: combine's `digit()` and Rust's `is_digit(10)` (src/main.rs:164, 184, 513, 515) accept only `0` to `9`, as `IsDigit` does.
- Prices.PriceDbRoundTrip: stated for text whose lines are separated by "\n". Prices.NextPriceCrlf and Prices.PriceTailCrlf show that a "\r\n" separator reads exactly like "\n", one separator at a time. No lemma round-trips a whole database written with "\r\n".
- Failure positions: `Fail.left` carries the position for every failure, but contracts state it only as the `Sound` bound, in Headers.CodeBody, in Amounts.QuantityFailsAt and in Amounts.SymbolLeftFailsAtQuantity. No contract states the failure position of a header or a price.
- The date's `parse().unwrap()` panic (an empty year, or one above 2^31-1) is modelled as an explicit `Abort` reply. No production catches it.
- Quantities stay text. There is no numeric conversion, as in the source.
- Lexers.TwoDigitsToInt: requires two digits, because the source unwraps the digit conversions and panics otherwise. Its only caller passes digits.
- Headers.ParseCode: states only the character class of the value. The exact text and the closing parenthesis are stated by Headers.CodeBody and Headers.CodeRoundTrip.
- The transaction parser that would combine a header with postings is not part of the source, so it is not modelled.
