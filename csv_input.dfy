/** The customer export as both scripts see it: the file's text with an
    optional byte-order mark, and rows as column-name to cell maps (what
    `csv.DictReader` yields). */
module CsvInput {

  /** One data row of the export, keyed by the header's column names. */
  type Row = map<string, string>

  const Bom: char := '\U{FEFF}'

  const EmailColumn := "Email address"
  const NameColumn := "Customer name"
  const PhoneColumn := "Phone number"
  const LocationColumn := "Location"
  const PopupColumn := "Popup"
  const SubscriptionDateColumn := "Subscription date"

  predicate StartsWithBom(content: string) {
    |content| > 0 && content[0] == Bom
  }

  /** The text handed to the CSV reader: one leading U+FEFF dropped, nothing
      else touched. */
  function StripBom(content: string): (r: string)
    ensures StartsWithBom(content) ==> content == [Bom] + r
    ensures !StartsWithBom(content) ==> r == content
  {
    if StartsWithBom(content) then content[1..] else content
  }

  /** `row.get(key, default)` */
  function Get(row: Row, key: string, default: string): (r: string)
    ensures key in row ==> r == row[key]
    ensures key !in row ==> r == default
  {
    if key in row then row[key] else default
  }

}
