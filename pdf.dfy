/** What a jsPDF `doc.text(text, x, y)` call puts on the page. Number formatting
    done by the browser (`toFixed(2)`, the rounded millimes) stays symbolic. */
module Pdf {

  datatype Piece =
    | Lit(s: string)           // literal characters
    | Fixed2(amount: real)     // `amount.toFixed(2)`
    | Millimes(amount: real)   // `Math.round((amount % 1) * 1000)`

  datatype TextCmd = TextCmd(text: seq<Piece>, x: int, y: int)

  /** `s || 'N/A'`. */
  function OrNA(s: string): string
  {
    if s == "" then "N/A" else s
  }
}
