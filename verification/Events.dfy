/** What a running reply emits (packages/core/agent/harness.py) and what is stored with it. */
module Events {

  predicate IsNumeral(s: string) {
    s != "" && forall k :: 0 <= k < |s| ==> NumeralChar(s[k])
  }

  predicate NumeralChar(c: char) {
    '0' <= c <= '9' || c == '+' || c == '-' || c == '.' || c == 'e' || c == 'E'
  }

  /** The text of a JSON number. */
  type Numeral = s: string | IsNumeral(s) witness "0"

  /** One retrieved passage; `distance` is a float, only carried. */
  datatype Source = Source(documentId: string, filename: string, chunkIdx: nat, excerpt: string, distance: Numeral)

  datatype Event =
    | Content(text: string)
    | Retract(text: string)
    | Status(text: string)
    | Sources(batch: seq<Source>)
}
