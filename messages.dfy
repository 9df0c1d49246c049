/**
 * What the commands write to the console, as tags and plain strings (no colour,
 * no caret or check-mark prefixes).
 */
module Messages {
  import Decimal

  datatype Message =
    | LogError(text: string)        // `log.error` / `utils.logError`, on stderr
    | LogSuccess(text: string)      // `log.success` / `utils.logSuccess`, on stdout
    | LogMeta(text: string)         // `log.meta`, on stdout
    | LogProgress(text: string)     // `log.progress`, on stdout
    | Preamble                      // `log.preamble()`: the CLI name and version
    | ErrLine(text: string)         // a bare `console.error` line
    | OutLine(text: string)         // a bare `console.log` line
    | AuthRequired                  // `messages.authRequired()`: where to find a deploy key
    | SecretAlreadyExists(name: string, value: string, deployKey: string)
    | SecretKeyInvalid

  /** `items.join(sep)`. */
  function Join(items: seq<string>, sep: string): string {
    if items == [] then ""
    else if |items| == 1 then items[0]
    else items[0] + sep + Join(items[1..], sep)
  }

  /** The entry `  n) text` of a numbered list. */
  function NumberedLine(n: nat, text: string): string {
    "  " + Decimal.NatToString(n) + ") " + text
  }

  /** Where a bare console line goes. */
  datatype Stream = Stdout | Stderr

  /** `console.log(text)` or `console.error(text)`. */
  function BareLine(stream: Stream, text: string): Message {
    match stream
    case Stdout => OutLine(text)
    case Stderr => ErrLine(text)
  }

  /** `items.forEach((item, idx) => console.<stream>(`  ${idx + from}) ${item}`))`. */
  function NumberedLines(items: seq<string>, from: nat, stream: Stream): (r: seq<Message>)
    ensures |r| == |items|
    ensures forall i :: 0 <= i < |items| ==> r[i] == BareLine(stream, NumberedLine(from + i, items[i]))
  {
    if items == [] then []
    else [BareLine(stream, NumberedLine(from, items[0]))] + NumberedLines(items[1..], from + 1, stream)
  }
}
