/** Styled stretches of a message, shared by both directions of the text conversion.
    Positions count UTF-16 code units, as Telegram's entities do. */
module BodyRanges {

  newtype Unit = u: int | 0 <= u < 0x1_0000

  type Utf16 = seq<Unit>

  datatype StyleType =
    | Bold | Italic | Underline | Strikethrough | Blockquote | Code | Pre | Email | TextURL | URL
    | CustomEmoji | BotCommand | Hashtag | Cashtag | Phone | Spoiler | BankCard | FormattedDate

  datatype Value =
    | Mention(mxid: string, username: Utf16)
    | Style(kind: StyleType, detail: string)

  predicate IsCode(v: Value) {
    v.Style? && (v.kind == Code || v.kind == Pre)
  }

  datatype BodyRange = BodyRange(start: int, length: int, value: Value) {

    function End(): int { start + length }

    function Offset(offset: int): BodyRange { this.(start := start + offset) }

    function TruncateStart(startAt: int): BodyRange {
      if start < startAt then this.(start := startAt, length := length - (startAt - start)) else this
    }

    function TruncateEnd(maxEnd: int): BodyRange {
      if End() > maxEnd then this.(length := maxEnd - start) else this
    }

    predicate Covers(p: int) { start <= p < End() }
  }

  /** The meaning of a list of ranges: which values style position `p`, in list order. */
  function StylesAt(ranges: seq<BodyRange>, p: int): seq<Value> {
    if ranges == [] then []
    else (if ranges[0].Covers(p) then [ranges[0].value] else []) + StylesAt(ranges[1..], p)
  }

  lemma {:induction false} StylesAtConcat(a: seq<BodyRange>, b: seq<BodyRange>, p: int)
    ensures StylesAt(a + b, p) == StylesAt(a, p) + StylesAt(b, p)
  {
    if a == [] {
      assert a + b == b;
    } else {
      var head := if a[0].Covers(p) then [a[0].value] else [];
      assert (a + b)[0] == a[0] && (a + b)[1..] == a[1..] + b;
      StylesAtConcat(a[1..], b, p);
      assert head + (StylesAt(a[1..], p) + StylesAt(b, p)) == head + StylesAt(a[1..], p) + StylesAt(b, p);
    }
  }
}
