/** The two directions of the text conversion meet: what is sent as an entity comes back as what it was. */
module TextRoundTrip {
  import opened Basics
  import opened BodyRanges
  import EntityStrings
  import TelegramFmt

  /** How Telegram lists what was sent; users and emojis have numbers there. */
  function AsListed(kind: EntityStrings.TelegramKind, userNumber: string -> int, emojiNumber: string -> int)
    : TelegramFmt.EntityKind
  {
    match kind
    case MentionText => TelegramFmt.AtMention
    case MentionName(user) => TelegramFmt.NamedMention(userNumber(user))
    case PreCode(language) => TelegramFmt.Preformatted(language)
    case TextLink(url) => TelegramFmt.TextLink(url)
    case EmojiFile(document) => TelegramFmt.Emoji(emojiNumber(document))
    case Plain(style) => if style == URL then TelegramFmt.Link else TelegramFmt.Plain(style)
  }

  /** A value, sent as an entity over a stretch of a message and received again: a style is the same style, code
      has its language, a link its address as the bridge writes addresses, a link without an address of its own
      that of its text; a mention is one of whoever the lookup of its name or number finds, if anybody. */
  lemma SentComesBack(v: Value, message: Utf16, offset: nat, length: nat, params: TelegramFmt.Params,
                      userNumber: string -> int, emojiNumber: string -> int)
    requires EntityStrings.ToKind(v).Some? && 1 <= length && offset + length <= |message|
    ensures var e := TelegramFmt.Entity(offset, length, AsListed(EntityStrings.ToKind(v).value, userNumber, emojiNumber));
            var back := TelegramFmt.Resolve(e, message, params);
            match v
            case Style(Pre, language) => back == Some(v)
            case Style(TextURL, url) => back == Some(Style(URL, params.normalizeURL(url)))
            case Style(URL, _) => back == Some(Style(URL, params.normalizeText(message[offset..offset + length])))
            case Style(CustomEmoji, document) => back == Some(Style(CustomEmoji, params.emoji(emojiNumber(document))))
            case Style(kind, _) => back == Some(Style(kind, ""))
            case Mention(id, username) =>
              var name := message[offset + 1..offset + length];
              var found := if username != [] then params.byUsername(name) else params.byID(userNumber(id));
              back == if found.None? then None else Some(Mention(found.value, if username != [] then name else []))
  {
  }

  /** What is not shown at all: an entity that is not supported, and a mention of nobody known. */
  lemma NotShown(e: TelegramFmt.Entity, message: Utf16, params: TelegramFmt.Params)
    requires TelegramFmt.Sliceable(e, message)
    ensures TelegramFmt.Resolve(e, message, params).None? <==>
            || e.kind.Unsupported?
            || (e.kind.AtMention? && params.byUsername(message[e.offset + 1..e.offset + e.length]).None?)
            || (e.kind.NamedMention? && params.byID(e.kind.userID).None?)
  {
  }
}
