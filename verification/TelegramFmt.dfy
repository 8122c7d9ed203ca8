/** Telegram message plus entities to markup: the recursive formatter over the range tree, and the
    loop that feeds the tree. Markup is a token sequence; how a value spells its tags is abstract. */
module TelegramFmt {
  import opened Basics
  import opened BodyRanges
  import opened RangeTree

  datatype Token = Text(text: Utf16, inCode: bool) | Open(value: Value) | Close(value: Value)

  function Format(t: Tree, message: Utf16, inCode: bool): seq<Token>
    requires InBounds(t, |message|)
  {
    match t
    case Leaf => [Text(message, inCode)]
    case Node(n, sibling, child) =>
      var head, inner, tail := message[..n.start], message[n.start..n.End()], message[n.End()..];
      [Text(head, inCode), Open(n.value)]
      + Format(child, inner, inCode || IsCode(n.value))
      + ([Close(n.value)] + Format(sibling, tail, inCode))
  }

  /** `Format` as it walks the linked nodes. */
  method FormatTree(t: LinkedRangeTree?, message: Utf16, inCode: bool) returns (tokens: seq<Token>)
    requires t != null ==> t.Valid()
    requires InBounds(LinkedRangeTree.ModelOf(t), |message|)
    ensures tokens == Format(LinkedRangeTree.ModelOf(t), message, inCode)
    decreases LinkedRangeTree.ModelOf(t)
  {
    if t == null || t.node.None? {
      return [Text(message, inCode)];
    }
    var n := t.node.value;
    var head, inner, tail := message[..n.start], message[n.start..n.End()], message[n.End()..];
    var childTokens := FormatTree(t.child, inner, inCode || IsCode(n.value));
    var siblingTokens := FormatTree(t.sibling, tail, inCode);
    tokens := [Text(head, inCode), Open(n.value)] + childTokens + ([Close(n.value)] + siblingTokens);
  }

  // ----- What a reader of the markup sees -----

  /** One code unit as displayed: the elements it is inside of, outermost first, and whether it
      was escaped as code. */
  datatype Cell = Cell(unit: Unit, open: seq<Value>, inCode: bool)

  datatype Reading = Reading(cells: seq<Cell>, open: seq<Value>)

  function TextCells(text: Utf16, open: seq<Value>, inCode: bool): seq<Cell> {
    seq(|text|, i requires 0 <= i < |text| => Cell(text[i], open, inCode))
  }

  /** Reads markup with a stack of open elements. Fails on a close that does not match. */
  function Read(tokens: seq<Token>, open: seq<Value>): Option<Reading> {
    if tokens == [] then Some(Reading([], open))
    else
      match tokens[0]
      case Text(text, inCode) =>
        (match Read(tokens[1..], open)
         case None => None
         case Some(r) => Some(Reading(TextCells(text, open, inCode) + r.cells, r.open)))
      case Open(v) => Read(tokens[1..], open + [v])
      case Close(v) =>
        if open != [] && open[|open| - 1] == v then Read(tokens[1..], open[..|open| - 1]) else None
  }

  function Then(a: Option<Reading>, rest: seq<Token>): Option<Reading> {
    match a
    case None => None
    case Some(r) =>
      match Read(rest, r.open)
      case None => None
      case Some(r') => Some(Reading(r.cells + r'.cells, r'.open))
  }

  lemma {:induction false} ReadConcat(a: seq<Token>, b: seq<Token>, open: seq<Value>)
    ensures Read(a + b, open) == Then(Read(a, open), b)
  {
    if a == [] {
      assert a + b == b;
      var r := Read(b, open);
      assert r.Some? ==> [] + r.value.cells == r.value.cells;
    } else {
      assert (a + b)[0] == a[0] && (a + b)[1..] == a[1..] + b;
      match a[0]
      case Text(text, inCode) =>
        ReadConcat(a[1..], b, open);
        var first := TextCells(text, open, inCode);
        var r := Read(a[1..], open);
        if r.Some? && Read(b, r.value.open).Some? {
          var r' := Read(b, r.value.open);
          assert first + (r.value.cells + r'.value.cells) == first + r.value.cells + r'.value.cells;
        }
      case Open(v) => ReadConcat(a[1..], b, open + [v]);
      case Close(v) =>
        if open != [] && open[|open| - 1] == v {
          ReadConcat(a[1..], b, open[..|open| - 1]);
        }
    }
  }

  predicate HasCode(values: seq<Value>) {
    exists v <- values :: IsCode(v)
  }

  function CellAt(t: Tree, unit: Unit, p: int, open: seq<Value>, inCode: bool): Cell {
    Cell(unit, open + OpenAt(t, p), inCode || HasCode(OpenAt(t, p)))
  }

  /** `cells` spell the message, each inside `open` and then exactly the values the tree opens there. */
  predicate Shows(cells: seq<Cell>, t: Tree, message: Utf16, open: seq<Value>, inCode: bool) {
    |cells| == |message| && forall i :: 0 <= i < |cells| ==> cells[i] == CellAt(t, message[i], i, open, inCode)
  }

  lemma CellInsideNode(t: Tree, unit: Unit, p: int, open: seq<Value>, inCode: bool)
    requires t.Node? && t.range.Covers(p)
    ensures var v := t.range.value;
            CellAt(t, unit, p, open, inCode)
            == CellAt(t.child, unit, p - t.range.start, open + [v], inCode || IsCode(v))
  {
    var v, inner := t.range.value, OpenAt(t.child, p - t.range.start);
    assert OpenAt(t, p) == [v] + inner && ([v] + inner)[0] == v;
    assert forall x :: x in [v] + inner <==> x == v || x in inner;
    assert open + ([v] + inner) == open + [v] + inner;
  }

  lemma CellBeforeNode(t: Tree, unit: Unit, p: int, open: seq<Value>, inCode: bool)
    requires t.Node? && p < t.range.start && 0 <= t.range.length
    ensures CellAt(t, unit, p, open, inCode) == Cell(unit, open, inCode)
  {
    assert OpenAt(t, p) == [] && open + [] == open && !HasCode([]);
  }

  lemma CellAfterNode(t: Tree, unit: Unit, p: int, open: seq<Value>, inCode: bool)
    requires t.Node? && t.range.End() <= p && 0 <= t.range.length
    ensures CellAt(t, unit, p, open, inCode) == CellAt(t.sibling, unit, p - t.range.End(), open, inCode)
  {
    assert OpenAt(t, p) == OpenAt(t.sibling, p - t.range.End());
  }

  lemma NodeShowsAt(t: Tree, message: Utf16, open: seq<Value>, inCode: bool, inner: seq<Cell>, tail: seq<Cell>, i: nat)
    requires t.Node? && InBounds(t, |message|) && i < |message|
    requires Shows(inner, t.child, message[t.range.start..t.range.End()], open + [t.range.value],
                   inCode || IsCode(t.range.value))
    requires Shows(tail, t.sibling, message[t.range.End()..], open, inCode)
    ensures (TextCells(message[..t.range.start], open, inCode) + inner + tail)[i]
         == CellAt(t, message[i], i, open, inCode)
  {
    var n := t.range;
    var head := TextCells(message[..n.start], open, inCode);
    if i < n.start {
      CellBeforeNode(t, message[i], i, open, inCode);
      assert (head + inner + tail)[i] == head[i];
    } else if i < n.End() {
      CellInsideNode(t, message[i], i, open, inCode);
      assert message[n.start..n.End()][i - n.start] == message[i];
      assert (head + inner + tail)[i] == inner[i - n.start];
    } else {
      CellAfterNode(t, message[i], i, open, inCode);
      assert message[n.End()..][i - n.End()] == message[i];
      assert (head + inner + tail)[i] == tail[i - n.End()];
    }
  }

  lemma NodeShows(t: Tree, message: Utf16, open: seq<Value>, inCode: bool, inner: seq<Cell>, tail: seq<Cell>)
    requires t.Node? && InBounds(t, |message|)
    requires Shows(inner, t.child, message[t.range.start..t.range.End()], open + [t.range.value],
                   inCode || IsCode(t.range.value))
    requires Shows(tail, t.sibling, message[t.range.End()..], open, inCode)
    ensures Shows(TextCells(message[..t.range.start], open, inCode) + inner + tail, t, message, open, inCode)
  {
    var cells := TextCells(message[..t.range.start], open, inCode) + inner + tail;
    forall i | 0 <= i < |cells|
      ensures cells[i] == CellAt(t, message[i], i, open, inCode)
    {
      NodeShowsAt(t, message, open, inCode, inner, tail, i);
    }
  }

  /** Text, then an element with balanced contents, then more balanced markup reads as the three in a row. */
  lemma ReadElement(head: Utf16, v: Value, within: seq<Token>, after: seq<Token>, open: seq<Value>, inCode: bool,
                    inner: seq<Cell>, tail: seq<Cell>)
    requires Read(within, open + [v]) == Some(Reading(inner, open + [v]))
    requires Read(after, open) == Some(Reading(tail, open))
    ensures Read([Text(head, inCode), Open(v)] + within + ([Close(v)] + after), open)
         == Some(Reading(TextCells(head, open, inCode) + inner + tail, open))
  {
    var start, close := [Text(head, inCode), Open(v)], [Close(v)] + after;
    var cells := TextCells(head, open, inCode);
    assert Read(start, open) == Some(Reading(cells, open + [v])) by {
      assert start[1..] == [Open(v)] && start[1..][1..] == [];
      assert Read(start[1..], open) == Some(Reading([], open + [v]));
      assert cells + [] == cells;
    }
    assert Read(close, open + [v]) == Some(Reading(tail, open)) by {
      assert close[0] == Close(v) && close[1..] == after && (open + [v])[..|open|] == open;
    }
    assert Read(start + within, open) == Some(Reading(cells + inner, open + [v])) by {
      ReadConcat(start, within, open);
    }
    ReadConcat(start + within, close, open);
  }

  /** The formatted text is balanced, its text tokens spell the message, and each position is inside
      exactly the values the tree opens there, in code mode iff one of them is code. */
  lemma {:induction false} FormatReads(t: Tree, message: Utf16, open: seq<Value>, inCode: bool)
    requires InBounds(t, |message|)
    ensures var r := Read(Format(t, message, inCode), open);
            r.Some? && r.value.open == open && Shows(r.value.cells, t, message, open, inCode)
  {
    match t
    case Leaf =>
      assert Format(t, message, inCode)[1..] == [];
      var cells := TextCells(message, open, inCode);
      assert cells + [] == cells;
    case Node(n, sibling, child) =>
      var v := n.value;
      var head, inner, tail := message[..n.start], message[n.start..n.End()], message[n.End()..];
      var within, after := Format(child, inner, inCode || IsCode(v)), Format(sibling, tail, inCode);
      FormatReads(child, inner, open + [v], inCode || IsCode(v));
      FormatReads(sibling, tail, open, inCode);
      var innerCells, tailCells := Read(within, open + [v]).value.cells, Read(after, open).value.cells;
      ReadElement(head, v, within, after, open, inCode, innerCells, tailCells);
      NodeShows(t, message, open, inCode, innerCells, tailCells);
  }

  // ----- The conversion loop -----

  datatype EntityKind =
    | AtMention
    | NamedMention(userID: int)
    | Link
    | TextLink(url: string)
    | Preformatted(language: string)
    | Emoji(documentID: int)
    | Plain(style: StyleType)
    | Unsupported

  datatype Entity = Entity(offset: int, length: int, kind: EntityKind) {
    predicate Covers(p: int) { offset <= p < offset + length }
  }

  /** The lookups conversion depends on: who a mention is, and how links and emojis are written. */
  datatype Params = Params(byUsername: Utf16 -> Option<string>, byID: int -> Option<string>,
                           normalizeText: Utf16 -> string, normalizeURL: string -> string, emoji: int -> string)

  /** A mention or link reads its own text, so it has to lie within the message. */
  predicate Sliceable(e: Entity, message: Utf16) {
    match e.kind
    case AtMention => 0 <= e.offset + 1 <= e.offset + e.length <= |message|
    case Link => 0 <= e.offset <= e.offset + e.length <= |message|
    case _ => true
  }

  /** The value of an entity, or None when it is skipped. */
  function Resolve(e: Entity, message: Utf16, params: Params): Option<Value>
    requires Sliceable(e, message)
  {
    match e.kind
    case AtMention =>
      var username := message[e.offset + 1..e.offset + e.length];
      (match params.byUsername(username)
       case None => None
       case Some(mxid) => Some(Mention(mxid, username)))
    case NamedMention(userID) =>
      (match params.byID(userID)
       case None => None
       case Some(mxid) => Some(Mention(mxid, [])))
    case Link => Some(Style(URL, params.normalizeText(message[e.offset..e.offset + e.length])))
    case TextLink(url) => Some(Style(URL, params.normalizeURL(url)))
    case Preformatted(language) => Some(Style(Pre, language))
    case Emoji(documentID) => Some(Style(CustomEmoji, params.emoji(documentID)))
    case Plain(style) => Some(Style(style, ""))
    case Unsupported => None
  }

  function Ranges(es: seq<Entity>, message: Utf16, params: Params): seq<BodyRange>
    requires forall e <- es :: Sliceable(e, message)
  {
    if es == [] then []
    else
      var e := es[|es| - 1];
      Ranges(es[..|es| - 1], message, params) +
      (match Resolve(e, message, params)
       case None => []
       case Some(v) => [BodyRange(e.offset, e.length, v).TruncateEnd(|message|)])
  }

  function TreeOf(es: seq<Entity>, message: Utf16, params: Params): Tree
    requires forall e <- es :: Sliceable(e, message)
  {
    Build(Ranges(es, message, params))
  }

  function Mentions(es: seq<Entity>, message: Utf16, params: Params): set<string>
    requires forall e <- es :: Sliceable(e, message)
  {
    set i | 0 <= i < |es| && Resolve(es[i], message, params).Some? && Resolve(es[i], message, params).value.Mention?
      :: Resolve(es[i], message, params).value.mxid
  }

  datatype Content = Content(body: Utf16, formatted: Option<seq<Token>>, mentions: set<string>)

  method Parse(message: Utf16, entities: seq<Entity>, params: Params) returns (content: Content)
    requires forall e <- entities :: Sliceable(e, message)
    // Formatting slices the message at the bounds of every node.
    requires InBounds(TreeOf(entities, message, params), |message|)
    ensures content.body == message && content.mentions == Mentions(entities, message, params)
    ensures entities == [] ==> content.formatted.None?
    ensures entities != [] ==>
              content.formatted == Some(Format(TreeOf(entities, message, params), message, false))
  {
    if entities == [] {
      return Content(message, None, {});
    }
    var lrt := new LinkedRangeTree();
    var mentions: set<string> := {};
    var i := 0;
    while i < |entities|
      invariant 0 <= i <= |entities|
      invariant lrt.Valid() && fresh(lrt.Repr)
      invariant lrt.Model() == TreeOf(entities[..i], message, params)
      invariant mentions == Mentions(entities[..i], message, params)
    {
      var e := entities[i];
      EntityStep(entities, i, message, params);
      var value := Resolve(e, message, params);
      i := i + 1;
      if value.None? {
        continue;
      }
      if value.value.Mention? {
        mentions := mentions + {value.value.mxid};
      }
      lrt.Add(BodyRange(e.offset, e.length, value.value).TruncateEnd(|message|));
    }
    assert entities[..i] == entities;
    var tokens := FormatTree(lrt, message, false);
    content := Content(message, Some(tokens), mentions);
  }

  lemma EntityStep(es: seq<Entity>, i: nat, message: Utf16, params: Params)
    requires i < |es| && forall e <- es :: Sliceable(e, message)
    ensures var v, tree := Resolve(es[i], message, params), TreeOf(es[..i], message, params);
            && TreeOf(es[..i + 1], message, params)
               == (if v.None? then tree
                   else Insert(tree, BodyRange(es[i].offset, es[i].length, v.value).TruncateEnd(|message|)))
            && Mentions(es[..i + 1], message, params)
               == Mentions(es[..i], message, params) + if v.Some? && v.value.Mention? then {v.value.mxid} else {}
  {
    var more, v, rs := es[..i + 1], Resolve(es[i], message, params), Ranges(es[..i], message, params);
    assert more[..i] == es[..i] && more[i] == es[i];
    if v.Some? {
      var r := BodyRange(es[i].offset, es[i].length, v.value).TruncateEnd(|message|);
      assert Ranges(more, message, params) == rs + [r] && (rs + [r])[..|rs|] == rs;
    } else {
      assert Ranges(more, message, params) == rs;
    }
  }

  /** The values of the entities that cover position `p`, as Telegram sent them. */
  function EntitiesAt(es: seq<Entity>, message: Utf16, params: Params, p: int): seq<Value>
    requires forall e <- es :: Sliceable(e, message)
  {
    if es == [] then []
    else
      var e := es[|es| - 1];
      var v := Resolve(e, message, params);
      EntitiesAt(es[..|es| - 1], message, params, p) + if v.Some? && e.Covers(p) then [v.value] else []
  }

  lemma {:induction false} RangesStyles(es: seq<Entity>, message: Utf16, params: Params, p: nat)
    requires (forall e <- es :: Sliceable(e, message)) && p < |message|
    ensures StylesAt(Ranges(es, message, params), p) == EntitiesAt(es, message, params, p)
  {
    if es != [] {
      var front, e := es[..|es| - 1], es[|es| - 1];
      RangesStyles(front, message, params, p);
      var v, rs := Resolve(e, message, params), Ranges(front, message, params);
      if v.Some? {
        var r := BodyRange(e.offset, e.length, v.value).TruncateEnd(|message|);
        StylesAtConcat(rs, [r], p);
        assert StylesAt([r], p) == if e.Covers(p) then [v.value] else [];
      } else {
        assert rs + [] == rs;
      }
    }
  }

  /** Entities as Telegram lists them: by offset, starting within the message. They may run past its end. */
  predicate Listed(es: seq<Entity>, message: Utf16) {
    && (forall e <- es :: Sliceable(e, message))
    && (forall i :: 0 <= i < |es| ==> 0 <= es[i].offset <= |message| && 0 <= es[i].length)
    && (forall i, j :: 0 <= i < j < |es| ==> es[i].offset <= es[j].offset)
  }

  lemma {:induction false} ListedRanges(es: seq<Entity>, message: Utf16, params: Params)
    requires Listed(es, message)
    ensures var rs := Ranges(es, message, params);
            AllInside(rs, |message|) && Sorted(rs) && forall i :: 0 <= i < |rs| ==> rs[i].start <= LastOffset(es)
  {
    if es != [] {
      var front, e := es[..|es| - 1], es[|es| - 1];
      ListedRanges(front, message, params);
      assert LastOffset(front) <= e.offset;
    }
  }

  function LastOffset(es: seq<Entity>): int {
    if es == [] then 0 else es[|es| - 1].offset
  }

  /** From entities to what a reader sees: `Parse` accepts every listed message, its markup is balanced
      and spells the message, and each position is inside exactly the entities covering it, outermost
      in listed order, in code mode iff some code or pre entity covers it. */
  lemma ParseMeaning(es: seq<Entity>, message: Utf16, params: Params)
    requires Listed(es, message)
    ensures InBounds(TreeOf(es, message, params), |message|)
    ensures var r := Read(Format(TreeOf(es, message, params), message, false), []);
            && r.Some? && r.value.open == [] && |r.value.cells| == |message|
            && forall i :: 0 <= i < |message| ==>
                 var covering := EntitiesAt(es, message, params, i);
                 r.value.cells[i] == Cell(message[i], covering, HasCode(covering))
  {
    var rs := Ranges(es, message, params);
    ListedRanges(es, message, params);
    SortedFits(rs, |message|);
    BuildInBounds(rs, |message|);
    FormatReads(Build(rs), message, [], false);
    var cells := Read(Format(Build(rs), message, false), []).value.cells;
    forall i | 0 <= i < |message|
      ensures var covering := EntitiesAt(es, message, params, i);
              cells[i] == Cell(message[i], covering, HasCode(covering))
    {
      BuildOpens(rs, |message|, i);
      RangesStyles(es, message, params, i);
      assert cells[i] == CellAt(Build(rs), message[i], i, [], false);
      assert [] + OpenAt(Build(rs), i) == OpenAt(Build(rs), i);
    }
  }
}
