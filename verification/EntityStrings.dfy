/** Text with styled ranges, as the HTML of a Matrix message is turned into it. */
module EntityStrings {
  import opened Basics
  import opened BodyRanges

  /** The value of an entity string. */
  datatype Rich = Rich(text: Utf16, ranges: seq<BodyRange>)

  predicate Fits(e: BodyRange, n: nat) {
    0 <= e.start && 0 <= e.length && e.End() <= n
  }

  predicate InBounds(r: Rich) {
    AllFit(r.ranges, |r.text|)
  }

  predicate AllFit(ranges: seq<BodyRange>, n: nat) {
    forall i :: 0 <= i < |ranges| ==> Fits(ranges[i], n)
  }

  // ----- Cutting ranges -----

  /** The three ways a range is cut when its text is: to a piece of a split, to the trimmed text and to the
      first part of the text. */
  datatype Cut = Piece(from: int, to: int) | Trimmed(cutStart: int, cutEnd: int) | Prefix(end: int)
  {
    predicate Valid() {
      match this
      case Piece(from, to) => 0 <= from <= to
      case Trimmed(cutStart, cutEnd) => 0 <= cutStart <= cutEnd
      case Prefix(end) => 0 <= end
    }

    function Apply(e: BodyRange): BodyRange {
      match this
      case Piece(from, to) => e.TruncateStart(from).TruncateEnd(to).Offset(-from)
      case Trimmed(cutStart, cutEnd) => e.Offset(-cutStart).TruncateEnd(cutEnd)
      case Prefix(end) => e.TruncateEnd(end)
    }

    /** Where the kept text began, and how long it is. */
    function Begin(): int {
      match this
      case Piece(from, _) => from
      case Trimmed(cutStart, _) => cutStart
      case Prefix(_) => 0
    }

    function Length(): nat
      requires Valid()
    {
      match this
      case Piece(from, to) => to - from
      case Trimmed(cutStart, cutEnd) => cutEnd - cutStart
      case Prefix(end) => end
    }
  }

  function NonEmpty(e: BodyRange): seq<BodyRange> {
    if e.length > 0 then [e] else []
  }

  /** What is left of the ranges after the cut, in order. */
  function Kept(ranges: seq<BodyRange>, cut: Cut): seq<BodyRange> {
    if ranges == [] then []
    else Kept(ranges[..|ranges| - 1], cut) + NonEmpty(cut.Apply(ranges[|ranges| - 1]))
  }

  lemma {:induction false} KeptMember(ranges: seq<BodyRange>, cut: Cut, e: BodyRange)
    ensures e in Kept(ranges, cut) <==> e.length > 0 && exists o :: o in ranges && e == cut.Apply(o)
  {
    if ranges != [] {
      var n := |ranges| - 1;
      KeptMember(ranges[..n], cut, e);
      assert forall o :: o in ranges <==> o in ranges[..n] || o == ranges[n];
    }
  }

  lemma StylesLast(ranges: seq<BodyRange>, p: int)
    requires ranges != []
    ensures var n := |ranges| - 1;
            StylesAt(ranges, p) == StylesAt(ranges[..n], p) + if ranges[n].Covers(p) then [ranges[n].value] else []
  {
    var n := |ranges| - 1;
    assert ranges == ranges[..n] + [ranges[n]];
    StylesAtConcat(ranges[..n], [ranges[n]], p);
    assert [ranges[n]][1..] == [];
  }

  lemma CutCovers(cut: Cut, e: BodyRange, p: nat)
    requires cut.Valid() && p < cut.Length()
    ensures cut.Apply(e).Covers(p) <==> e.Covers(p + cut.Begin())
  {
  }

  /** Every cut keeps the styles of every position that is kept, in their order. */
  lemma {:induction false} KeptStyles(ranges: seq<BodyRange>, cut: Cut, p: nat)
    requires cut.Valid() && p < cut.Length()
    ensures StylesAt(Kept(ranges, cut), p) == StylesAt(ranges, p + cut.Begin())
  {
    if ranges != [] {
      var n := |ranges| - 1;
      var kept, last := Kept(ranges[..n], cut), cut.Apply(ranges[n]);
      assert Kept(ranges, cut) == kept + NonEmpty(last);
      assert StylesAt(kept, p) == StylesAt(ranges[..n], p + cut.Begin()) by {
        KeptStyles(ranges[..n], cut, p);
      }
      assert StylesAt(kept + NonEmpty(last), p) == StylesAt(kept, p) + if last.Covers(p) then [last.value] else [] by {
        StylesPush(kept, last, p);
      }
      CutCovers(cut, ranges[n], p);
      StylesLast(ranges, p + cut.Begin());
    }
  }

  lemma StylesPush(ranges: seq<BodyRange>, last: BodyRange, p: int)
    ensures StylesAt(ranges + NonEmpty(last), p) == StylesAt(ranges, p) + if last.Covers(p) then [last.value] else []
  {
    if last.length > 0 {
      StylesLast(ranges + [last], p);
      assert (ranges + [last])[..|ranges|] == ranges;
    } else {
      assert ranges + [] == ranges;
    }
  }

  /** A piece's ranges lie inside it, whatever the ranges were. */
  lemma PieceInBounds(r: Rich, from: nat, to: nat)
    requires from <= to <= |r.text|
    ensures InBounds(Rich(r.text[from..to], Kept(r.ranges, Piece(from, to))))
  {
    var kept := Kept(r.ranges, Piece(from, to));
    forall i | 0 <= i < |kept|
      ensures Fits(kept[i], to - from)
    {
      KeptMember(r.ranges, Piece(from, to), kept[i]);
    }
  }

  // ----- Substring, Append and Format -----

  function Shortened(r: Rich, end: nat): Rich {
    if end >= |r.text| then r else Rich(r.text[..end], Kept(r.ranges, Prefix(end)))
  }

  lemma SubstringKeeps(r: Rich, end: nat)
    ensures var s := Shortened(r, end);
            && s.text == r.text[..Min(end, |r.text|)] && (InBounds(r) ==> InBounds(s))
            && forall p: nat :: p < |s.text| ==> StylesAt(s.ranges, p) == StylesAt(r.ranges, p)
  {
    var s := Shortened(r, end);
    if end < |r.text| {
      forall p: nat | p < end
        ensures StylesAt(s.ranges, p) == StylesAt(r.ranges, p)
      {
        KeptStyles(r.ranges, Prefix(end), p);
      }
      forall i | 0 <= i < |s.ranges| && InBounds(r)
        ensures Fits(s.ranges[i], end)
      {
        KeptMember(r.ranges, Prefix(end), s.ranges[i]);
      }
    }
  }

  function Shifted(ranges: seq<BodyRange>, shift: int): seq<BodyRange> {
    if ranges == [] then [] else Shifted(ranges[..|ranges| - 1], shift) + [ranges[|ranges| - 1].Offset(shift)]
  }

  lemma {:induction false} ShiftedStyles(ranges: seq<BodyRange>, shift: int, p: int)
    ensures StylesAt(Shifted(ranges, shift), p) == StylesAt(ranges, p - shift)
  {
    if ranges != [] {
      var n := |ranges| - 1;
      var front, last := Shifted(ranges[..n], shift), ranges[n].Offset(shift);
      assert Shifted(ranges, shift) == front + [last];
      ShiftedStyles(ranges[..n], shift, p);
      StylesLast(ranges, p - shift);
      assert StylesAt(front + [last], p) == StylesAt(front, p) + if last.Covers(p) then [last.value] else [] by {
        assert (front + [last])[..|front|] == front;
        StylesLast(front + [last], p);
      }
    }
  }

  lemma {:induction false} ShiftedAt(ranges: seq<BodyRange>, shift: int)
    ensures |Shifted(ranges, shift)| == |ranges|
    ensures forall i :: 0 <= i < |ranges| ==> Shifted(ranges, shift)[i] == ranges[i].Offset(shift)
  {
    if ranges != [] {
      ShiftedAt(ranges[..|ranges| - 1], shift);
    }
  }

  function Appended(a: Rich, b: Rich): Rich {
    Rich(a.text + b.text, a.ranges + Shifted(b.ranges, |a.text|))
  }

  lemma {:induction false} StylesOutside(ranges: seq<BodyRange>, n: nat, p: int)
    requires AllFit(ranges, n)
    requires p < 0 || n <= p
    ensures StylesAt(ranges, p) == []
  {
    if ranges != [] {
      assert Fits(ranges[0], n) && forall i :: 0 <= i < |ranges| - 1 ==> ranges[1..][i] == ranges[i + 1];
      StylesOutside(ranges[1..], n, p);
    }
  }

  lemma AppendInBounds(a: Rich, b: Rich)
    requires InBounds(a) && InBounds(b)
    ensures InBounds(Appended(a, b))
  {
    ShiftedAt(b.ranges, |a.text|);
  }

  /** Appending keeps the styles of both, position by position. */
  lemma AppendKeeps(a: Rich, b: Rich, p: int)
    requires InBounds(a) && InBounds(b)
    ensures StylesAt(Appended(a, b).ranges, p) == if p < |a.text| then StylesAt(a.ranges, p) else StylesAt(b.ranges, p - |a.text|)
  {
    var n := |a.text|;
    StylesAtConcat(a.ranges, Shifted(b.ranges, n), p);
    ShiftedStyles(b.ranges, n, p);
    if p < n {
      StylesOutside(b.ranges, |b.text|, p - n);
    } else {
      StylesOutside(a.ranges, n, p);
    }
  }

  function Styled(r: Rich, value: Value): Rich {
    Rich(r.text, [BodyRange(0, |r.text|, value)] + r.ranges)
  }

  lemma FormatStyles(r: Rich, value: Value, p: int)
    ensures StylesAt(Styled(r, value).ranges, p) == (if 0 <= p < |r.text| then [value] else []) + StylesAt(r.ranges, p)
    ensures InBounds(r) ==> InBounds(Styled(r, value))
  {
    var first := [BodyRange(0, |r.text|, value)];
    StylesAtConcat(first, r.ranges, p);
    assert first[1..] == [];
  }

  // ----- Joining -----

  /** The non-empty strings one after the other, each followed by the separator. */
  function Joined(separator: Utf16, strings: seq<Rich>): Rich {
    if strings == [] then Rich([], [])
    else
      var last := strings[|strings| - 1];
      var before := Joined(separator, strings[..|strings| - 1]);
      if last.text == [] then before else Appended(Appended(before, last), Rich(separator, []))
  }

  lemma SeparatorAdds(r: Rich, separator: Utf16)
    ensures Appended(r, Rich(separator, [])) == Rich(r.text + separator, r.ranges)
  {
    assert Shifted([], |r.text|) == [];
  }

  lemma JoinStep(separator: Utf16, strings: seq<Rich>, k: nat)
    requires k < |strings|
    ensures var before, s := Joined(separator, strings[..k]), strings[k];
            Joined(separator, strings[..k + 1]) ==
              if s.text == [] then before
              else Rich(before.text + s.text + separator, before.ranges + Shifted(s.ranges, |before.text|))
  {
    assert strings[..k + 1][..k] == strings[..k];
    SeparatorAdds(Appended(Joined(separator, strings[..k]), strings[k]), separator);
  }

  lemma {:induction false} JoinInBounds(separator: Utf16, strings: seq<Rich>)
    requires forall i :: 0 <= i < |strings| ==> InBounds(strings[i])
    ensures InBounds(Joined(separator, strings))
  {
    if strings != [] {
      var n := |strings| - 1;
      JoinInBounds(separator, strings[..n]);
      AppendInBounds(Joined(separator, strings[..n]), strings[n]);
      AppendInBounds(Appended(Joined(separator, strings[..n]), strings[n]), Rich(separator, []));
    }
  }

  /** Adding one string and a separator, position by position. */
  lemma AddedKeeps(before: Rich, last: Rich, separator: Utf16, p: nat)
    requires InBounds(before) && InBounds(last)
    ensures var all := Appended(Appended(before, last), Rich(separator, []));
            StylesAt(all.ranges, p) == if p < |before.text| then StylesAt(before.ranges, p)
                                       else if p < |before.text| + |last.text| then StylesAt(last.ranges, p - |before.text|)
                                       else []
  {
    AppendKeeps(before, last, p);
    AppendInBounds(before, last);
    AppendKeeps(Appended(before, last), Rich(separator, []), p);
  }

  /** `part` stands at `at` in `all`, text and styles, as far as position `p` of it goes. */
  predicate StandsAt(all: Rich, at: nat, part: Rich, p: nat)
    requires p < |part.text|
  {
    at + p < |all.text| && all.text[at + p] == part.text[p] && StylesAt(all.ranges, at + p) == StylesAt(part.ranges, p)
  }

  lemma JoinGrows(separator: Utf16, strings: seq<Rich>, q: nat)
    requires strings != [] && forall i :: 0 <= i < |strings| ==> InBounds(strings[i])
    requires q < |Joined(separator, strings[..|strings| - 1]).text|
    ensures StandsAt(Joined(separator, strings), 0, Joined(separator, strings[..|strings| - 1]), q)
  {
    var n := |strings| - 1;
    JoinInBounds(separator, strings[..n]);
    AddedKeeps(Joined(separator, strings[..n]), strings[n], separator, q);
  }

  lemma JoinEnds(separator: Utf16, strings: seq<Rich>, p: nat)
    requires strings != [] && forall i :: 0 <= i < |strings| ==> InBounds(strings[i])
    requires strings[|strings| - 1].text != [] && p < |strings[|strings| - 1].text| + |separator|
    ensures var last := strings[|strings| - 1];
            StandsAt(Joined(separator, strings), |Joined(separator, strings[..|strings| - 1]).text|, Rich(last.text + separator, last.ranges), p)
  {
    var n := |strings| - 1;
    JoinInBounds(separator, strings[..n]);
    AddedAtEnd(Joined(separator, strings[..n]), strings[n], separator, p);
  }

  lemma TextAtEnd(a: Utf16, b: Utf16, c: Utf16, p: nat)
    requires p < |b| + |c|
    ensures (a + b + c)[|a| + p] == (b + c)[p]
  {
  }

  lemma AddedTextAt(before: Rich, last: Rich, separator: Utf16, p: nat)
    requires p < |last.text| + |separator|
    ensures var all := Appended(Appended(before, last), Rich(separator, []));
            |before.text| + p < |all.text| && all.text[|before.text| + p] == (last.text + separator)[p]
  {
    TextAtEnd(before.text, last.text, separator, p);
  }

  lemma AddedStylesAt(before: Rich, last: Rich, separator: Utf16, p: nat)
    requires InBounds(before) && InBounds(last)
    ensures StylesAt(Appended(Appended(before, last), Rich(separator, [])).ranges, |before.text| + p) == StylesAt(last.ranges, p)
  {
    AddedKeeps(before, last, separator, |before.text| + p);
    if p >= |last.text| {
      StylesOutside(last.ranges, |last.text|, p);
    }
  }

  lemma AddedAtEnd(before: Rich, last: Rich, separator: Utf16, p: nat)
    requires InBounds(before) && InBounds(last) && p < |last.text| + |separator|
    ensures StandsAt(Appended(Appended(before, last), Rich(separator, [])), |before.text|, Rich(last.text + separator, last.ranges), p)
  {
    AddedTextAt(before, last, separator, p);
    AddedStylesAt(before, last, separator, p);
  }

  /** String `k` with a separator without styles is found in the joined text right after the earlier ones. */
  lemma {:induction false} JoinKeeps(separator: Utf16, strings: seq<Rich>, k: nat, p: nat)
    requires (forall i :: 0 <= i < |strings| ==> InBounds(strings[i])) && k < |strings| && strings[k].text != []
    requires p < |strings[k].text| + |separator|
    ensures StandsAt(Joined(separator, strings), |Joined(separator, strings[..k]).text|, Rich(strings[k].text + separator, strings[k].ranges), p)
  {
    var n := |strings| - 1;
    if k == n {
      JoinEnds(separator, strings, p);
    } else {
      assert strings[..n][..k] == strings[..k];
      JoinKeeps(separator, strings[..n], k, p);
      JoinGrows(separator, strings, |Joined(separator, strings[..k]).text| + p);
    }
  }

  // ----- Splitting -----

  function PieceOf(r: Rich, from: nat, to: nat): Rich
    requires from <= to <= |r.text|
  {
    Rich(r.text[from..to], Kept(r.ranges, Piece(from, to)))
  }

  /** The pieces of the text before position `i`, cut after every separator. */
  function PiecesTo(r: Rich, at: Unit, i: nat): seq<Rich>
    requires i <= |r.text|
  {
    if i == 0 then []
    else if r.text[i - 1] != at then PiecesTo(r, at, i - 1)
    else PiecesTo(r, at, i - 1) + [PieceOf(r, PrevSplit(r.text, at, i - 1), i - 1)]
  }

  /** Where the piece that reaches `i` begins: behind the last separator before it. */
  function PrevSplit(text: Utf16, at: Unit, i: nat): (from: nat)
    requires i <= |text|
    ensures from <= i
  {
    if i == 0 then 0 else if text[i - 1] == at then i else PrevSplit(text, at, i - 1)
  }

  lemma {:induction false} PrevSplitIs(text: Utf16, at: Unit, i: nat)
    requires i <= |text|
    ensures var from := PrevSplit(text, at, i);
            && (forall j :: from <= j < i ==> text[j] != at)
            && (from > 0 ==> text[from - 1] == at) && (from == 0 ==> at !in text[..i])
  {
    if i > 0 {
      PrevSplitIs(text, at, i - 1);
    }
  }

  /** Without a separator the string itself; an empty piece after the last separator is dropped. */
  function Pieces(r: Rich, at: Unit): seq<Rich> {
    var n := |r.text|;
    var from := PrevSplit(r.text, at, n);
    if from == 0 then [r]
    else if from == n then PiecesTo(r, at, n)
    else PiecesTo(r, at, n) + [PieceOf(r, from, n)]
  }

  lemma {:induction false} PiecesAreFree(r: Rich, at: Unit, i: nat)
    requires i <= |r.text|
    ensures forall k :: 0 <= k < |PiecesTo(r, at, i)| ==> IsFree(PiecesTo(r, at, i)[k], at)
  {
    if i > 0 {
      PiecesAreFree(r, at, i - 1);
      PieceIsFree(r, at, i - 1);
    }
  }

  /** A piece without the separator whose ranges lie inside it. */
  predicate IsFree(piece: Rich, at: Unit) {
    at !in piece.text && InBounds(piece)
  }

  lemma PieceIsFree(r: Rich, at: Unit, i: nat)
    requires i <= |r.text|
    ensures IsFree(PieceOf(r, PrevSplit(r.text, at, i), i), at)
  {
    PrevSplitIs(r.text, at, i);
    PieceInBounds(r, PrevSplit(r.text, at, i), i);
  }

  /** No piece contains the separator, and every piece's ranges lie inside it, whatever they were before. */
  lemma SplitIsFree(r: Rich, at: Unit)
    ensures forall k :: 0 <= k < |Pieces(r, at)| ==> at in r.text ==> IsFree(Pieces(r, at)[k], at)
    ensures at !in r.text ==> Pieces(r, at) == [r]
  {
    var n := |r.text|;
    assert r.text[..n] == r.text;
    PrevSplitIs(r.text, at, n);
    PiecesAreFree(r, at, n);
    PieceIsFree(r, at, n);
  }

  /** The pieces each followed by a separator without styles. */
  function Rejoined(pieces: seq<Rich>, at: Unit): Rich {
    if pieces == [] then Rich([], [])
    else Appended(Appended(Rejoined(pieces[..|pieces| - 1], at), pieces[|pieces| - 1]), Rich([at], []))
  }

  /** The same unit at position `p`, and the same styles unless it is a separator. */
  predicate AgreeAt(a: Rich, b: Rich, p: nat, at: Unit)
    requires p < |a.text| && p < |b.text|
  {
    a.text[p] == b.text[p] && (a.text[p] != at ==> StylesAt(a.ranges, p) == StylesAt(b.ranges, p))
  }

  predicate AgreeTo(a: Rich, b: Rich, n: nat, at: Unit) {
    n <= |a.text| && n <= |b.text| && forall p :: 0 <= p < n ==> AgreeAt(a, b, p, at)
  }

  /** What `part` shows at `q` is what `r` shows `from` positions later. */
  predicate PartAt(part: Rich, r: Rich, from: nat, q: nat)
    requires q < |part.text| && from + q < |r.text|
  {
    part.text[q] == r.text[from + q] && StylesAt(part.ranges, q) == StylesAt(r.ranges, from + q)
  }

  /** `part` is what `r` shows from position `from` on. */
  predicate IsPart(part: Rich, r: Rich, from: nat) {
    from + |part.text| <= |r.text| && forall q :: 0 <= q < |part.text| ==> PartAt(part, r, from, q)
  }

  lemma PieceIsPart(r: Rich, from: nat, to: nat)
    requires from <= to <= |r.text|
    ensures IsPart(PieceOf(r, from, to), r, from)
  {
    forall q: nat | q < to - from
      ensures PartAt(PieceOf(r, from, to), r, from, q)
    {
      KeptStyles(r.ranges, Piece(from, to), q);
    }
  }

  lemma PieceAgrees(r: Rich, at: Unit, joined: Rich, from: nat, to: nat)
    requires from <= to <= |r.text| && |joined.text| == from && InBounds(joined) && AgreeTo(joined, r, from, at)
    ensures var all := Appended(joined, PieceOf(r, from, to));
            |all.text| == to && InBounds(all) && AgreeTo(all, r, to, at)
  {
    var piece := PieceOf(r, from, to);
    PieceInBounds(r, from, to);
    PieceIsPart(r, from, to);
    PartAgrees(r, at, joined, piece);
  }

  lemma PartAgrees(r: Rich, at: Unit, joined: Rich, part: Rich)
    requires InBounds(joined) && InBounds(part) && IsPart(part, r, |joined.text|)
    requires AgreeTo(joined, r, |joined.text|, at)
    ensures var all := Appended(joined, part);
            |all.text| == |joined.text| + |part.text| && InBounds(all) && AgreeTo(all, r, |all.text|, at)
  {
    var all := Appended(joined, part);
    AppendInBounds(joined, part);
    forall p | 0 <= p < |all.text|
      ensures AgreeAt(all, r, p, at)
    {
      PartAgreesAt(r, at, joined, part, p);
    }
  }

  lemma PartAgreesAt(r: Rich, at: Unit, joined: Rich, part: Rich, p: nat)
    requires InBounds(joined) && InBounds(part) && p < |joined.text| + |part.text| <= |r.text|
    requires if p < |joined.text| then AgreeAt(joined, r, p, at) else PartAt(part, r, |joined.text|, p - |joined.text|)
    ensures AgreeAt(Appended(joined, part), r, p, at)
  {
    var all := Appended(joined, part);
    assert all.text[p] == if p < |joined.text| then joined.text[p] else part.text[p - |joined.text|];
    AppendKeeps(joined, part, p);
  }

  lemma SeparatorAgrees(r: Rich, at: Unit, joined: Rich, i: nat)
    requires i < |r.text| && r.text[i] == at && |joined.text| == i && InBounds(joined) && AgreeTo(joined, r, i, at)
    ensures var all := Appended(joined, Rich([at], []));
            |all.text| == i + 1 && InBounds(all) && AgreeTo(all, r, i + 1, at)
  {
    var all := Appended(joined, Rich([at], []));
    AppendInBounds(joined, Rich([at], []));
    forall p | 0 <= p < i + 1
      ensures AgreeAt(all, r, p, at)
    {
      AppendKeeps(joined, Rich([at], []), p);
      if p < i {
        assert AgreeAt(joined, r, p, at);
      }
    }
  }

  /** Rejoined, the pieces are the first `n` units of the string. */
  predicate Rebuild(pieces: seq<Rich>, r: Rich, n: nat, at: Unit) {
    var joined := Rejoined(pieces, at);
    |joined.text| == n && InBounds(joined) && AgreeTo(joined, r, n, at)
  }

  /** One more piece and the separator that ends it. */
  lemma OneMorePiece(r: Rich, at: Unit, pieces: seq<Rich>, from: nat, i: nat)
    requires from <= i < |r.text| && r.text[i] == at && Rebuild(pieces, r, from, at)
    ensures Rebuild(pieces + [PieceOf(r, from, i)], r, i + 1, at)
  {
    var joined := Rejoined(pieces, at);
    var more := pieces + [PieceOf(r, from, i)];
    assert more[..|more| - 1] == pieces;
    PieceAgrees(r, at, joined, from, i);
    SeparatorAgrees(r, at, Appended(joined, PieceOf(r, from, i)), i);
  }

  lemma {:induction false} PiecesRejoin(r: Rich, at: Unit, i: nat)
    requires i <= |r.text|
    ensures Rebuild(PiecesTo(r, at, i), r, PrevSplit(r.text, at, i), at)
  {
    if i > 0 {
      PiecesRejoin(r, at, i - 1);
      if r.text[i - 1] == at {
        OneMorePiece(r, at, PiecesTo(r, at, i - 1), PrevSplit(r.text, at, i - 1), i - 1);
      }
    }
  }

  /** The length of the text without one trailing separator. */
  function WithoutLast(text: Utf16, at: Unit): nat {
    if text != [] && text[|text| - 1] == at then |text| - 1 else |text|
  }

  lemma SplitIs(r: Rich, at: Unit)
    requires PrevSplit(r.text, at, |r.text|) > 0
    ensures var m := WithoutLast(r.text, at);
            Pieces(r, at) == PiecesTo(r, at, m) + [PieceOf(r, PrevSplit(r.text, at, m), m)]
  {
    PrevSplitIs(r.text, at, |r.text|);
  }

  /** The pieces put together with separators between them. */
  function Between(pieces: seq<Rich>, at: Unit): Rich
    requires pieces != []
  {
    Appended(Rejoined(pieces[..|pieces| - 1], at), pieces[|pieces| - 1])
  }

  lemma AloneAgrees(r: Rich, at: Unit)
    requires InBounds(r)
    ensures var alone := Appended(Rich([], []), r);
            |alone.text| == |r.text| && AgreeTo(alone, r, |r.text|, at)
  {
    var alone := Appended(Rich([], []), r);
    forall p | 0 <= p < |r.text|
      ensures AgreeAt(alone, r, p, at)
    {
      AppendKeeps(Rich([], []), r, p);
    }
  }

  /** The pieces of a split, put together again with separators between them, are the string without one
      trailing separator: the same text, and the same styles everywhere but on the separators. */
  lemma SplitRejoins(r: Rich, at: Unit)
    requires InBounds(r)
    ensures Pieces(r, at) != []
    ensures var m := WithoutLast(r.text, at);
            var joined := Between(Pieces(r, at), at);
            |joined.text| == m && AgreeTo(joined, r, m, at)
  {
    var m := WithoutLast(r.text, at);
    if PrevSplit(r.text, at, |r.text|) == 0 {
      PrevSplitIs(r.text, at, |r.text|);
      assert [r][..0] == [] && Between([r], at) == Appended(Rich([], []), r);
      AloneAgrees(r, at);
    } else {
      SplitIs(r, at);
      var before := PiecesTo(r, at, m);
      var last := PieceOf(r, PrevSplit(r.text, at, m), m);
      assert (before + [last])[..|before|] == before;
      PiecesRejoin(r, at, m);
      PieceAgrees(r, at, Rejoined(before, at), PrevSplit(r.text, at, m), m);
    }
  }

  // ----- Trimming -----

  predicate IsSpace(u: Unit) {
    (9 <= u <= 13) || u == 32 || u == 0x85 || u == 0xA0
  }

  function CutStart(text: Utf16, i: nat): (r: nat)
    requires i <= |text|
    ensures i <= r <= |text|
    decreases |text| - i
  {
    if i < |text| && IsSpace(text[i]) then CutStart(text, i + 1) else i
  }

  function CutEnd(text: Utf16, i: nat): (r: nat)
    requires i <= |text|
    ensures r <= i
  {
    if i > 0 && IsSpace(text[i - 1]) then CutEnd(text, i - 1) else i
  }

  lemma {:induction false} CutStartIs(text: Utf16, i: nat)
    requires i <= |text|
    ensures var r := CutStart(text, i); (forall j :: i <= j < r ==> IsSpace(text[j])) && (r < |text| ==> !IsSpace(text[r]))
    decreases |text| - i
  {
    if i < |text| && IsSpace(text[i]) {
      CutStartIs(text, i + 1);
    }
  }

  lemma {:induction false} CutEndIs(text: Utf16, i: nat)
    requires i <= |text|
    ensures var r := CutEnd(text, i); (forall j :: r <= j < i ==> IsSpace(text[j])) && (r > 0 ==> !IsSpace(text[r - 1]))
  {
    if i > 0 && IsSpace(text[i - 1]) {
      CutEndIs(text, i - 1);
    }
  }

  /** Unless all is space, something is left between the cuts. */
  lemma CutsMeet(text: Utf16)
    ensures CutStart(text, 0) < |text| ==> CutStart(text, 0) < CutEnd(text, |text|)
  {
    CutStartIs(text, 0);
    CutEndIs(text, |text|);
  }

  function TrimmedOf(r: Rich): Rich {
    CutsMeet(r.text);
    var cutStart := CutStart(r.text, 0);
    var cutEnd := CutEnd(r.text, |r.text|);
    if cutStart == |r.text| then Rich([], [])
    else if cutStart == 0 && cutEnd == |r.text| then r
    else Rich(r.text[cutStart..cutEnd], Kept(r.ranges, Trimmed(cutStart, cutEnd)))
  }

  /** Only spaces go, and all of them go at both ends. */
  lemma TrimKeeps(r: Rich)
    ensures var t := TrimmedOf(r);
            var cutStart := CutStart(r.text, 0);
            && (t.text != [] ==> !IsSpace(t.text[0]) && !IsSpace(t.text[|t.text| - 1]))
            && cutStart + |t.text| <= |r.text|
            && (forall p :: 0 <= p < |t.text| ==> t.text[p] == r.text[cutStart + p])
            && (forall p :: 0 <= p < cutStart || cutStart + |t.text| <= p < |r.text| ==> IsSpace(r.text[p]))
  {
    CutStartIs(r.text, 0);
    CutEndIs(r.text, |r.text|);
    CutsMeet(r.text);
  }

  /** Every unit that stays keeps its styles. */
  lemma TrimKeepsStyles(r: Rich, p: nat)
    requires p < |TrimmedOf(r).text|
    ensures StylesAt(TrimmedOf(r).ranges, p) == StylesAt(r.ranges, CutStart(r.text, 0) + p)
  {
    var cutStart := CutStart(r.text, 0);
    var cutEnd := CutEnd(r.text, |r.text|);
    CutsMeet(r.text);
    if !(cutStart == 0 && cutEnd == |r.text|) {
      KeptStyles(r.ranges, Trimmed(cutStart, cutEnd), p);
    }
  }

  /** A range that trimming leaves inside the text: it is empty, or inside what is kept, or it starts so far
      behind it that it is dropped. */
  predicate TrimsWell(e: BodyRange, cutStart: nat, cutEnd: nat) {
    e.length <= 0 || (cutStart <= e.start && e.End() <= cutEnd) || cutStart + cutEnd <= e.start
  }

  /** The end of the kept text is compared with ranges that were already moved to the front, so a range can
      stick out of the trimmed text. Exactly when it does not: nothing is cut at the front, or all is space,
      or every range trims well. */
  lemma TrimInBounds(r: Rich)
    requires InBounds(r)
    ensures var cutStart := CutStart(r.text, 0);
            InBounds(TrimmedOf(r)) <==>
            (cutStart == 0 || cutStart == |r.text| ||
             forall i :: 0 <= i < |r.ranges| ==> TrimsWell(r.ranges[i], cutStart, CutEnd(r.text, |r.text|)))
  {
    var cutStart, cutEnd, n := CutStart(r.text, 0), CutEnd(r.text, |r.text|), |r.text|;
    CutsMeet(r.text);
    if cutStart < n {
      KeptFit(r.ranges, Trimmed(cutStart, cutEnd), cutEnd - cutStart);
      forall i | 0 <= i < |r.ranges|
        ensures KeptFits(r.ranges[i], Trimmed(cutStart, cutEnd), cutEnd - cutStart)
                <==> cutStart == 0 || TrimsWell(r.ranges[i], cutStart, cutEnd)
      {
        TrimOne(r.ranges[i], cutStart, cutEnd, n);
      }
    }
  }

  /** Whether what the cut leaves of a range, if anything, fits. */
  predicate KeptFits(e: BodyRange, cut: Cut, n: int) {
    cut.Apply(e).length > 0 ==> 0 <= n && Fits(cut.Apply(e), n)
  }

  lemma TrimOne(e: BodyRange, cutStart: nat, cutEnd: nat, n: nat)
    requires Fits(e, n) && cutStart < cutEnd <= n
    ensures KeptFits(e, Trimmed(cutStart, cutEnd), cutEnd - cutStart) <==> cutStart == 0 || TrimsWell(e, cutStart, cutEnd)
  {
  }

  lemma {:induction false} KeptFit(ranges: seq<BodyRange>, cut: Cut, n: nat)
    ensures AllFit(Kept(ranges, cut), n) <==> forall i :: 0 <= i < |ranges| ==> KeptFits(ranges[i], cut, n)
  {
    if ranges != [] {
      var front, last := ranges[..|ranges| - 1], ranges[|ranges| - 1];
      KeptFit(front, cut, n);
      AllFitPush(Kept(front, cut), NonEmpty(cut.Apply(last)), n);
      OneFits(cut.Apply(last), n);
      assert forall i :: 0 <= i < |front| ==> front[i] == ranges[i];
    }
  }

  lemma OneFits(e: BodyRange, n: nat)
    ensures AllFit(NonEmpty(e), n) <==> (e.length > 0 ==> Fits(e, n))
  {
    if e.length > 0 {
      assert NonEmpty(e)[0] == e;
    }
  }

  lemma AllFitPush(a: seq<BodyRange>, b: seq<BodyRange>, n: nat)
    ensures AllFit(a + b, n) <==> AllFit(a, n) && AllFit(b, n)
  {
    var all := a + b;
    assert forall i :: 0 <= i < |a| ==> all[i] == a[i];
    forall i | 0 <= i < |b|
      ensures Fits(all[|a| + i], n) == Fits(b[i], n)
    {
    }
    if AllFit(all, n) {
      forall i | 0 <= i < |b|
        ensures Fits(b[i], n)
      {
        assert Fits(all[|a| + i], n);
      }
    }
  }

  lemma SticksOut(r: Rich, i: nat)
    requires InBounds(r) && i < |r.ranges| && 0 < CutStart(r.text, 0) < |r.text|
    requires !TrimsWell(r.ranges[i], CutStart(r.text, 0), CutEnd(r.text, |r.text|))
    ensures !InBounds(TrimmedOf(r))
  {
    TrimInBounds(r);
  }

  /** A heading "x " between line breaks, for any spaces and any other unit: the bold range keeps the space
      that was trimmed off. */
  lemma TrimLeavesText(r: Rich, bold: BodyRange)
    requires |r.text| == 4 && IsSpace(r.text[0]) && !IsSpace(r.text[1]) && IsSpace(r.text[2]) && IsSpace(r.text[3])
    requires r.ranges == [bold] && bold.start == 1 && bold.length == 2
    ensures InBounds(r) && !InBounds(TrimmedOf(r))
  {
    assert CutStart(r.text, 0) == CutStart(r.text, 1) == 1;
    assert CutEnd(r.text, 4) == CutEnd(r.text, 3) == CutEnd(r.text, 2) == 2;
    assert r.ranges[0] == bold && !TrimsWell(bold, 1, 2);
    SticksOut(r, 0);
  }

  // ----- Cutting off long messages -----

  function Units(s: string): Utf16
    requires forall i :: 0 <= i < |s| ==> s[i] < (128 as char)
  {
    seq(|s|, i requires 0 <= i < |s| => s[i] as int as Unit)
  }

  const CUTOFF_TEXT: Utf16 := Units(" [long message cut off]")

  /** The text of an HTML message, cut off if it is too long. */
  function CutOff(r: Rich, maxLength: int): Rich
    requires |r.text| <= maxLength || |CUTOFF_TEXT| <= maxLength
  {
    if |r.text| > maxLength
    then Appended(Shortened(r, maxLength - |CUTOFF_TEXT|), Styled(Rich(CUTOFF_TEXT, []), Style(Italic, "")))
    else r
  }

  lemma {:induction false} NothingBehindPrefix(ranges: seq<BodyRange>, end: nat, p: nat)
    requires end <= p
    ensures StylesAt(Kept(ranges, Prefix(end)), p) == []
  {
    if ranges != [] {
      var n := |ranges| - 1;
      NothingBehindPrefix(ranges[..n], end, p);
      StylesPush(Kept(ranges[..n], Prefix(end)), Prefix(end).Apply(ranges[n]), p);
    }
  }

  /** At `p` stands what stood there, with its styles, or behind the first `same` units the notice in italics. */
  predicate CutAt(c: Rich, r: Rich, same: nat, p: nat)
    requires p < |c.text| && same <= |r.text| && p < same + |CUTOFF_TEXT|
  {
    if p < same then c.text[p] == r.text[p] && StylesAt(c.ranges, p) == StylesAt(r.ranges, p)
    else c.text[p] == CUTOFF_TEXT[p - same] && StylesAt(c.ranges, p) == [Style(Italic, "")]
  }

  lemma CutOffAt(r: Rich, same: nat, p: nat)
    requires same < |r.text| && p < same + |CUTOFF_TEXT|
    ensures CutAt(Appended(Shortened(r, same), Styled(Rich(CUTOFF_TEXT, []), Style(Italic, ""))), r, same, p)
  {
    var first, notice := Shortened(r, same), Styled(Rich(CUTOFF_TEXT, []), Style(Italic, ""));
    assert (first.text + notice.text)[p] == if p < same then r.text[p] else CUTOFF_TEXT[p - same];
    assert StylesAt(first.ranges, p) == (if p < same then StylesAt(r.ranges, p) else []) by {
      if p < same {
        SubstringKeeps(r, same);
      } else {
        NothingBehindPrefix(r.ranges, same, p);
      }
    }
    assert StylesAt(notice.ranges, p - same) == (if p < same then [] else [Style(Italic, "")]) by {
      assert notice.ranges == [BodyRange(0, |CUTOFF_TEXT|, Style(Italic, ""))] && notice.ranges[1..] == [];
    }
    StylesAtConcat(first.ranges, Shifted(notice.ranges, same), p);
    ShiftedStyles(notice.ranges, same, p);
  }

  lemma CutOffInBounds(r: Rich, same: nat)
    requires InBounds(r) && same < |r.text|
    ensures InBounds(Appended(Shortened(r, same), Styled(Rich(CUTOFF_TEXT, []), Style(Italic, ""))))
  {
    SubstringKeeps(r, same);
    FormatStyles(Rich(CUTOFF_TEXT, []), Style(Italic, ""), 0);
    AppendInBounds(Shortened(r, same), Styled(Rich(CUTOFF_TEXT, []), Style(Italic, "")));
  }

  /** A message is never longer than allowed, whatever its ranges; if it was, it keeps the beginning with its
      styles and ends in the notice, all in italics and in nothing else. Ranges inside it stay inside. */
  lemma CutOffKeeps(r: Rich, maxLength: int)
    requires |r.text| <= maxLength || |CUTOFF_TEXT| <= maxLength
    ensures var c := CutOff(r, maxLength);
            var same := if |r.text| > maxLength then maxLength - |CUTOFF_TEXT| else |r.text|;
            && (InBounds(r) ==> InBounds(c)) && |c.text| == Min(|r.text|, maxLength)
            && forall p :: 0 <= p < |c.text| ==> CutAt(c, r, same, p)
  {
    if |r.text| > maxLength {
      var same := maxLength - |CUTOFF_TEXT|;
      forall p | 0 <= p < maxLength
        ensures CutAt(CutOff(r, maxLength), r, same, p)
      {
        CutOffAt(r, same, p);
      }
      if InBounds(r) {
        CutOffInBounds(r, same);
      }
    }
  }

  // ----- Entity strings -----

  /** The receiver of every operation may be nil. */
  class EntityString {
    var text: Utf16
    var entities: seq<BodyRange>

    function Model(): Rich
      reads this
    {
      Rich(text, entities)
    }

    constructor (text: Utf16, entities: seq<BodyRange>)
      ensures Model() == Rich(text, entities)
    {
      this.text, this.entities := text, entities;
    }

    method DoSplit(prevSplit: nat, i: nat) returns (newES: EntityString)
      requires prevSplit <= i <= |text|
      ensures fresh(newES) && newES.Model() == PieceOf(Model(), prevSplit, i)
    {
      var kept: seq<BodyRange> := [];
      var k := 0;
      while k < |entities|
        invariant 0 <= k <= |entities| && kept == Kept(entities[..k], Piece(prevSplit, i))
      {
        var entity := entities[k];
        assert entities[..k + 1][..k] == entities[..k];
        if (entity.End() <= i || entity.End() > prevSplit) && (entity.start >= prevSplit || entity.start < i) {
          entity := entity.TruncateStart(prevSplit).TruncateEnd(i).Offset(-(prevSplit as int));
          if entity.length > 0 {
            kept := kept + [entity];
          }
        }
        k := k + 1;
      }
      assert entities[..k] == entities;
      newES := new EntityString(text[prevSplit..i], kept);
    }

    static method Split(es: EntityString?, at: Unit) returns (output: seq<EntityString>)
      requires at <= 0x7F
      ensures es == null ==> output == []
      ensures es != null ==> |output| == |Pieces(es.Model(), at)|
      ensures es != null ==> forall k :: 0 <= k < |output| ==> output[k].Model() == Pieces(es.Model(), at)[k]
      ensures es != null && at !in es.text ==> output == [es]
    {
      if es == null {
        return [];
      }
      output := [];
      var prevSplit := 0;
      var i := 0;
      while i < |es.text|
        invariant 0 <= i <= |es.text| && prevSplit == PrevSplit(es.text, at, i)
        invariant |output| == |PiecesTo(es.Model(), at, i)|
        invariant forall k :: 0 <= k < |output| ==> output[k].Model() == PiecesTo(es.Model(), at, i)[k]
      {
        if es.text[i] == at {
          var newES := es.DoSplit(prevSplit, i);
          output := output + [newES];
          prevSplit := i + 1;
        }
        i := i + 1;
      }
      PrevSplitIs(es.text, at, i);
      assert es.text[..i] == es.text;
      if prevSplit == 0 {
        return [es];
      }
      if prevSplit != |es.text| {
        var newES := es.DoSplit(prevSplit, |es.text|);
        output := output + [newES];
      }
    }

    /** A new empty string if all is space, else the string itself. */
    static method TrimSpace(es: EntityString?) returns (r: EntityString?)
      modifies es
      ensures es == null <==> r == null
      ensures es != null ==> r.Model() == TrimmedOf(old(es.Model()))
      ensures r == es || (fresh(r) && es.Model() == old(es.Model()))
    {
      if es == null {
        return null;
      }
      var cutStart := 0;
      while cutStart < |es.text| && IsSpace(es.text[cutStart])
        invariant 0 <= cutStart <= |es.text| && CutStart(es.text, 0) == CutStart(es.text, cutStart)
      {
        cutStart := cutStart + 1;
      }
      if cutStart == |es.text| {
        r := new EntityString([], []);
        return;
      }
      var cutEnd := |es.text| - 1;
      while cutEnd >= 0 && IsSpace(es.text[cutEnd])
        invariant -1 <= cutEnd < |es.text| && CutEnd(es.text, |es.text|) == CutEnd(es.text, cutEnd + 1)
      {
        cutEnd := cutEnd - 1;
      }
      cutEnd := cutEnd + 1;
      if cutStart == 0 && cutEnd == |es.text| {
        return es;
      }
      CutsMeet(es.text);
      var newEntities := TrimEntities(es.entities, cutStart, cutEnd);
      es.text := es.text[cutStart..cutEnd];
      es.entities := newEntities;
      return es;
    }

    static method TrimEntities(entities: seq<BodyRange>, cutStart: int, cutEnd: int) returns (newEntities: seq<BodyRange>)
      ensures newEntities == Kept(entities, Trimmed(cutStart, cutEnd))
    {
      newEntities := [];
      var k := 0;
      while k < |entities|
        invariant 0 <= k <= |entities| && newEntities == Kept(entities[..k], Trimmed(cutStart, cutEnd))
      {
        var ent := entities[k].Offset(-cutStart).TruncateEnd(cutEnd);
        assert entities[..k + 1][..k] == entities[..k];
        if ent.length > 0 {
          newEntities := newEntities + [ent];
        }
        k := k + 1;
      }
      assert entities[..k] == entities;
    }

    /** Its first loop reads every string before the second one asks whether it is nil, so a nil among them
        is a panic, which null stands for. */
    static method Join(separator: Utf16, strings: seq<EntityString?>) returns (r: EntityString?)
      ensures r == null <==> exists i :: 0 <= i < |strings| && strings[i] == null
      ensures r != null ==> fresh(r) && r.Model() == Joined(separator, Models(strings))
    {
      var totalLen, totalEntities := 0, 0;
      var k := 0;
      while k < |strings|
        invariant 0 <= k <= |strings| && forall i :: 0 <= i < k ==> strings[i] != null
      {
        var s := strings[k];
        if s == null {
          return null;
        }
        totalLen, totalEntities := totalLen + |s.text|, totalEntities + |s.entities|;
        k := k + 1;
      }
      var str: Utf16 := [];
      var entities: seq<BodyRange> := [];
      ghost var models := Models(strings);
      ModelsAt(strings);
      k := 0;
      while k < |strings|
        invariant 0 <= k <= |strings| && Rich(str, entities) == Joined(separator, models[..k])
      {
        var s := strings[k];
        JoinStep(separator, models, k);
        if s != null && |s.text| > 0 {
          entities := AppendShifted(entities, s.entities, |str|);
          str := str + s.text;
          str := str + separator;
        }
        k := k + 1;
      }
      assert models[..k] == models;
      r := new EntityString(str, entities);
    }

    static method AppendShifted(entities: seq<BodyRange>, others: seq<BodyRange>, shift: nat) returns (r: seq<BodyRange>)
      ensures r == entities + Shifted(others, shift)
    {
      r := entities;
      var k := 0;
      while k < |others|
        invariant 0 <= k <= |others| && r == entities + Shifted(others[..k], shift)
      {
        var entity := others[k];
        assert others[..k + 1][..k] == others[..k];
        r := r + [entity.(start := entity.start + shift)];
        k := k + 1;
      }
      assert others[..k] == others;
    }

    static method Format(es: EntityString?, value: Value) returns (r: EntityString?)
      modifies es
      ensures r == es && (es != null ==> es.Model() == Styled(old(es.Model()), value))
    {
      if es == null {
        return null;
      }
      es.entities := [BodyRange(0, |es.text|, value)] + es.entities;
      return es;
    }

    static method Append(es: EntityString?, other: EntityString?) returns (r: EntityString?)
      modifies es
      ensures r == if es == null then other else es
      ensures es != null ==> es.Model() == if other == null then old(es.Model()) else Appended(old(es.Model()), old(other.Model()))
    {
      if es == null {
        return other;
      } else if other == null {
        return es;
      }
      es.entities := AppendShifted(es.entities, other.entities, |es.text|);
      es.text := es.text + other.text;
      return es;
    }

    static method AppendString(es: EntityString?, other: Utf16) returns (r: EntityString)
      modifies es
      ensures es != null ==> r == es && es.Model() == Appended(old(es.Model()), Rich(other, []))
      ensures es == null ==> fresh(r) && r.Model() == Rich(other, [])
    {
      if es == null {
        r := new EntityString(other, []);
        return;
      }
      SeparatorAdds(es.Model(), other);
      if |other| == 0 {
        assert es.text + other == es.text;
        return es;
      }
      es.text := es.text + other;
      return es;
    }

    static method Substring(es: EntityString?, end: nat) returns (r: EntityString?)
      ensures es == null <==> r == null
      ensures es != null ==> r.Model() == Shortened(es.Model(), end) && (r == es || fresh(r)) && (r == es <==> end >= |es.text|)
    {
      if es == null {
        return null;
      }
      if end >= |es.text| {
        return es;
      }
      var newEntities: seq<BodyRange> := [];
      var k := 0;
      while k < |es.entities|
        invariant 0 <= k <= |es.entities| && newEntities == Kept(es.entities[..k], Prefix(end))
      {
        var ent := es.entities[k].TruncateEnd(end);
        assert es.entities[..k + 1][..k] == es.entities[..k];
        if ent.length > 0 {
          newEntities := newEntities + [ent];
        }
        k := k + 1;
      }
      assert es.entities[..k] == es.entities;
      r := new EntityString(es.text[..end], newEntities);
    }
  }

  ghost function Models(strings: seq<EntityString?>): seq<Rich>
    reads strings
  {
    if strings == [] then []
    else
      var last := strings[|strings| - 1];
      Models(strings[..|strings| - 1]) + [if last == null then Rich([], []) else last.Model()]
  }

  lemma {:induction false} ModelsAt(strings: seq<EntityString?>)
    ensures |Models(strings)| == |strings|
    ensures forall i :: 0 <= i < |strings| && strings[i] != null ==> Models(strings)[i] == strings[i].Model()
  {
    if strings != [] {
      ModelsAt(strings[..|strings| - 1]);
    }
  }

  // ----- The message -----

  /** What a range is sent as; a mention of somebody with a username is told by its text. */
  datatype TelegramKind =
    | MentionText
    | MentionName(user: string)
    | Plain(style: StyleType)
    | PreCode(language: string)
    | TextLink(url: string)
    | EmojiFile(document: string)

  datatype TelegramEntity = TelegramEntity(offset: int, length: int, kind: TelegramKind) {
    predicate Covers(p: int) { offset <= p < offset + length }
  }

  /** Channels have user IDs too, with a prefix. */
  predicate IsChannelID(id: string) {
    "channel-" <= id
  }

  /** None for what cannot be sent. */
  function ToKind(v: Value): Option<TelegramKind> {
    match v
    case Mention(id, username) =>
      if username != [] then Some(MentionText) else if IsChannelID(id) then None else Some(MentionName(id))
    case Style(Pre, language) => Some(PreCode(language))
    case Style(TextURL, url) => Some(TextLink(url))
    case Style(CustomEmoji, document) => Some(EmojiFile(document))
    case Style(FormattedDate, _) => None
    case Style(kind, _) => Some(Plain(kind))
  }

  /** Two values cannot be sent: a formatted date, and a mention of a channel that has no username. */
  lemma CannotBeSent(v: Value)
    ensures ToKind(v).None? <==>
            || (v.Style? && v.kind == FormattedDate)
            || (v.Mention? && v.username == [] && IsChannelID(v.mxid))
  {
  }

  /** What is sent tells two values apart, save for what the sent form does not carry. */
  lemma KindTells(v: Value, w: Value)
    requires ToKind(v).Some? && ToKind(w).Some?
    ensures ToKind(v) == ToKind(w) <==>
            || (v.Mention? && w.Mention? && v.username != [] && w.username != [])
            || (v.Mention? && w.Mention? && v.username == w.username == [] && v.mxid == w.mxid)
            || (v.Style? && w.Style? && v.kind == w.kind && (v.kind in {Pre, TextURL, CustomEmoji} ==> v.detail == w.detail))
  {
  }

  predicate Sendable(ranges: seq<BodyRange>) {
    forall i :: 0 <= i < |ranges| ==> ToKind(ranges[i].value).Some?
  }

  function ToTelegramEntity(r: BodyRange): TelegramEntity
    requires ToKind(r.value).Some?
  {
    TelegramEntity(r.start, r.length, ToKind(r.value).value)
  }

  function ToTelegram(ranges: seq<BodyRange>): seq<TelegramEntity>
    requires Sendable(ranges)
  {
    seq(|ranges|, i requires 0 <= i < |ranges| => ToTelegramEntity(ranges[i]))
  }

  /** The kinds of the entities that cover a position, in order. */
  function KindsAt(entities: seq<TelegramEntity>, p: int): seq<TelegramKind> {
    if entities == [] then []
    else (if entities[0].Covers(p) then [entities[0].kind] else []) + KindsAt(entities[1..], p)
  }

  function KindsOf(values: seq<Value>): seq<Option<TelegramKind>> {
    seq(|values|, i requires 0 <= i < |values| => ToKind(values[i]))
  }

  function Somes(kinds: seq<TelegramKind>): seq<Option<TelegramKind>> {
    seq(|kinds|, i requires 0 <= i < |kinds| => Some(kinds[i]))
  }

  /** The entities sent cover each position with exactly the kinds of its styles. */
  lemma {:induction false} SentStyles(ranges: seq<BodyRange>, p: int)
    requires Sendable(ranges)
    ensures Somes(KindsAt(ToTelegram(ranges), p)) == KindsOf(StylesAt(ranges, p))
  {
    if ranges != [] {
      assert Sendable(ranges[1..]) && ToTelegram(ranges)[1..] == ToTelegram(ranges[1..]);
      SentStyles(ranges[1..], p);
      var first := if ranges[0].Covers(p) then [ranges[0].value] else [];
      assert KindsOf(first + StylesAt(ranges[1..], p)) == KindsOf(first) + KindsOf(StylesAt(ranges[1..], p));
      var kind := if ranges[0].Covers(p) then [ToTelegramEntity(ranges[0]).kind] else [];
      assert Somes(kind + KindsAt(ToTelegram(ranges[1..]), p)) == Somes(kind) + Somes(KindsAt(ToTelegram(ranges[1..]), p));
    }
  }

  /** What a message's content says besides its HTML. */
  datatype Content = Content(isMedia: bool, fileName: Utf16, body: Utf16, isHTML: bool)

  /** The text sent for a message and its ranges; only HTML is ever cut off. */
  function Message(content: Content, parsed: Option<Rich>, maxLength: int): Rich
    requires content.isHTML && parsed.Some? ==> |parsed.value.text| <= maxLength || |CUTOFF_TEXT| <= maxLength
  {
    if content.isMedia && (content.fileName == [] || content.fileName == content.body) then Rich([], [])
    else if !content.isHTML then Rich(content.body, [])
    else if parsed.None? then Rich([], [])
    else CutOff(parsed.value, maxLength)
  }

  ghost function ModelOf(es: EntityString?): Option<Rich>
    reads es
  {
    if es == null then None else Some(es.Model())
  }

  /** `parsed` is what the HTML parser made of the formatted body. */
  method Parse(content: Content, parsed: EntityString?, maxLength: int)
    returns (text: Utf16, entities: seq<TelegramEntity>)
    requires content.isHTML && parsed != null ==> |parsed.text| <= maxLength || |CUTOFF_TEXT| <= maxLength
    requires Sendable(Message(content, ModelOf(parsed), maxLength).ranges)
    ensures text == Message(content, old(ModelOf(parsed)), maxLength).text
    ensures entities == ToTelegram(Message(content, old(ModelOf(parsed)), maxLength).ranges)
    ensures var isFileName := content.isMedia && (content.fileName == [] || content.fileName == content.body);
            && (isFileName || (content.isHTML && parsed == null) ==> text == [] && entities == [])
            && (!isFileName && !content.isHTML ==> text == content.body && entities == [])
            && (!isFileName && content.isHTML && parsed != null && old(|parsed.text|) <= maxLength ==>
                  text == old(parsed.text) && |entities| == |old(parsed.entities)|)
  {
    if content.isMedia && (|content.fileName| == 0 || content.fileName == content.body) {
      return [], [];
    }
    if !content.isHTML {
      return content.body, [];
    }
    if parsed == null {
      return [], [];
    }
    var result: EntityString := parsed;
    if |parsed.text| > maxLength {
      var notice := new EntityString(CUTOFF_TEXT, []);
      var italic := EntityString.Format(notice, Style(Italic, ""));
      result := EntityString.Substring(parsed, maxLength - |CUTOFF_TEXT|);
      result := EntityString.Append(result, italic);
    }
    text := result.text;
    entities := [];
    var i := 0;
    while i < |result.entities|
      invariant 0 <= i <= |result.entities| && |entities| == i
      invariant forall j :: 0 <= j < i ==> entities[j] == ToTelegramEntity(result.entities[j])
    {
      entities := entities + [ToTelegramEntity(result.entities[i])];
      i := i + 1;
    }
  }
}
