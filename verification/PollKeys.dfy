/** The canonical key of a set of chosen poll options: hex encoded, sorted and joined by commas. */
module PollKeys {

  newtype Octet = b: int | 0 <= b < 256

  type PollOption = seq<Octet>

  function HexDigit(n: int): char
    requires 0 <= n < 16
  {
    "0123456789abcdef"[n]
  }

  function Hex(option: PollOption): string {
    if option == [] then "" else [HexDigit(option[0] as int / 16), HexDigit(option[0] as int % 16)] + Hex(option[1..])
  }

  /** Two lower-case digits for every octet. */
  lemma {:induction false} HexSpells(option: PollOption, i: nat)
    requires i < |option|
    ensures |Hex(option)| == 2 * |option|
    ensures Hex(option)[2 * i] == "0123456789abcdef"[option[i] as int / 16]
    ensures Hex(option)[2 * i + 1] == "0123456789abcdef"[option[i] as int % 16]
  {
    if i > 0 {
      HexSpells(option[1..], i - 1);
    } else if |option| > 1 {
      HexSpells(option[1..], 0);
    }
  }

  // ----- Lexicographic order and sorting -----

  predicate Leq(s: string, t: string) {
    s == [] || (t != [] && (s[0] < t[0] || (s[0] == t[0] && Leq(s[1..], t[1..]))))
  }

  lemma {:induction false} LeqTotal(s: string, t: string)
    ensures Leq(s, t) || Leq(t, s)
    ensures Leq(s, t) && Leq(t, s) ==> s == t
  {
    if s != [] && t != [] && s[0] == t[0] {
      LeqTotal(s[1..], t[1..]);
      assert s == [s[0]] + s[1..] && t == [t[0]] + t[1..];
    }
  }

  lemma {:induction false} LeqTransitive(s: string, t: string, u: string)
    requires Leq(s, t) && Leq(t, u)
    ensures Leq(s, u)
  {
    if s != [] && s[0] == t[0] == u[0] {
      LeqTransitive(s[1..], t[1..], u[1..]);
    }
  }

  function Insert(s: string, sorted: seq<string>): seq<string> {
    if sorted == [] || Leq(s, sorted[0]) then [s] + sorted else [sorted[0]] + Insert(s, sorted[1..])
  }

  function Sort(keys: seq<string>): seq<string> {
    if keys == [] then [] else Insert(keys[0], Sort(keys[1..]))
  }

  /** Each string is at most all later ones. */
  predicate Sorted(keys: seq<string>) {
    keys == [] || ((forall t <- keys[1..] :: Leq(keys[0], t)) && Sorted(keys[1..]))
  }

  lemma {:induction false} InsertSorts(s: string, sorted: seq<string>)
    requires Sorted(sorted)
    ensures Sorted(Insert(s, sorted)) && multiset(Insert(s, sorted)) == multiset{s} + multiset(sorted)
  {
    if sorted == [] {
    } else {
      assert sorted == [sorted[0]] + sorted[1..];
      if Leq(s, sorted[0]) {
        forall t | t in sorted
          ensures Leq(s, t)
        {
          if t != sorted[0] {
            LeqTransitive(s, sorted[0], t);
          }
        }
        assert ([s] + sorted)[1..] == sorted;
      } else {
        LeqTotal(s, sorted[0]);
        InsertSorts(s, sorted[1..]);
        var rest := Insert(s, sorted[1..]);
        forall t | t in rest
          ensures Leq(sorted[0], t)
        {
          assert t in multiset(rest);
          assert t == s || t in multiset(sorted[1..]);
        }
        assert ([sorted[0]] + rest)[1..] == rest;
      }
    }
  }

  lemma {:induction false} SortSorts(keys: seq<string>)
    ensures Sorted(Sort(keys)) && multiset(Sort(keys)) == multiset(keys)
  {
    if keys != [] {
      SortSorts(keys[1..]);
      InsertSorts(keys[0], Sort(keys[1..]));
      assert keys == [keys[0]] + keys[1..];
    }
  }

  /** The first of sorted strings is the least of them. */
  lemma HeadIsLeast(keys: seq<string>, s: string)
    requires Sorted(keys) && s in keys
    ensures Leq(keys[0], s)
  {
    if s == keys[0] {
      LeqTotal(s, s);
    } else {
      assert keys == [keys[0]] + keys[1..];
    }
  }

  lemma HeadsEqual(a: seq<string>, b: seq<string>)
    requires Sorted(a) && Sorted(b) && multiset(a) == multiset(b) && a != [] && b != []
    ensures a[0] == b[0]
  {
    assert a[0] in multiset(b) && b[0] in multiset(a);
    HeadIsLeast(a, b[0]);
    HeadIsLeast(b, a[0]);
    LeqTotal(a[0], b[0]);
  }

  lemma TailMultiset(a: seq<string>)
    requires a != []
    ensures multiset(a[1..]) == multiset(a) - multiset{a[0]}
  {
    assert a == [a[0]] + a[1..];
  }

  lemma {:induction false} SortedUnique(a: seq<string>, b: seq<string>)
    requires Sorted(a) && Sorted(b) && multiset(a) == multiset(b)
    ensures a == b
  {
    assert |a| == |multiset(a)| == |multiset(b)| == |b|;
    if a != [] {
      HeadsEqual(a, b);
      TailMultiset(a);
      TailMultiset(b);
      SortedUnique(a[1..], b[1..]);
      assert a == [a[0]] + a[1..] && b == [b[0]] + b[1..];
    }
  }

  lemma SortEqual(a: seq<string>, b: seq<string>)
    ensures Sort(a) == Sort(b) <==> multiset(a) == multiset(b)
  {
    SortSorts(a);
    SortSorts(b);
    if multiset(a) == multiset(b) {
      SortedUnique(Sort(a), Sort(b));
    }
  }

  // ----- Joining -----

  function Join(keys: seq<string>): string {
    if keys == [] then "" else if |keys| == 1 then keys[0] else keys[0] + "," + Join(keys[1..])
  }

  predicate CommaFree(keys: seq<string>) {
    forall s <- keys :: ',' !in s
  }

  /** Where the first key ends. */
  lemma {:induction false} FirstComma(x: string, y: string, u: string, v: string)
    requires ',' !in x && ',' !in y
    ensures x + "," + u == y + "," + v ==> x == y && u == v
    ensures x + "," + u != y
  {
    var s, t := x + "," + u, y + "," + v;
    if x == [] || y == [] {
      assert s[0] == (if x == [] then ',' else x[0]) && t[0] == (if y == [] then ',' else y[0]);
      assert x == [] ==> u == s[1..];
      assert y == [] ==> v == t[1..];
    } else {
      FirstComma(x[1..], y[1..], u, v);
      assert s[1..] == x[1..] + "," + u && t[1..] == y[1..] + "," + v;
      assert x == [x[0]] + x[1..] && y == [y[0]] + y[1..];
      assert s[0] == x[0] && t[0] == y[0];
    }
  }

  lemma {:induction false} JoinInjective(a: seq<string>, b: seq<string>)
    requires CommaFree(a) && CommaFree(b) && a != [] && b != [] && Join(a) == Join(b)
    ensures a == b
  {
    assert a[0] in a && b[0] in b;
    if |a| > 1 && |b| > 1 {
      FirstComma(a[0], b[0], Join(a[1..]), Join(b[1..]));
      JoinInjective(a[1..], b[1..]);
      assert a == [a[0]] + a[1..] && b == [b[0]] + b[1..];
    } else if |a| > 1 {
      FirstComma(a[0], b[0], Join(a[1..]), "");
    } else if |b| > 1 {
      FirstComma(b[0], a[0], Join(b[1..]), "");
    }
  }

  lemma JoinEqual(a: seq<string>, b: seq<string>)
    requires CommaFree(a) && CommaFree(b)
    ensures Join(a) == Join(b) <==> a == b || (a == [] && b == [""]) || (a == [""] && b == [])
  {
    if Join(a) == Join(b) && a != [] && b != [] {
      JoinInjective(a, b);
    } else if a == [] && b != [] && Join(b) == "" {
      assert |b| == 1;
    } else if b == [] && a != [] && Join(a) == "" {
      assert |a| == 1;
    }
  }

  // ----- Hex encoding -----

  lemma HexDigitInjective(m: int, n: int)
    requires 0 <= m < 16 && 0 <= n < 16
    ensures HexDigit(m) == HexDigit(n) ==> m == n
    ensures HexDigit(m) != ','
  {
  }

  lemma {:induction false} HexShape(a: PollOption)
    ensures ',' !in Hex(a) && |Hex(a)| == 2 * |a|
  {
    if a != [] {
      var m := a[0] as int;
      HexDigitInjective(m / 16, m / 16);
      HexDigitInjective(m % 16, m % 16);
      HexShape(a[1..]);
    }
  }

  lemma HexHead(a: PollOption, b: PollOption)
    requires a != [] && b != [] && Hex(a) == Hex(b)
    ensures a[0] == b[0] && Hex(a[1..]) == Hex(b[1..])
  {
    var m, n := a[0] as int, b[0] as int;
    HexDigitInjective(m / 16, n / 16);
    HexDigitInjective(m % 16, n % 16);
    assert Hex(a)[0] == Hex(b)[0] && Hex(a)[1] == Hex(b)[1];
    assert Hex(a)[2..] == Hex(a[1..]) && Hex(b)[2..] == Hex(b[1..]);
  }

  lemma {:induction false} HexInjective(a: PollOption, b: PollOption)
    ensures Hex(a) == Hex(b) ==> a == b
  {
    if a != [] && b != [] && Hex(a) == Hex(b) {
      HexHead(a, b);
      HexInjective(a[1..], b[1..]);
      assert a == [a[0]] + a[1..] && b == [b[0]] + b[1..];
    }
  }

  function Hexes(options: seq<PollOption>): seq<string> {
    if options == [] then [] else [Hex(options[0])] + Hexes(options[1..])
  }

  lemma {:induction false} HexesCount(options: seq<PollOption>, option: PollOption)
    ensures multiset(Hexes(options))[Hex(option)] == multiset(options)[option]
  {
    if options != [] {
      var first, rest := options[0], options[1..];
      HexesCount(rest, option);
      HexInjective(first, option);
      assert multiset(options) == multiset{first} + multiset(rest) by {
        assert options == [first] + rest;
      }
      assert multiset(Hexes(options)) == multiset{Hex(first)} + multiset(Hexes(rest));
    }
  }

  lemma {:induction false} HexesMembers(options: seq<PollOption>, s: string)
    ensures s in Hexes(options) <==> exists option :: option in options && Hex(option) == s
    ensures s in Hexes(options) ==> ',' !in s
  {
    if options != [] {
      HexesMembers(options[1..], s);
      HexShape(options[0]);
      assert forall option :: option in options <==> option == options[0] || option in options[1..];
    }
  }

  lemma HexesEqual(a: seq<PollOption>, b: seq<PollOption>)
    ensures multiset(Hexes(a)) == multiset(Hexes(b)) <==> multiset(a) == multiset(b)
  {
    if multiset(Hexes(a)) == multiset(Hexes(b)) {
      forall option
        ensures multiset(a)[option] == multiset(b)[option]
      {
        HexesCount(a, option);
        HexesCount(b, option);
      }
    } else {
      var s :| multiset(Hexes(a))[s] != multiset(Hexes(b))[s];
      HexesMembers(a, s);
      HexesMembers(b, s);
      assert s in Hexes(a) || s in Hexes(b);
      var option :| Hex(option) == s;
      HexesCount(a, option);
      HexesCount(b, option);
    }
  }

  // ----- The key -----

  function Key(options: seq<PollOption>): string {
    Join(Sort(Hexes(options)))
  }

  method PollOptionsKey(options: seq<PollOption>) returns (key: string)
    ensures key == Key(options)
  {
    var keys: seq<string> := [];
    var i := 0;
    assert options[0..] == options;
    while i < |options|
      invariant 0 <= i <= |options| && keys + Hexes(options[i..]) == Hexes(options)
    {
      assert options[i..][1..] == options[i + 1..];
      assert keys + ([Hex(options[i])] + Hexes(options[i + 1..])) == keys + [Hex(options[i])] + Hexes(options[i + 1..]);
      keys := keys + [Hex(options[i])];
      i := i + 1;
    }
    assert keys == Hexes(options);
    return Join(Sort(keys));
  }

  lemma SortedCommaFree(options: seq<PollOption>)
    ensures CommaFree(Sort(Hexes(options)))
  {
    SortSorts(Hexes(options));
    forall s | s in Sort(Hexes(options))
      ensures ',' !in s
    {
      assert s in multiset(Sort(Hexes(options)));
      assert s in multiset(Hexes(options));
      HexesMembers(options, s);
    }
  }

  /** The one pair of different option lists that share a key: no option, and one empty option. */
  predicate NoneAndEmpty(a: seq<PollOption>, b: seq<PollOption>) {
    (a == [] && b == [[]]) || (a == [[]] && b == [])
  }

  lemma SortOfOne(a: seq<PollOption>)
    ensures Sort(Hexes(a)) == [] <==> a == []
    ensures Sort(Hexes(a)) == [""] <==> a == [[]]
  {
    SortSorts(Hexes(a));
    HexesLength(a);
    assert |Sort(Hexes(a))| == |multiset(Sort(Hexes(a)))| == |Hexes(a)|;
    if |a| == 1 {
      HexShape(a[0]);
      HexInjective(a[0], []);
      assert a == [a[0]] && Hexes(a[1..]) == [] && Hexes(a) == [Hex(a[0])] && Sort(Hexes(a)[1..]) == [];
      assert Sort(Hexes(a)) == [Hex(a[0])];
    }
  }

  lemma {:induction false} HexesLength(a: seq<PollOption>)
    ensures |Hexes(a)| == |a|
  {
    if a != [] {
      HexesLength(a[1..]);
    }
  }

  /** Two lists of options have the same key exactly when they are permutations of each other, but for
      the one collision. */
  lemma KeyEqual(a: seq<PollOption>, b: seq<PollOption>)
    ensures Key(a) == Key(b) <==> multiset(a) == multiset(b) || NoneAndEmpty(a, b)
  {
    SortedCommaFree(a);
    SortedCommaFree(b);
    JoinEqual(Sort(Hexes(a)), Sort(Hexes(b)));
    SortOfOne(a);
    SortOfOne(b);
    SortEqual(Hexes(a), Hexes(b));
    HexesEqual(a, b);
  }
}
