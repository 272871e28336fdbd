/** Coin normalisation (utils.rs): a stable sort by denom and decimal amounts. */
module Coins {
  import opened Outcomes
  import opened Fee
  import Decimal

  datatype Coin = Coin(denom: bytes, amount: u128)
  datatype ProtoCoin = ProtoCoin(denom: bytes, amount: bytes)

  /** Bytewise lexicographic order, as `str::cmp` compares denoms. */
  predicate AtMost(a: bytes, b: bytes) {
    a == [] || (b != [] && (a[0] < b[0] || (a[0] == b[0] && AtMost(a[1..], b[1..]))))
  }

  /** The same order without recursion: a prefix, or smaller at the first byte that differs. */
  ghost predicate Precedes(a: bytes, b: bytes) {
    a <= b || exists k :: 0 <= k < |a| && k < |b| && a[..k] == b[..k] && a[k] < b[k]
  }

  predicate Sorted(s: seq<Coin>) {
    forall i, j | 0 <= i < j < |s| :: AtMost(s[i].denom, s[j].denom)
  }

  predicate StrictlyAscending(s: seq<Coin>) {
    forall i, j | 0 <= i < j < |s| :: AtMost(s[i].denom, s[j].denom) && s[i].denom != s[j].denom
  }

  predicate AllPositive(s: seq<Coin>) {
    forall c | c in s :: c.amount > 0
  }

  /** What the bank keeper asks of coins: sorted by denom, no denom twice, no zero amount. */
  predicate Fundable(s: seq<Coin>) {
    StrictlyAscending(s) && AllPositive(s)
  }

  /** Denoms ascend bytewise. */
  ghost predicate Ascending(s: seq<Coin>) {
    forall i, j | 0 <= i < j < |s| :: Precedes(s[i].denom, s[j].denom)
  }

  /** Insertion after the last coin whose denom is not greater. */
  function Insert(s: seq<Coin>, x: Coin): seq<Coin> {
    if s == [] || AtMost(s[|s| - 1].denom, x.denom) then s + [x]
    else Insert(s[..|s| - 1], x) + [s[|s| - 1]]
  }

  function StableSort(s: seq<Coin>): seq<Coin> {
    if s == [] then [] else Insert(StableSort(s[..|s| - 1]), s[|s| - 1])
  }

  /** The coins of one denom, in order. */
  function OfDenom(s: seq<Coin>, denom: bytes): seq<Coin> {
    if s == [] then []
    else (if s[0].denom == denom then [s[0]] else []) + OfDenom(s[1..], denom)
  }

  function Total(s: seq<Coin>, denom: bytes): nat {
    if s == [] then 0
    else (if s[0].denom == denom then s[0].amount else 0) + Total(s[1..], denom)
  }

  // ---------- the order on denoms ----------

  lemma {:induction false} AtMostTotal(a: bytes, b: bytes)
    ensures AtMost(a, b) || AtMost(b, a)
    ensures AtMost(a, b) && AtMost(b, a) ==> a == b
  {
    if a != [] && b != [] && a[0] == b[0] {
      AtMostTotal(a[1..], b[1..]);
      assert a == [a[0]] + a[1..] && b == [b[0]] + b[1..];
    }
  }

  lemma {:induction false} AtMostTransitive(a: bytes, b: bytes, c: bytes)
    requires AtMost(a, b) && AtMost(b, c)
    ensures AtMost(a, c)
  {
    if a != [] && a[0] == b[0] && b[0] == c[0] {
      AtMostTransitive(a[1..], b[1..], c[1..]);
    }
  }

  lemma {:induction false} AtMostIs(a: bytes, b: bytes)
    ensures AtMost(a, b) <==> Precedes(a, b)
  {
    hide Precedes;
    if a == [] || b == [] || a[0] != b[0] {
      EndDecides(a, b);
    } else {
      AtMostIs(a[1..], b[1..]);
      TailDecides(a, b);
    }
  }

  lemma EndDecides(a: bytes, b: bytes)
    requires a == [] || b == [] || a[0] != b[0]
    ensures Precedes(a, b) <==> a == [] || (b != [] && a[0] < b[0])
  {
    if a != [] && b != [] && a[0] < b[0] {
      assert a[..0] == b[..0];
    }
  }

  lemma {:induction false} TailDecides(a: bytes, b: bytes)
    requires a != [] && b != [] && a[0] == b[0]
    ensures Precedes(a, b) <==> Precedes(a[1..], b[1..])
  {
    var s, t := a[1..], b[1..];
    assert a == [a[0]] + s && b == [b[0]] + t;
    if Precedes(s, t) && !(s <= t) {
      var k :| 0 <= k < |s| && k < |t| && s[..k] == t[..k] && s[k] < t[k];
      assert a[..k + 1] == [a[0]] + s[..k] && b[..k + 1] == [b[0]] + t[..k];
      assert a[k + 1] < b[k + 1];
    }
    if Precedes(a, b) && !(a <= b) {
      var k :| 0 <= k < |a| && k < |b| && a[..k] == b[..k] && a[k] < b[k];
      assert s[..k - 1] == a[..k][1..] && t[..k - 1] == b[..k][1..];
      assert s[k - 1] < t[k - 1];
    }
  }

  lemma SortedIsAscendingOrder(s: seq<Coin>)
    ensures Sorted(s) <==> Ascending(s)
  {
    hide AtMost, Precedes;
    forall i, j | 0 <= i < j < |s| ensures AtMost(s[i].denom, s[j].denom) <==> Precedes(s[i].denom, s[j].denom) {
      AtMostIs(s[i].denom, s[j].denom);
    }
  }

  // ---------- the sort ----------

  lemma {:induction false} InsertKeeps(s: seq<Coin>, x: Coin)
    ensures multiset(Insert(s, x)) == multiset(s) + multiset{x}
    ensures |Insert(s, x)| == |s| + 1
  {
    if s != [] && !AtMost(s[|s| - 1].denom, x.denom) {
      InsertKeeps(s[..|s| - 1], x);
      assert s == s[..|s| - 1] + [s[|s| - 1]];
    }
  }

  lemma {:induction false} InsertSorted(s: seq<Coin>, x: Coin)
    requires Sorted(s)
    ensures Sorted(Insert(s, x))
  {
    InsertKeeps(s, x);
    if s == [] {
    } else {
      var last, r := s[|s| - 1], Insert(s, x);
      AtMostTotal(last.denom, x.denom);
      if AtMost(last.denom, x.denom) {
        forall i | 0 <= i < |s| ensures AtMost(s[i].denom, x.denom) {
          if i < |s| - 1 { AtMostTransitive(s[i].denom, last.denom, x.denom); }
        }
      } else {
        var front := s[..|s| - 1];
        InsertSorted(front, x);
        InsertKeeps(front, x);
        forall i | 0 <= i < |r| - 1 ensures AtMost(r[i].denom, last.denom) {
          assert r[i] in multiset(Insert(front, x));
          assert r[i] == x || r[i] in front;
        }
      }
    }
  }

  lemma {:induction false} OfDenomHead(s: seq<Coin>, denom: bytes)
    requires s != []
    ensures s[0].denom == denom ==> OfDenom(s, denom) == [s[0]] + OfDenom(s[1..], denom)
    ensures s[0].denom != denom ==> OfDenom(s, denom) == OfDenom(s[1..], denom)
  {
  }

  lemma {:induction false} OfDenomOfSum(s: seq<Coin>, t: seq<Coin>, denom: bytes)
    requires s != []
    ensures OfDenom(s + t, denom) == (if s[0].denom == denom then [s[0]] else []) + OfDenom(s[1..] + t, denom)
  {
    assert (s + t)[1..] == s[1..] + t && (s + t)[0] == s[0];
  }

  lemma {:induction false} OfDenomAppend(s: seq<Coin>, t: seq<Coin>, denom: bytes)
    ensures OfDenom(s + t, denom) == OfDenom(s, denom) + OfDenom(t, denom)
  {
    if s == [] {
      assert s + t == t;
    } else {
      OfDenomOfSum(s, t, denom);
      OfDenomAppend(s[1..], t, denom);
      Associative(if s[0].denom == denom then [s[0]] else [], OfDenom(s[1..], denom), OfDenom(t, denom));
    }
  }

  lemma Associative(a: seq<Coin>, b: seq<Coin>, c: seq<Coin>)
    ensures a + (b + c) == a + b + c
  {
  }

  lemma {:induction false} InsertStable(s: seq<Coin>, x: Coin, denom: bytes)
    ensures OfDenom(Insert(s, x), denom) == OfDenom(s + [x], denom)
  {
    if s != [] && !AtMost(s[|s| - 1].denom, x.denom) {
      var front, last := s[..|s| - 1], s[|s| - 1];
      assert s == front + [last];
      InsertStable(front, x, denom);
      AtMostTotal(last.denom, x.denom);
      OfDenomAppend(Insert(front, x), [last], denom);
      OfDenomAppend(front, [x], denom);
      OfDenomAppend(front, [last], denom);
      OfDenomAppend(s, [x], denom);
      assert last.denom != x.denom;
    }
  }

  /** The sort is a stable permutation in which denoms ascend. */
  lemma {:induction false} StableSortIs(s: seq<Coin>)
    ensures Sorted(StableSort(s)) && Ascending(StableSort(s))
    ensures multiset(StableSort(s)) == multiset(s)
    ensures SameByDenom(StableSort(s), s)
  {
    hide StableSort, Sorted, Ascending, SameByDenom;
    SortFacts(s);
    SortedIsAscendingOrder(StableSort(s));
  }

  lemma {:induction false} SortFacts(s: seq<Coin>)
    ensures Sorted(StableSort(s))
    ensures multiset(StableSort(s)) == multiset(s)
    ensures SameByDenom(StableSort(s), s)
  {
    if s != [] {
      var front, last := s[..|s| - 1], s[|s| - 1];
      assert s == front + [last];
      SortFacts(front);
      InsertSorted(StableSort(front), last);
      InsertKeeps(StableSort(front), last);
      forall denom: bytes ensures OfDenom(StableSort(s), denom) == OfDenom(s, denom) {
        InsertStable(StableSort(front), last, denom);
        OfDenomAppend(StableSort(front), [last], denom);
        OfDenomAppend(front, [last], denom);
      }
    }
  }

  lemma {:induction false} OfDenomMember(s: seq<Coin>, x: Coin)
    requires x in s
    ensures OfDenom(s, x.denom) != []
  {
    if x != s[0] {
      OfDenomMember(s[1..], x);
    }
  }

  /** Both lists hold the same coins of every denom in the same order. */
  ghost predicate SameByDenom(s: seq<Coin>, t: seq<Coin>) {
    forall denom: bytes :: OfDenom(s, denom) == OfDenom(t, denom)
  }

  lemma {:induction false} OfDenomSound(s: seq<Coin>, denom: bytes)
    ensures forall c | c in OfDenom(s, denom) :: c in s && c.denom == denom
  {
    if s != [] {
      OfDenomSound(s[1..], denom);
    }
  }

  /** Two sorted sequences that agree denom by denom are equal, so sortedness and stability
      determine the result of the sort. */
  lemma {:induction false} SortedStableUnique(s: seq<Coin>, t: seq<Coin>)
    requires Sorted(s) && Sorted(t)
    requires SameByDenom(s, t)
    ensures s == t
  {
    if s == [] && t == [] {
    } else if s == [] {
      OfDenomMember(t, t[0]);
    } else if t == [] {
      OfDenomMember(s, s[0]);
    } else {
      HeadBelow(s, t);
      HeadBelow(t, s);
      AtMostTotal(s[0].denom, t[0].denom);
      var d := s[0].denom;
      assert OfDenom(s, d)[0] == s[0] && OfDenom(t, d)[0] == t[0];
      forall denom: bytes ensures OfDenom(s[1..], denom) == OfDenom(t[1..], denom) {
        assert OfDenom(s, denom) == OfDenom(t, denom);
        var k := if d == denom then 1 else 0;
        assert OfDenom(s, denom)[k..] == OfDenom(s[1..], denom);
        assert OfDenom(t, denom)[k..] == OfDenom(t[1..], denom);
      }
      SortedStableUnique(s[1..], t[1..]);
      assert s == [s[0]] + s[1..] && t == [t[0]] + t[1..];
    }
  }

  lemma {:induction false} HeadBelow(s: seq<Coin>, t: seq<Coin>)
    requires s != [] && t != [] && Sorted(t)
    requires OfDenom(s, s[0].denom) == OfDenom(t, s[0].denom)
    ensures AtMost(t[0].denom, s[0].denom)
  {
    OfDenomMember(s, s[0]);
    var c := OfDenom(t, s[0].denom)[0];
    OfDenomSound(t, s[0].denom);
    AtMostTotal(c.denom, c.denom);
    var i :| 0 <= i < |t| && t[i] == c;
  }

  lemma {:induction false} TotalOfDenom(s: seq<Coin>, t: seq<Coin>, denom: bytes)
    requires OfDenom(s, denom) == OfDenom(t, denom)
    ensures Total(s, denom) == Total(t, denom)
  {
    TotalIsSum(s, denom);
    TotalIsSum(t, denom);
  }

  function Sum(s: seq<Coin>): nat {
    if s == [] then 0 else s[0].amount + Sum(s[1..])
  }

  lemma {:induction false} TotalIsSum(s: seq<Coin>, denom: bytes)
    ensures Total(s, denom) == Sum(OfDenom(s, denom))
  {
    if s != [] {
      TotalIsSum(s[1..], denom);
      OfDenomHead(s, denom);
      if s[0].denom == denom {
        assert OfDenom(s, denom)[1..] == OfDenom(s[1..], denom);
      }
    }
  }

  // ---------- the in-place sort of `coins_to_proto` and `init_account` ----------

  method SortByDenom(a: array<Coin>)
    modifies a
    ensures a[..] == StableSort(old(a[..]))
    ensures Ascending(a[..]) && SameByDenom(a[..], old(a[..]))
  {
    ghost var was := a[..];
    StableSortIs(was);
    var i := 0;
    while i < a.Length
      invariant 0 <= i <= a.Length
      invariant a[..i] == StableSort(was[..i])
      invariant |was| == a.Length && a[i..] == was[i..]
    {
      SortOneMore(was, i);
      assert a[i] == a[i..][0] && a[i + 1..] == a[i..][1..];
      InsertAt(a, i);
      i := i + 1;
    }
    assert a[..i] == a[..] && was[..i] == was;
  }

  lemma SortOneMore(s: seq<Coin>, i: nat)
    requires i < |s|
    ensures StableSort(s[..i + 1]) == Insert(StableSort(s[..i]), s[i])
  {
    assert s[..i + 1][..i] == s[..i];
  }

  method InsertAt(a: array<Coin>, i: nat)
    requires i < a.Length
    modifies a
    ensures a[..i + 1] == Insert(old(a[..i]), old(a[i]))
    ensures a[i + 1..] == old(a[i + 1..])
  {
    hide AtMost, Insert;
    ghost var s := a[..i];
    var x, j := a[i], i;
    while j > 0 && !AtMost(a[j - 1].denom, x.denom)
      invariant 0 <= j <= i
      invariant a[..j] == s[..j] && a[j + 1..i + 1] == s[j..]
      invariant a[i + 1..] == old(a[i + 1..])
      invariant forall k | j <= k < i :: !AtMost(s[k].denom, x.denom)
    {
      a[j] := a[j - 1];
      j := j - 1;
    }
    a[j] := x;
    InsertIsAt(s, x, j);
    SpliceAt(a[..i + 1], s, x, j);
  }

  lemma SpliceAt(r: seq<Coin>, s: seq<Coin>, x: Coin, j: nat)
    requires j <= |s| && |r| == |s| + 1 && r[j] == x && r[..j] == s[..j] && r[j + 1..] == s[j..]
    ensures r == s[..j] + [x] + s[j..]
  {
  }

  lemma {:induction false} InsertIsAt(s: seq<Coin>, x: Coin, j: nat)
    requires j <= |s| && (j > 0 ==> AtMost(s[j - 1].denom, x.denom))
    requires forall k | j <= k < |s| :: !AtMost(s[k].denom, x.denom)
    ensures Insert(s, x) == s[..j] + [x] + s[j..]
  {
    if j < |s| {
      var front := s[..|s| - 1];
      InsertIsAt(front, x, j);
      assert front[..j] == s[..j] && front[j..] + [s[|s| - 1]] == s[j..];
    } else {
      assert s[..j] == s && s[j..] == [];
    }
  }

  // ---------- coins_to_proto and back ----------

  function ToProto(c: Coin): ProtoCoin {
    ProtoCoin(c.denom, Decimal.Print(c.amount))
  }

  function Mapped(s: seq<Coin>): seq<ProtoCoin> {
    seq(|s|, i requires 0 <= i < |s| => ToProto(s[i]))
  }

  function CoinsToProto(coins: seq<Coin>): seq<ProtoCoin> {
    Mapped(StableSort(coins))
  }

  /** `proto_coin_to_coin`; an amount that does not parse panics. */
  function ProtoToCoin(p: ProtoCoin): Outcome<Coin> {
    match Decimal.ParseU128(p.amount)
    case None => Panicked
    case Some(n) => Returned(Coin(p.denom, n))
  }

  function ProtoToCoins(ps: seq<ProtoCoin>): Outcome<seq<Coin>> {
    if ps == [] then Returned([])
    else
      var c :- ProtoToCoin(ps[0]);
      var rest :- ProtoToCoins(ps[1..]);
      Returned([c] + rest)
  }

  lemma {:induction false} MappedBack(s: seq<Coin>)
    ensures ProtoToCoins(Mapped(s)) == Returned(s)
  {
    if s != [] {
      Decimal.ParsePrint(s[0].amount);
      assert Mapped(s)[1..] == Mapped(s[1..]);
      MappedBack(s[1..]);
      assert s == [s[0]] + s[1..];
    } else {
      assert Mapped(s) == [];
    }
  }

  lemma AmountsAreCanonical(s: seq<Coin>)
    ensures forall p | p in Mapped(s) :: Decimal.Canonical(p.amount)
  {
    hide Decimal.Canonical;
    forall p | p in Mapped(s) ensures Decimal.Canonical(p.amount) {
      var i :| 0 <= i < |s| && p == ToProto(s[i]);
      Decimal.DigitsOfPrint(s[i].amount);
    }
  }

  /** Converting to protobuf and back is exactly the stable sort: no amount changes, no coin is
      lost, every denom keeps its coins in order and its total. Amounts have no sign and no leading
      zero. */
  lemma {:induction false} ProtoRoundTrip(coins: seq<Coin>)
    ensures ProtoToCoins(CoinsToProto(coins)) == Returned(StableSort(coins))
    ensures Ascending(StableSort(coins)) && multiset(StableSort(coins)) == multiset(coins)
    ensures SameByDenom(StableSort(coins), coins)
    ensures forall denom: bytes :: Total(StableSort(coins), denom) == Total(coins, denom)
    ensures forall p | p in CoinsToProto(coins) :: Decimal.Canonical(p.amount)
  {
    AmountsAreCanonical(StableSort(coins));
    MappedBack(StableSort(coins));
    StableSortIs(coins);
    forall denom: bytes ensures Total(StableSort(coins), denom) == Total(coins, denom) {
      TotalOfDenom(StableSort(coins), coins, denom);
    }
  }

  /** Two coin lists give the same message exactly when they agree denom by denom. */
  lemma SameProtoExactly(s: seq<Coin>, t: seq<Coin>)
    ensures CoinsToProto(s) == CoinsToProto(t) <==> SameByDenom(s, t)
  {
    StableSortIs(s);
    StableSortIs(t);
    if CoinsToProto(s) == CoinsToProto(t) {
      MappedBack(StableSort(s));
      MappedBack(StableSort(t));
      forall denom: bytes ensures OfDenom(s, denom) == OfDenom(t, denom) {
        assert OfDenom(StableSort(s), denom) == OfDenom(s, denom);
        assert OfDenom(StableSort(t), denom) == OfDenom(t, denom);
      }
    }
    if SameByDenom(s, t) {
      forall denom: bytes ensures OfDenom(StableSort(s), denom) == OfDenom(StableSort(t), denom) {
        assert OfDenom(StableSort(s), denom) == OfDenom(s, denom) == OfDenom(t, denom);
        assert OfDenom(StableSort(t), denom) == OfDenom(t, denom);
      }
      SortedStableUnique(StableSort(s), StableSort(t));
    }
  }

  /** Normalising what a normalised message converts back to gives the same message. */
  lemma NormaliseTwice(coins: seq<Coin>)
    ensures ProtoToCoins(CoinsToProto(coins)).Returned?
    ensures CoinsToProto(ProtoToCoins(CoinsToProto(coins)).value) == CoinsToProto(coins)
  {
    ProtoRoundTrip(coins);
    SameProtoExactly(StableSort(coins), coins);
  }

  predicate DistinctDenoms(s: seq<Coin>) {
    forall i, j | 0 <= i < j < |s| :: s[i].denom != s[j].denom
  }

  /** Sorting makes coins acceptable to the bank keeper exactly when no denom occurs twice and no
      amount is zero. */
  lemma {:induction false} SortedIsFundable(s: seq<Coin>)
    ensures Fundable(StableSort(s)) <==> DistinctDenoms(s) && forall c | c in s :: c.amount >= 1
  {
    hide StableSort, StrictlyAscending, DistinctDenoms;
    SortedIsAscending(s);
    StableSortIs(s);
    forall c ensures c in StableSort(s) <==> c in s {
      assert c in StableSort(s) <==> c in multiset(StableSort(s));
      assert c in s <==> c in multiset(s);
    }
  }

  lemma {:induction false} SortedIsAscending(s: seq<Coin>)
    ensures StrictlyAscending(StableSort(s)) <==> DistinctDenoms(s)
  {
    hide StableSort, AtMost;
    StableSortIs(s);
    if DistinctDenoms(s) {
      DistinctFromDenoms(StableSort(s), s);
    } else {
      if StrictlyAscending(StableSort(s)) {
        DistinctFromDenoms(s, StableSort(s));
      }
    }
  }

  lemma DistinctFromDenoms(s: seq<Coin>, t: seq<Coin>)
    requires SameByDenom(s, t) && DistinctDenoms(t)
    ensures DistinctDenoms(s)
  {
    DistinctByDenom(s);
    forall denom: bytes ensures |OfDenom(s, denom)| <= 1 {
      OfDistinctDenom(t, denom);
      assert OfDenom(s, denom) == OfDenom(t, denom);
    }
  }

  /** No denom occurs twice exactly when no denom has more than one coin. */
  lemma {:induction false} DistinctByDenom(s: seq<Coin>)
    ensures DistinctDenoms(s) <==> forall denom: bytes :: |OfDenom(s, denom)| <= 1
  {
    if DistinctDenoms(s) {
      forall denom: bytes ensures |OfDenom(s, denom)| <= 1 { OfDistinctDenom(s, denom); }
    } else {
      var i, j :| 0 <= i < j < |s| && s[i].denom == s[j].denom;
      var denom := s[i].denom;
      assert s == s[..j] + s[j..];
      OfDenomAppend(s[..j], s[j..], denom);
      assert s[..j][i] == s[i] && s[j..][0] == s[j];
      OfDenomMember(s[..j], s[i]);
      OfDenomMember(s[j..], s[j]);
      assert |OfDenom(s, denom)| > 1;
    }
  }

  lemma {:induction false} AbsentDenom(s: seq<Coin>, denom: bytes)
    requires forall i | 0 <= i < |s| :: s[i].denom != denom
    ensures OfDenom(s, denom) == []
  {
    if s != [] {
      AbsentDenom(s[1..], denom);
    }
  }

  lemma {:induction false} OfDistinctDenom(s: seq<Coin>, denom: bytes)
    requires DistinctDenoms(s)
    ensures |OfDenom(s, denom)| <= 1
  {
    if s != [] {
      OfDenomHead(s, denom);
      if s[0].denom == denom {
        AbsentDenom(s[1..], denom);
      } else {
        OfDistinctDenom(s[1..], denom);
      }
    }
  }

  /** The order of coins with distinct denoms does not matter. */
  lemma PermutationsGiveSameProto(s: seq<Coin>, t: seq<Coin>)
    requires multiset(s) == multiset(t) && DistinctDenoms(s) && DistinctDenoms(t)
    ensures CoinsToProto(s) == CoinsToProto(t)
  {
    forall denom: bytes ensures OfDenom(s, denom) == OfDenom(t, denom) {
      OfDistinctDenom(s, denom);
      OfDistinctDenom(t, denom);
      SameMembers(s, t, denom);
      SameMembers(t, s, denom);
      SameShortLists(OfDenom(s, denom), OfDenom(t, denom));
    }
    SameProtoExactly(s, t);
  }

  lemma SameShortLists(s: seq<Coin>, t: seq<Coin>)
    requires |s| <= 1 && |t| <= 1
    requires (forall c | c in s :: c in t) && (forall c | c in t :: c in s)
    ensures s == t
  {
    if s != [] {
      assert s[0] in t;
    }
    if t != [] {
      assert t[0] in s;
    }
  }

  lemma {:induction false} SameMembers(s: seq<Coin>, t: seq<Coin>, denom: bytes)
    requires multiset(s) == multiset(t)
    ensures forall c | c in OfDenom(s, denom) :: c in OfDenom(t, denom)
  {
    OfDenomSound(s, denom);
    forall c | c in OfDenom(s, denom) ensures c in OfDenom(t, denom) {
      assert c in multiset(s);
      OfDenomHas(t, c);
    }
  }

  lemma {:induction false} OfDenomHas(s: seq<Coin>, x: Coin)
    requires x in s
    ensures x in OfDenom(s, x.denom)
  {
    if x != s[0] {
      OfDenomHas(s[1..], x);
    }
  }

  /** The amount of a Custom fee: `amount.to_string().parse().unwrap()`. */
  function CustomFeeAmount(amount: u128): Outcome<u128> {
    match Decimal.ParseU128(Decimal.Print(amount))
    case None => Panicked
    case Some(n) => Returned(n)
  }

  lemma CustomFeeAmountUnchanged(amount: u128)
    ensures CustomFeeAmount(amount) == Returned(amount)
  {
    Decimal.ParsePrint(amount);
  }
}
