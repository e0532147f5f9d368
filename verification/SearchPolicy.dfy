/** Which method card is tried next, and which evidence flags earlier cards have earned. */
module SearchPolicy {
  import opened Options

  type CardId = string
  type Flag = string

  datatype Card = Card(
    id: CardId, search: bool, family: string, prerequisite: Option<Flag>, dependencies: seq<Flag>,
    expectedGain: real, costSeconds: int, memoryMb: int)

  // ---- the order on utilities ------------------------------------------------

  predicate Before(a: string, b: string)
  {
    if b == [] then false
    else if a == [] then true
    else a[0] < b[0] || (a[0] == b[0] && Before(a[1..], b[1..]))
  }

  lemma {:induction false} BeforeIsTotal(a: string, b: string)
    ensures a == b || Before(a, b) || Before(b, a)
    ensures !(Before(a, b) && Before(b, a))
    ensures !Before(a, a)
  {
    if a != [] {
      BeforeIsTotal(a[1..], a[1..]);
    }
    if a != [] && b != [] {
      BeforeIsTotal(a[1..], b[1..]);
      if a[0] == b[0] && a[1..] == b[1..] {
        assert a == [a[0]] + a[1..] && b == [b[0]] + b[1..];
      }
    }
  }

  /** The order of Python's strings: a shared front, then the smaller character or the end. */
  lemma {:induction false} BeforeAtFork(front: string, a: string, b: string)
    requires b != [] && (a == [] || a[0] < b[0])
    ensures Before(front + a, front + b)
  {
    if front == [] {
      assert front + a == a && front + b == b;
    } else {
      BeforeAtFork(front[1..], a, b);
      assert (front + a)[1..] == front[1..] + a && (front + b)[1..] == front[1..] + b;
    }
  }

  lemma {:induction false} BeforeIsTransitive(a: string, b: string, c: string)
    requires Before(a, b) && Before(b, c)
    ensures Before(a, c)
  {
    if a != [] && a[0] == b[0] == c[0] {
      BeforeIsTransitive(a[1..], b[1..], c[1..]);
    }
  }

  function Families(cards: seq<Card>, ids: set<CardId>): set<string>
  {
    set c | c in cards && c.id in ids :: c.family
  }

  /** Expected gain, discounted by novelty, cost and memory. */
  function Worth(c: Card, familiar: set<string>): real
  {
    var novelty := if c.family !in familiar then 1.25 else 1.0;
    var cost := if c.costSeconds > 600 then c.costSeconds as real / 600.0 else 1.0;
    var risk := if c.memoryMb > 1536 then 1.0 + (c.memoryMb - 1536) as real / 8192.0 else 1.0;
    c.expectedGain * novelty / cost / risk
  }

  /** Strictly smaller (utility, id) pair: worth more, or worth the same with the earlier id. */
  predicate Preferred(a: Card, b: Card, familiar: set<string>)
  {
    Worth(a, familiar) > Worth(b, familiar) || (Worth(a, familiar) == Worth(b, familiar) && Before(a.id, b.id))
  }

  predicate Eligible(c: Card, attempted: set<CardId>, flags: set<Flag>)
  {
    && c.search && c.id !in attempted
    && (c.prerequisite.Some? ==> c.prerequisite.value in flags)
    && forall d :: d in c.dependencies ==> d in flags
  }

  const ISOLATION := "E16"

  function Filter(cards: seq<Card>, attempted: set<CardId>, flags: set<Flag>): seq<Card>
  {
    if cards == [] then []
    else (if Eligible(cards[0], attempted, flags) then [cards[0]] else []) + Filter(cards[1..], attempted, flags)
  }

  function FirstNamed(cards: seq<Card>, id: CardId): Option<Card>
  {
    if cards == [] then None else if cards[0].id == id then Some(cards[0]) else FirstNamed(cards[1..], id)
  }

  /** `min` keeps the earliest of equal elements. */
  function Min(cards: seq<Card>, familiar: set<string>): Card
    requires cards != []
  {
    if |cards| == 1 then cards[0]
    else
      var rest := Min(cards[1..], familiar);
      if Preferred(rest, cards[0], familiar) then rest else cards[0]
  }

  function NextCard(cards: seq<Card>, attempted: set<CardId>, flags: set<Flag>): Option<Card>
  {
    var eligible := Filter(cards, attempted, flags);
    if eligible == [] then None
    else if FirstNamed(eligible, ISOLATION).Some? then FirstNamed(eligible, ISOLATION)
    else Some(Min(eligible, Families(cards, attempted)))
  }

  // ---- what the choice means -------------------------------------------------

  lemma {:induction false} FilterHolds(cards: seq<Card>, attempted: set<CardId>, flags: set<Flag>, c: Card)
    ensures c in Filter(cards, attempted, flags) <==> c in cards && Eligible(c, attempted, flags)
  {
    if cards != [] {
      FilterHolds(cards[1..], attempted, flags, c);
    }
  }

  lemma {:induction false} FirstNamedFinds(cards: seq<Card>, id: CardId)
    ensures var r := FirstNamed(cards, id);
      if r.Some? then r.value in cards && r.value.id == id else forall c :: c in cards ==> c.id != id
  {
    if cards != [] && cards[0].id != id {
      FirstNamedFinds(cards[1..], id);
    }
  }

  lemma {:induction false} MinIsUnbeaten(cards: seq<Card>, familiar: set<string>)
    requires cards != []
    ensures Min(cards, familiar) in cards
    ensures forall c :: c in cards ==> !Preferred(c, Min(cards, familiar), familiar)
  {
    if |cards| == 1 {
      BeforeIsTotal(cards[0].id, cards[0].id);
    } else {
      var rest := Min(cards[1..], familiar);
      MinIsUnbeaten(cards[1..], familiar);
      forall c | c in cards ensures !Preferred(c, Min(cards, familiar), familiar) {
        BeforeIsTotal(c.id, rest.id);
        BeforeIsTotal(rest.id, cards[0].id);
        BeforeIsTotal(c.id, cards[0].id);
        if c != cards[0] {
          assert c in cards[1..];
        }
        if !Preferred(rest, cards[0], familiar) && Preferred(c, cards[0], familiar) {
          if Before(c.id, cards[0].id) && Before(cards[0].id, rest.id) {
            BeforeIsTransitive(c.id, cards[0].id, rest.id);
          }
        }
      }
    }
  }

  /** The choice is eligible, and is the isolation card or is not beaten by any eligible card. */
  ghost predicate Chosen(c: Card, cards: seq<Card>, attempted: set<CardId>, flags: set<Flag>)
  {
    && c in cards && Eligible(c, attempted, flags)
    && (c.id == ISOLATION
        || forall d :: d in cards && Eligible(d, attempted, flags) ==>
             d.id != ISOLATION && !Preferred(d, c, Families(cards, attempted)))
  }

  lemma NextCardChooses(cards: seq<Card>, attempted: set<CardId>, flags: set<Flag>)
    ensures var r := NextCard(cards, attempted, flags);
      && (r.None? <==> forall c :: c in cards ==> !Eligible(c, attempted, flags))
      && (r.Some? ==> Chosen(r.value, cards, attempted, flags))
  {
    var eligible := Filter(cards, attempted, flags);
    forall c: Card ensures c in eligible <==> c in cards && Eligible(c, attempted, flags) {
      FilterHolds(cards, attempted, flags, c);
    }
    FirstNamedFinds(eligible, ISOLATION);
    if eligible != [] {
      assert eligible[0] in cards;
      MinIsUnbeaten(eligible, Families(cards, attempted));
    }
  }

  /** What a chosen card fulfils, and what every card lacks when none is chosen. */
  lemma NextCardMayRun(cards: seq<Card>, attempted: set<CardId>, flags: set<Flag>)
    ensures var r := NextCard(cards, attempted, flags);
      && (r.Some? ==>
            && r.value in cards && r.value.search && r.value.id !in attempted
            && (r.value.prerequisite.Some? ==> r.value.prerequisite.value in flags)
            && forall d :: d in r.value.dependencies ==> d in flags)
      && (r.None? ==> forall c :: c in cards ==>
            || !c.search || c.id in attempted
            || (c.prerequisite.Some? && c.prerequisite.value !in flags)
            || exists d :: d in c.dependencies && d !in flags)
  {
    NextCardChooses(cards, attempted, flags);
  }

  /** A card that is eligible under the isolation id is always taken first. */
  lemma IsolationComesFirst(cards: seq<Card>, attempted: set<CardId>, flags: set<Flag>)
    requires exists c :: c in cards && c.id == "E16" && Eligible(c, attempted, flags)
    ensures NextCard(cards, attempted, flags).Some? && NextCard(cards, attempted, flags).value.id == "E16"
  {
    NextCardChooses(cards, attempted, flags);
  }

  /** Otherwise no eligible card is worth more, and among equals the earlier id is taken. */
  lemma ChosenIsWorthMost(cards: seq<Card>, attempted: set<CardId>, flags: set<Flag>, d: Card)
    requires d in cards && Eligible(d, attempted, flags)
    ensures var r, familiar := NextCard(cards, attempted, flags), Families(cards, attempted);
      && r.Some?
      && (r.value.id != "E16" ==>
            && Worth(d, familiar) <= Worth(r.value, familiar)
            && (Worth(d, familiar) == Worth(r.value, familiar) && d.id != r.value.id ==> Before(r.value.id, d.id)))
  {
    hide Worth, Before, NextCard, Families;
    NextCardChooses(cards, attempted, flags);
    BeforeIsTotal(d.id, NextCard(cards, attempted, flags).value.id);
  }

  // ---- what a card is worth ----------------------------------------------------

  /**
    Up to ten minutes and 1536 MB a card is worth its expected gain, a quarter more in a
    family that was not tried yet.
   */
  lemma WorthOfCheapCard(c: Card, familiar: set<string>)
    requires c.costSeconds <= 600 && c.memoryMb <= 1536
    ensures 4.0 * Worth(c, familiar) == (if c.family in familiar then 4.0 else 5.0) * c.expectedGain
  {}

  /** Cost beyond ten minutes divides by the multiple; memory beyond 1536 MB by one more per eight GiB. */
  lemma WorthOfDearCard(c: Card, familiar: set<string>)
    ensures var cheap := c.(costSeconds := 0, memoryMb := 0);
      var cost := if c.costSeconds > 600 then c.costSeconds as real else 600.0;
      var memory := if c.memoryMb > 1536 then (c.memoryMb - 1536) as real else 0.0;
      Worth(c, familiar) * (cost / 600.0) * (1.0 + memory / 8192.0) == Worth(cheap, familiar)
  {
    var gain := c.expectedGain * (if c.family !in familiar then 1.25 else 1.0);
    var cost := if c.costSeconds > 600 then c.costSeconds as real / 600.0 else 1.0;
    var risk := if c.memoryMb > 1536 then 1.0 + (c.memoryMb - 1536) as real / 8192.0 else 1.0;
    TwoQuotients(gain, cost, risk);
    assert Worth(c, familiar) == gain / cost / risk;
    assert Worth(c.(costSeconds := 0, memoryMb := 0), familiar) == gain / 1.0 / 1.0;
  }

  lemma TwoQuotients(a: real, b: real, c: real)
    requires b != 0.0 && c != 0.0
    ensures a / b / c * b * c == a
  {
    var q := a / b;
    var r := q / c;
    assert r * c == q && q * b == a;
    assert r * b * c == r * c * b;
  }

  ghost predicate UniqueIds(cards: seq<Card>)
  {
    forall c, d :: c in cards && d in cards && c.id == d.id ==> c == d
  }

  /** With unique ids at most one card can be the choice. */
  lemma ChosenIsUnique(c: Card, d: Card, cards: seq<Card>, attempted: set<CardId>, flags: set<Flag>)
    requires UniqueIds(cards)
    requires Chosen(c, cards, attempted, flags) && Chosen(d, cards, attempted, flags)
    ensures c == d
  {
    BeforeIsTotal(c.id, d.id);
  }

  /** The order of the queue does not matter. */
  lemma ChoiceIgnoresQueueOrder(cards: seq<Card>, shuffled: seq<Card>, attempted: set<CardId>, flags: set<Flag>)
    requires UniqueIds(cards) && forall c :: c in cards <==> c in shuffled
    ensures NextCard(cards, attempted, flags) == NextCard(shuffled, attempted, flags)
  {
    NextCardChooses(cards, attempted, flags);
    NextCardChooses(shuffled, attempted, flags);
    assert Families(cards, attempted) == Families(shuffled, attempted);
    var a, b := NextCard(cards, attempted, flags), NextCard(shuffled, attempted, flags);
    if a.Some? && b.Some? {
      assert Chosen(b.value, cards, attempted, flags);
      ChosenIsUnique(a.value, b.value, cards, attempted, flags);
    }
  }

  // ---- evidence flags --------------------------------------------------------

  const TREE_OR_HISTORY: set<CardId> := {"E02", "E03", "E06", "E07", "E08"}
  const PAIRWISE := "E01"
  const TWO_BRANCHES := "two_branches_supported"
  const TWO_FAMILIES := "two_diverse_families_supported"

  function Earned(supports: map<CardId, set<Flag>>, cards: set<CardId>): set<Flag>
  {
    set c, f | c in cards && c in supports && f in supports[c] :: f
  }

  predicate TwoBranches(supported: set<CardId>)
  {
    PAIRWISE in supported && supported * TREE_OR_HISTORY != {}
  }

  /** The flags earned by the cards that reached a diagnosis; `queue` is the default queue. */
  function EvidenceFlags(supports: map<CardId, set<Flag>>, queue: seq<Card>, supported: set<CardId>): set<Flag>
  {
    Earned(supports, supported)
    + (if TwoBranches(supported) then {TWO_BRANCHES} else {})
    + (if |Families(queue, supported)| >= 2 then {TWO_FAMILIES} else {})
  }

  /**
    A flag is there because a supported card earns it, or because of the diversity of the
    supported cards: the pairwise one with a tree or history one, or two families.
   */
  lemma FlagsMeaning(supports: map<CardId, set<Flag>>, queue: seq<Card>, supported: set<CardId>, f: Flag)
    ensures f in EvidenceFlags(supports, queue, supported) <==>
      || (exists c :: c in supported && c in supports && f in supports[c])
      || (f == "two_branches_supported" && "E01" in supported
          && ("E02" in supported || "E03" in supported || "E06" in supported || "E07" in supported
              || "E08" in supported))
      || (f == "two_diverse_families_supported"
          && exists c, d :: c in queue && d in queue && c.id in supported && d.id in supported && c.family != d.family)
  {
    TwoFamilies(queue, supported);
    if TwoBranches(supported) {
      var c :| c in supported * TREE_OR_HISTORY;
    }
    if "E01" in supported {
      assert forall c :: c in supported && c in TREE_OR_HISTORY ==> c in supported * TREE_OR_HISTORY;
    }
  }

  lemma TwoFamilies(queue: seq<Card>, supported: set<CardId>)
    ensures |Families(queue, supported)| >= 2 <==>
      exists c, d :: c in queue && d in queue && c.id in supported && d.id in supported && c.family != d.family
  {
    var families := Families(queue, supported);
    if |families| >= 2 {
      var a, b := TwoOf(families);
      var c :| c in queue && c.id in supported && c.family == a;
      var d :| d in queue && d.id in supported && d.family == b;
    }
    forall c, d | c in queue && d in queue && c.id in supported && d.id in supported && c.family != d.family
      ensures |families| >= 2
    {
      assert {c.family, d.family} <= families;
      SubsetIsSmaller({c.family, d.family}, families);
    }
  }

  lemma TwoOf<T>(s: set<T>) returns (a: T, b: T)
    requires |s| >= 2
    ensures a in s && b in s && a != b
  {
    a :| a in s;
    assert s == {a} + (s - {a});
    b :| b in s - {a};
  }

  lemma EarnedByOneMore(supports: map<CardId, set<Flag>>, done: set<CardId>, c: CardId)
    ensures Earned(supports, done + {c}) == Earned(supports, done) + (if c in supports then supports[c] else {})
  {}

  lemma MoveOne<T>(done: set<T>, left: set<T>, c: T)
    requires c in left
    ensures (done + {c}) + (left - {c}) == done + left
    ensures |left - {c}| < |left|
  {}

  method CollectEarned(supports: map<CardId, set<Flag>>, supported: set<CardId>) returns (flags: set<Flag>)
    ensures flags == Earned(supports, supported)
  {
    flags := {};
    var left, done := supported, {};
    while left != {}
      invariant done + left == supported
      invariant flags == Earned(supports, done)
      decreases |left|
    {
      hide Earned;
      var c :| c in left;
      EarnedByOneMore(supports, done, c);
      MoveOne(done, left, c);
      if c in supports {
        flags := flags + supports[c];
      }
      left, done := left - {c}, done + {c};
    }
    assert done == supported;
  }

  method CollectFlags(supports: map<CardId, set<Flag>>, queue: seq<Card>, supported: set<CardId>)
    returns (flags: set<Flag>)
    ensures flags == EvidenceFlags(supports, queue, supported)
  {
    hide TwoBranches, Families, Earned;
    flags := CollectEarned(supports, supported);
    if TwoBranches(supported) {
      flags := flags + {TWO_BRANCHES};
    }
    if |Families(queue, supported)| >= 2 {
      flags := flags + {TWO_FAMILIES};
    }
  }

  lemma SubsetIsSmaller<T>(a: set<T>, b: set<T>)
    requires a <= b
    ensures |a| <= |b|
  {
    assert |b| == |a| + |b - a| by {
      assert b == a + (b - a);
    }
  }

  /** More evidence never takes a flag away, so it never makes a card ineligible. */
  lemma FlagsOnlyGrow(supports: map<CardId, set<Flag>>, queue: seq<Card>, fewer: set<CardId>, more: set<CardId>)
    requires fewer <= more
    ensures EvidenceFlags(supports, queue, fewer) <= EvidenceFlags(supports, queue, more)
  {
    assert Families(queue, fewer) <= Families(queue, more);
    SubsetIsSmaller(Families(queue, fewer), Families(queue, more));
    assert fewer * TREE_OR_HISTORY <= more * TREE_OR_HISTORY;
  }
}
