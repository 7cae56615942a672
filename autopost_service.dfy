/**
 * The autopost selection engine: weight loading, the cumulative-weight
 * category picker, the availability probe, and the cascading fallback that
 * removes an exhausted category and tries again with the same draw.
 *
 * The database is an in-memory `Store`; the random calls of one selection
 * (`random_int` for a draw that was not supplied, `inRandomOrder` for the
 * probe) are the explicit `Coins` of that selection.
 */
module AutopostService {
  import opened Wrappers
  import opened SocialMediaContent

  /** A row of social_media_account_category_weights. */
  datatype WeightRow = WeightRow(accountId: AccountId, categoryId: CategoryId, weight: int)

  /** One entry of a working weight set: a category id with its weight. */
  datatype WeightEntry = WeightEntry(categoryId: CategoryId, weight: int)

  /**
   * The tables a selection reads. `postedIds` and `scheduledIds` are the ids
   * of the contents that have at least one post row and at least one
   * schedule row.
   */
  datatype Store = Store(
    weights: seq<WeightRow>,
    contents: seq<Content>,
    postedIds: set<ContentId>,
    scheduledIds: set<ContentId>)

  /**
   * The random outcomes of one selection: `draws(k)` stands for the
   * `random_int` of the k-th pick, `ties(k)` for the random order of the
   * k-th probe (attempts are numbered from 0).
   */
  datatype Coins = Coins(draws: nat -> nat, ties: nat -> nat)

  /* ---------------- Schema facts ---------------- */

  /**
   * Weight rows as the schema allows them: an unsigned tinyint weight, and at
   * most one row per (account, category) pair.
   */
  ghost predicate WellFormedWeights(rows: seq<WeightRow>) {
    && (forall i :: 0 <= i < |rows| ==> 0 <= rows[i].weight <= 255)
    && (forall i, j :: 0 <= i < j < |rows| && rows[i].accountId == rows[j].accountId ==>
          rows[i].categoryId != rows[j].categoryId)
  }

  /* ---------------- Weight sets ---------------- */

  ghost predicate Positive(ws: seq<WeightEntry>) {
    forall i :: 0 <= i < |ws| ==> ws[i].weight > 0
  }

  ghost predicate DistinctCategories(ws: seq<WeightEntry>) {
    forall i, j :: 0 <= i < j < |ws| ==> ws[i].categoryId != ws[j].categoryId
  }

  ghost function Categories(ws: seq<WeightEntry>): set<CategoryId> {
    set e | e in ws :: e.categoryId
  }

  /** The sum of the weights of a set. */
  function TotalWeight(ws: seq<WeightEntry>): (total: int)
    ensures Positive(ws) ==> total >= |ws|
  {
    if ws == [] then 0 else ws[0].weight + TotalWeight(ws[1..])
  }

  /** Tinyint weights sum to at most 255 each. */
  lemma {:induction false} TotalWeightBounds(ws: seq<WeightEntry>)
    ensures (forall i :: 0 <= i < |ws| ==> 0 <= ws[i].weight <= 255) ==> 0 <= TotalWeight(ws) <= 255 * |ws|
  {
    if ws != [] {
      TotalWeightBounds(ws[1..]);
      assert forall i :: 0 <= i < |ws[1..]| ==> ws[1..][i] == ws[i + 1];
    }
  }

  /** The running cumulative weight after the first `k` entries. */
  function Prefix(ws: seq<WeightEntry>, k: nat): int
    requires k <= |ws|
  {
    TotalWeight(ws[..k])
  }

  /**
   * loadWeights: the account's rows whose weight is positive, in table order,
   * as `(category, weight)` entries.
   */
  function LoadWeights(rows: seq<WeightRow>, accountId: AccountId): (ws: seq<WeightEntry>)
    ensures Positive(ws)
    ensures |ws| <= |rows|
    ensures forall e :: e in ws <==>
      exists row :: row in rows && row.accountId == accountId && row.weight > 0 &&
        e == WeightEntry(row.categoryId, row.weight)
  {
    if rows == [] then []
    else
      var row := rows[0];
      var rest := LoadWeights(rows[1..], accountId);
      if row.accountId == accountId && row.weight > 0 then [WeightEntry(row.categoryId, row.weight)] + rest
      else rest
  }

  /* ---------------- The cumulative-weight picker ---------------- */

  /**
   * The draw of one pick: a supplied draw is used as it is, out-of-range
   * values included; otherwise the coin chooses a value in [1, total]
   * (AnyDrawReachable: every such value is the choice of some coin).
   */
  function ResolveDraw(draw: Option<int>, total: int, coin: nat): (r: int)
    requires draw.None? ==> total > 0
    ensures draw.Some? ==> r == draw.value
    ensures draw.None? ==> 1 <= r <= total
  {
    match draw
    case Some(v) => v
    case None => 1 + coin % total
  }

  /** Every value in [1, total] is the generated draw for some coin. */
  lemma AnyDrawReachable(total: int, v: int)
    requires 1 <= v <= total
    ensures exists coin: nat :: ResolveDraw(None, total, coin) == v
  {
    var coin: nat := v - 1;
    assert coin % total == coin;
    assert ResolveDraw(None, total, coin) == v;
  }

  /**
   * The index of the entry the picker returns: the first entry whose
   * cumulative weight reaches the draw, or the last entry when none does.
   */
  function PickIndex(ws: seq<WeightEntry>, draw: int): (k: nat)
    requires |ws| > 0
    ensures k < |ws|
  {
    if |ws| == 1 || draw <= ws[0].weight then 0
    else 1 + PickIndex(ws[1..], draw - ws[0].weight)
  }

  /** The category pickCategoryByCumulativeWeight returns for a draw. */
  function Pick(ws: seq<WeightEntry>, draw: int): (categoryId: CategoryId)
    requires |ws| > 0
    ensures categoryId in Categories(ws)
  {
    ws[PickIndex(ws, draw)].categoryId
  }

  /**
   * The running cumulative weight at the moment the picker returns: the
   * upper edge of the picked entry's range (the total when the draw ran past it).
   */
  function CumulativeAtPick(ws: seq<WeightEntry>, draw: int): (c: int)
    requires |ws| > 0
    ensures c == Prefix(ws, PickIndex(ws, draw) + 1)
    ensures forall j :: 1 <= j <= PickIndex(ws, draw) ==> Prefix(ws, j) < draw
    ensures PickIndex(ws, draw) < |ws| - 1 ==> draw <= c
    ensures 1 <= draw <= TotalWeight(ws) ==> c - ws[PickIndex(ws, draw)].weight < draw <= c
    ensures PickIndex(ws, draw) == |ws| - 1 ==> c == TotalWeight(ws)
  {
    var k := PickIndex(ws, draw);
    PrefixStep(ws, k);
    PrefixFull(ws);
    PickIsFirstCover(ws, draw);
    if 1 <= draw <= TotalWeight(ws) then PickInRange(ws, draw); Prefix(ws, k + 1)
    else Prefix(ws, k + 1)
  }

  /**
   * pickCategoryByCumulativeWeight: walks the entries in order with a running
   * cumulative sum and returns the first entry whose sum reaches the draw;
   * when the draw runs past the total it returns the last entry.
   */
  method PickCategoryByCumulativeWeight(ws: seq<WeightEntry>, draw: Option<int>, coin: nat)
    returns (categoryId: CategoryId)
    requires |ws| > 0
    requires draw.None? ==> TotalWeight(ws) > 0
    ensures categoryId == Pick(ws, ResolveDraw(draw, TotalWeight(ws), coin))
  {
    var totalWeight := TotalWeight(ws);
    var random := ResolveDraw(draw, totalWeight, coin);
    var cumulative := 0;
    for i := 0 to |ws|
      invariant cumulative == Prefix(ws, i)
      invariant forall j :: 1 <= j <= i ==> random > Prefix(ws, j)
    {
      PrefixStep(ws, i);
      cumulative := cumulative + ws[i].weight;
      if random <= cumulative {
        FirstCoverIsPick(ws, random, i);
        return ws[i].categoryId;
      }
    }
    FirstCoverIsPick(ws, random, |ws| - 1);
    return ws[|ws| - 1].categoryId;
  }

  lemma {:induction false} TotalWeightAppend(ws: seq<WeightEntry>, e: WeightEntry)
    ensures TotalWeight(ws + [e]) == TotalWeight(ws) + e.weight
  {
    if ws == [] {
      assert [] + [e] == [e];
    } else {
      assert (ws + [e])[1..] == ws[1..] + [e];
      TotalWeightAppend(ws[1..], e);
    }
  }

  lemma PrefixStep(ws: seq<WeightEntry>, k: nat)
    requires k < |ws|
    ensures Prefix(ws, k + 1) == Prefix(ws, k) + ws[k].weight
  {
    assert ws[..k + 1] == ws[..k] + [ws[k]];
    TotalWeightAppend(ws[..k], ws[k]);
  }

  lemma PrefixTail(ws: seq<WeightEntry>, k: nat)
    requires k < |ws|
    ensures Prefix(ws, k + 1) == ws[0].weight + Prefix(ws[1..], k)
  {
    var s := ws[..k + 1];
    assert s[0] == ws[0];
    assert s[1..] == ws[1..][..k];
  }

  lemma PrefixFull(ws: seq<WeightEntry>)
    ensures Prefix(ws, |ws|) == TotalWeight(ws)
  {
    assert ws[..|ws|] == ws;
  }

  /** With non-negative weights the cumulative sums never decrease. */
  lemma {:induction false} PrefixMonotone(ws: seq<WeightEntry>, i: nat, j: nat)
    requires forall n :: 0 <= n < |ws| ==> ws[n].weight >= 0
    requires i <= j <= |ws|
    ensures Prefix(ws, i) <= Prefix(ws, j)
  {
    if i < j {
      PrefixMonotone(ws, i, j - 1);
      PrefixStep(ws, j - 1);
    }
  }

  /**
   * The picker's result is characterised by the loop's exit condition: the
   * index `k` is the pick exactly when no earlier cumulative sum reaches the
   * draw and either the k-th does or `k` is the last index.
   */
  lemma {:induction false} FirstCoverIsPick(ws: seq<WeightEntry>, draw: int, k: nat)
    requires k < |ws|
    requires forall j :: 1 <= j <= k ==> draw > Prefix(ws, j)
    requires draw <= Prefix(ws, k + 1) || k == |ws| - 1
    ensures PickIndex(ws, draw) == k
  {
    PrefixTail(ws, 0);
    if k > 0 {
      assert draw > ws[0].weight;
      var tail, d := ws[1..], draw - ws[0].weight;
      forall j | 1 <= j <= k - 1
        ensures d > Prefix(tail, j)
      {
        PrefixTail(ws, j);
      }
      PrefixTail(ws, k);
      FirstCoverIsPick(tail, d, k - 1);
    }
  }

  /**
   * The converse of FirstCoverIsPick: no cumulative sum before the pick's
   * reaches the draw, and the pick's own does unless it is the last entry.
   */
  lemma {:induction false} PickIsFirstCover(ws: seq<WeightEntry>, draw: int)
    requires |ws| > 0
    ensures forall j :: 1 <= j <= PickIndex(ws, draw) ==> draw > Prefix(ws, j)
    ensures PickIndex(ws, draw) < |ws| - 1 ==> draw <= Prefix(ws, PickIndex(ws, draw) + 1)
  {
    PrefixTail(ws, 0);
    assert Prefix(ws[1..], 0) == 0 by { assert ws[1..][..0] == []; }
    if |ws| > 1 && draw > ws[0].weight {
      var d := draw - ws[0].weight;
      var k' := PickIndex(ws[1..], d);
      assert PickIndex(ws, draw) == k' + 1;
      PickIsFirstCover(ws[1..], d);
      forall j | 1 <= j <= k' + 1
        ensures draw > Prefix(ws, j)
      {
        PrefixTail(ws, j - 1);
      }
      PrefixTail(ws, k' + 1);
    }
  }

  /**
   * For a draw in [1, total], the pick's inclusive cumulative range contains
   * the draw (this needs no assumption on the weights).
   */
  lemma {:induction false} PickInRange(ws: seq<WeightEntry>, draw: int)
    requires |ws| > 0
    requires 1 <= draw <= TotalWeight(ws)
    ensures Prefix(ws, PickIndex(ws, draw)) < draw <= Prefix(ws, PickIndex(ws, draw) + 1)
  {
    assert Prefix(ws, 0) == 0 by { assert ws[..0] == []; }
    PrefixTail(ws, 0);
    assert Prefix(ws, 1) == ws[0].weight by { assert Prefix(ws[1..], 0) == 0 by { assert ws[1..][..0] == []; } }
    if |ws| == 1 {
      PrefixFull(ws);
    } else if ws[0].weight < draw {
      var d := draw - ws[0].weight;
      assert 1 <= d <= TotalWeight(ws[1..]);
      var k' := PickIndex(ws[1..], d);
      assert PickIndex(ws, draw) == k' + 1;
      PickInRange(ws[1..], d);
      PrefixTail(ws, k');
      PrefixTail(ws, k' + 1);
    }
  }

  /**
   * With positive weights, an entry whose inclusive cumulative range
   * contains the draw is the pick: the ranges do not overlap.
   */
  lemma RangeSelects(ws: seq<WeightEntry>, draw: int, k: nat)
    requires Positive(ws)
    requires k < |ws|
    requires Prefix(ws, k) < draw <= Prefix(ws, k + 1)
    ensures PickIndex(ws, draw) == k
  {
    forall j | 1 <= j <= k
      ensures draw > Prefix(ws, j)
    {
      PrefixMonotone(ws, j, k);
    }
    FirstCoverIsPick(ws, draw, k);
  }

  /**
   * Out-of-range draws: with positive weights a draw of 0 or less picks the
   * first entry and a draw past the total picks the last.
   */
  lemma PickOutOfRange(ws: seq<WeightEntry>, draw: int)
    requires Positive(ws)
    requires |ws| > 0
    ensures draw <= 0 ==> PickIndex(ws, draw) == 0
    ensures draw > TotalWeight(ws) ==> PickIndex(ws, draw) == |ws| - 1
  {
    if draw > TotalWeight(ws) {
      PrefixFull(ws);
      forall j | 1 <= j <= |ws| - 1
        ensures draw > Prefix(ws, j)
      {
        PrefixMonotone(ws, j, |ws|);
      }
      FirstCoverIsPick(ws, draw, |ws| - 1);
    }
  }

  /**
   * The boundary table of selectContent's documentation: weights
   * holidays=5, trivia=3, news=2.
   */
  lemma BoundaryTable(holidays: CategoryId, trivia: CategoryId, news: CategoryId)
    ensures var ws := [WeightEntry(holidays, 5), WeightEntry(trivia, 3), WeightEntry(news, 2)];
      && Pick(ws, 1) == holidays && Pick(ws, 5) == holidays
      && Pick(ws, 6) == trivia && Pick(ws, 8) == trivia
      && Pick(ws, 9) == news && Pick(ws, 10) == news
  {
    var ws := [WeightEntry(holidays, 5), WeightEntry(trivia, 3), WeightEntry(news, 2)];
    var ws1 := [WeightEntry(trivia, 3), WeightEntry(news, 2)];
    var ws2 := [WeightEntry(news, 2)];
    assert ws[1..] == ws1 && ws1[1..] == ws2;
    assert PickIndex(ws2, 1) == 0 && PickIndex(ws2, 2) == 0;
    assert PickIndex(ws1, 1) == 0 && PickIndex(ws1, 3) == 0;
    assert PickIndex(ws1, 4) == 1 && PickIndex(ws1, 5) == 1;
    assert PickIndex(ws, 1) == 0 && PickIndex(ws, 5) == 0;
    assert PickIndex(ws, 6) == 1 && PickIndex(ws, 8) == 1;
    assert PickIndex(ws, 9) == 2 && PickIndex(ws, 10) == 2;
  }

  /* ---------------- Removal of an exhausted category ---------------- */

  /**
   * The working set without the probed category, renumbered:
   * every entry of that category goes, the others stay in order.
   */
  function RemoveCategory(ws: seq<WeightEntry>, categoryId: CategoryId): (r: seq<WeightEntry>)
    ensures forall e :: e in r <==> e in ws && e.categoryId != categoryId
    ensures |r| <= |ws|
    ensures categoryId in Categories(ws) ==> |r| < |ws|
    ensures Positive(ws) ==> Positive(r)
  {
    if ws == [] then []
    else
      var rest := RemoveCategory(ws[1..], categoryId);
      assert Categories(ws) == {ws[0].categoryId} + Categories(ws[1..]) by {
        assert ws == [ws[0]] + ws[1..];
      }
      if ws[0].categoryId == categoryId then rest else [ws[0]] + rest
  }

  /** The categories left after a removal are the others. */
  lemma RemovedCategories(ws: seq<WeightEntry>, categoryId: CategoryId)
    ensures Categories(RemoveCategory(ws, categoryId)) == Categories(ws) - {categoryId}
  {
    var r := RemoveCategory(ws, categoryId);
    forall cat | cat in Categories(ws) - {categoryId}
      ensures cat in Categories(r)
    {
      var e :| e in ws && e.categoryId == cat;
      assert e in r;
    }
  }

  /** Removing a category that is not in the set changes nothing. */
  lemma {:induction false} RemoveAbsentCategory(ws: seq<WeightEntry>, categoryId: CategoryId)
    requires categoryId !in Categories(ws)
    ensures RemoveCategory(ws, categoryId) == ws
  {
    if ws != [] {
      assert ws[0] in ws;
      assert Categories(ws[1..]) <= Categories(ws) by {
        forall cat | cat in Categories(ws[1..]) ensures cat in Categories(ws) {
          var e :| e in ws[1..] && e.categoryId == cat;
          assert e in ws;
        }
      }
      RemoveAbsentCategory(ws[1..], categoryId);
    }
  }

  lemma DistinctTail(ws: seq<WeightEntry>)
    requires DistinctCategories(ws) && ws != []
    ensures DistinctCategories(ws[1..]) && ws[0].categoryId !in Categories(ws[1..])
  {
    forall i, j | 0 <= i < j < |ws[1..]|
      ensures ws[1..][i].categoryId != ws[1..][j].categoryId
    {
      assert ws[1..][i] == ws[i + 1] && ws[1..][j] == ws[j + 1];
    }
  }

  /**
   * In a set with distinct categories a removal keeps them distinct and
   * removes exactly one entry, so the remaining count is one less.
   */
  lemma {:induction false} RemoveKeepsDistinct(ws: seq<WeightEntry>, categoryId: CategoryId)
    requires DistinctCategories(ws)
    ensures DistinctCategories(RemoveCategory(ws, categoryId))
    ensures categoryId in Categories(ws) ==> |RemoveCategory(ws, categoryId)| == |ws| - 1
  {
    if ws != [] {
      DistinctTail(ws);
      RemoveKeepsDistinct(ws[1..], categoryId);
      var rest := RemoveCategory(ws[1..], categoryId);
      CategoriesCons(ws);
      if ws[0].categoryId == categoryId {
        RemoveAbsentCategory(ws[1..], categoryId);
      } else {
        RemovedCategories(ws[1..], categoryId);
        ConsDistinct(ws[0], rest);
      }
    }
  }

  lemma CategoriesCons(ws: seq<WeightEntry>)
    requires ws != []
    ensures Categories(ws) == {ws[0].categoryId} + Categories(ws[1..])
  {
    assert ws == [ws[0]] + ws[1..];
  }

  /** An entry whose category is new keeps a distinct list distinct. */
  lemma ConsDistinct(e: WeightEntry, rest: seq<WeightEntry>)
    requires DistinctCategories(rest) && e.categoryId !in Categories(rest)
    ensures DistinctCategories([e] + rest)
  {
    var r := [e] + rest;
    forall i, j | 0 <= i < j < |r|
      ensures r[i].categoryId != r[j].categoryId
    {
      assert r[j] == rest[j - 1];
      if i == 0 {
        assert rest[j - 1] in rest;
      } else {
        assert r[i] == rest[i - 1];
      }
    }
  }

  /** Removal keeps the order of what remains: it distributes over concatenation. */
  lemma {:induction false} RemoveCategoryAppend(a: seq<WeightEntry>, b: seq<WeightEntry>, categoryId: CategoryId)
    ensures RemoveCategory(a + b, categoryId) == RemoveCategory(a, categoryId) + RemoveCategory(b, categoryId)
  {
    if a == [] {
      assert a + b == b;
    } else {
      assert (a + b)[0] == a[0];
      assert (a + b)[1..] == a[1..] + b;
      RemoveCategoryAppend(a[1..], b, categoryId);
    }
  }

  /* ---------------- The availability probe ---------------- */

  /** Content the probe may return: the account's, in the category, with no post and no schedule. */
  predicate Eligible(store: Store, accountId: AccountId, categoryId: CategoryId, c: Content) {
    && c in store.contents
    && c.accountId == accountId
    && c.categoryId == categoryId
    && c.id !in store.postedIds
    && c.id !in store.scheduledIds
  }

  ghost predicate Exhausted(store: Store, accountId: AccountId, categoryId: CategoryId) {
    forall c :: c in store.contents ==> !Eligible(store, accountId, categoryId, c)
  }

  /** The eligible contents, in table order. */
  function Candidates(store: Store, accountId: AccountId, categoryId: CategoryId): (cs: seq<Content>)
    ensures forall c :: c in cs <==> Eligible(store, accountId, categoryId, c)
  {
    CandidatesIn(store, store.contents, accountId, categoryId)
  }

  function CandidatesIn(store: Store, contents: seq<Content>, accountId: AccountId, categoryId: CategoryId): (cs: seq<Content>)
    ensures forall c :: c in cs <==> c in contents && Eligible(store, accountId, categoryId, c)
  {
    if contents == [] then []
    else
      var rest := CandidatesIn(store, contents[1..], accountId, categoryId);
      assert forall c :: c in contents <==> c == contents[0] || c in contents[1..];
      if Eligible(store, accountId, categoryId, contents[0]) then [contents[0]] + rest else rest
  }

  /**
   * findAvailableContent: one eligible content of the account in the
   * category, chosen by the probe's coin, or none when there is none.
   */
  function FindAvailableContent(store: Store, accountId: AccountId, categoryId: CategoryId, tie: nat)
    : (r: Option<Content>)
    ensures r.Some? ==> Eligible(store, accountId, categoryId, r.value)
    ensures r.None? <==> Exhausted(store, accountId, categoryId)
  {
    var cs := Candidates(store, accountId, categoryId);
    if cs == [] then None
    else
      assert cs[tie % |cs|] in cs;
      Some(cs[tie % |cs|])
  }

  /** The probe's random order can surface any eligible content. */
  lemma AnyEligibleCanBeFound(store: Store, accountId: AccountId, categoryId: CategoryId, c: Content)
    requires Eligible(store, accountId, categoryId, c)
    ensures exists tie: nat :: FindAvailableContent(store, accountId, categoryId, tie) == Some(c)
  {
    var cs := Candidates(store, accountId, categoryId);
    var i :| 0 <= i < |cs| && cs[i] == c;
    assert i % |cs| == i;
    assert FindAvailableContent(store, accountId, categoryId, i) == Some(c);
  }

  /* ---------------- The cascading selector ---------------- */

  /**
   * selectFromWeights: pick a category, probe it, and on a miss remove that
   * category and recurse with the same supplied draw (a missing draw is
   * generated afresh on each attempt, as `random_int` is called again).
   * The result is eligible content of a category of the set, and there is
   * none exactly when every category of the set is exhausted.
   */
  function SelectFromWeights(store: Store, accountId: AccountId, ws: seq<WeightEntry>,
                             draw: Option<int>, coins: Coins, attempt: nat): (r: Option<Content>)
    requires Positive(ws)
    ensures r.Some? ==> r.value.categoryId in Categories(ws)
    ensures r.Some? ==> Eligible(store, accountId, r.value.categoryId, r.value)
    ensures r.None? <==> forall cat :: cat in Categories(ws) ==> Exhausted(store, accountId, cat)
    ensures ws != [] && !Exhausted(store, accountId, Pick(ws, ResolveDraw(draw, TotalWeight(ws), coins.draws(attempt)))) ==>
      r == FindAvailableContent(store, accountId, Pick(ws, ResolveDraw(draw, TotalWeight(ws), coins.draws(attempt))),
                                coins.ties(attempt))
    decreases |ws|
  {
    if ws == [] then None
    else
      var categoryId := Pick(ws, ResolveDraw(draw, TotalWeight(ws), coins.draws(attempt)));
      var content := FindAvailableContent(store, accountId, categoryId, coins.ties(attempt));
      if content.Some? then content
      else SelectFromWeights(store, accountId, RemoveCategory(ws, categoryId), draw, coins, attempt + 1)
  }

  /** The categories with a positive weight row for the account. */
  ghost function WeightedCategories(rows: seq<WeightRow>, accountId: AccountId): set<CategoryId> {
    set row | row in rows && row.accountId == accountId && row.weight > 0 :: row.categoryId
  }

  lemma LoadedCategories(rows: seq<WeightRow>, accountId: AccountId)
    ensures Categories(LoadWeights(rows, accountId)) == WeightedCategories(rows, accountId)
  {
    var ws := LoadWeights(rows, accountId);
    forall cat | cat in WeightedCategories(rows, accountId)
      ensures cat in Categories(ws)
    {
      var row :| row in rows && row.accountId == accountId && row.weight > 0 && row.categoryId == cat;
      assert WeightEntry(row.categoryId, row.weight) in ws;
    }
  }

  /**
   * selectContent: null when the account has no positive weight; otherwise
   * the cascading selection over the loaded weights. A result is eligible
   * content in a positively weighted category of the account, and there is
   * no result exactly when all those categories are exhausted.
   */
  function SelectContent(store: Store, accountId: AccountId, draw: Option<int>, coins: Coins)
    : (r: Option<Content>)
    ensures r.Some? ==> r.value.categoryId in WeightedCategories(store.weights, accountId)
    ensures r.Some? ==> Eligible(store, accountId, r.value.categoryId, r.value)
    ensures r.None? <==>
      forall cat :: cat in WeightedCategories(store.weights, accountId) ==> Exhausted(store, accountId, cat)
  {
    var weights := LoadWeights(store.weights, accountId);
    LoadedCategories(store.weights, accountId);
    if weights == [] then None
    else SelectFromWeights(store, accountId, weights, draw, coins, 0)
  }

  /** When the first pick has content, selectContent returns the probe of that category. */
  lemma SelectFollowsPick(store: Store, accountId: AccountId, draw: Option<int>, coins: Coins)
    requires LoadWeights(store.weights, accountId) != []
    requires !Exhausted(store, accountId, FirstPick(store, accountId, draw, coins))
    ensures SelectContent(store, accountId, draw, coins) ==
      FindAvailableContent(store, accountId, FirstPick(store, accountId, draw, coins), coins.ties(0))
    ensures SelectContent(store, accountId, draw, coins).Some?
    ensures SelectContent(store, accountId, draw, coins).value.categoryId == FirstPick(store, accountId, draw, coins)
  {
  }

  /** The category the first attempt of a selection picks. */
  function FirstPick(store: Store, accountId: AccountId, draw: Option<int>, coins: Coins): CategoryId
    requires LoadWeights(store.weights, accountId) != []
  {
    var ws := LoadWeights(store.weights, accountId);
    Pick(ws, ResolveDraw(draw, TotalWeight(ws), coins.draws(0)))
  }

  /**
   * The boundary tests of selectContent: weights holidays=5, trivia=3,
   * news=2 and one unposted, unscheduled content per category; each supplied
   * draw returns the content of the category its range belongs to.
   */
  lemma SelectContentBoundaries(accountId: AccountId, holidays: CategoryId, trivia: CategoryId, news: CategoryId,
                                h: Content, t: Content, n: Content, coins: Coins)
    requires holidays != trivia && trivia != news && holidays != news
    requires h.accountId == accountId && h.categoryId == holidays
    requires t.accountId == accountId && t.categoryId == trivia
    requires n.accountId == accountId && n.categoryId == news
    ensures var store := Store([WeightRow(accountId, holidays, 5), WeightRow(accountId, trivia, 3),
                                WeightRow(accountId, news, 2)], [h, t, n], {}, {});
      && SelectContent(store, accountId, Some(1), coins) == Some(h)
      && SelectContent(store, accountId, Some(5), coins) == Some(h)
      && SelectContent(store, accountId, Some(6), coins) == Some(t)
      && SelectContent(store, accountId, Some(8), coins) == Some(t)
      && SelectContent(store, accountId, Some(9), coins) == Some(n)
      && SelectContent(store, accountId, Some(10), coins) == Some(n)
  {
    var store := Store([WeightRow(accountId, holidays, 5), WeightRow(accountId, trivia, 3),
                        WeightRow(accountId, news, 2)], [h, t, n], {}, {});
    var ws := [WeightEntry(holidays, 5), WeightEntry(trivia, 3), WeightEntry(news, 2)];
    LoadThree(store.weights, accountId, holidays, trivia, news);
    assert LoadWeights(store.weights, accountId) == ws;
    BoundaryTable(holidays, trivia, news);
    OnlyCandidate(store, accountId, holidays, h);
    OnlyCandidate(store, accountId, trivia, t);
    OnlyCandidate(store, accountId, news, n);
    SelectFollowsPick(store, accountId, Some(1), coins);
    SelectFollowsPick(store, accountId, Some(5), coins);
    SelectFollowsPick(store, accountId, Some(6), coins);
    SelectFollowsPick(store, accountId, Some(8), coins);
    SelectFollowsPick(store, accountId, Some(9), coins);
    SelectFollowsPick(store, accountId, Some(10), coins);
  }

  lemma LoadThree(rows: seq<WeightRow>, accountId: AccountId, a: CategoryId, b: CategoryId, c: CategoryId)
    requires rows == [WeightRow(accountId, a, 5), WeightRow(accountId, b, 3), WeightRow(accountId, c, 2)]
    ensures LoadWeights(rows, accountId) == [WeightEntry(a, 5), WeightEntry(b, 3), WeightEntry(c, 2)]
  {
    var r1, r2 := rows[1..], rows[1..][1..];
    assert r2 == [WeightRow(accountId, c, 2)] && r2[1..] == [];
    assert LoadWeights(r2, accountId) == [WeightEntry(c, 2)];
    assert r1 == [WeightRow(accountId, b, 3), WeightRow(accountId, c, 2)];
    assert LoadWeights(r1, accountId) == [WeightEntry(b, 3), WeightEntry(c, 2)];
  }

  /** A category whose only eligible content is `c` always yields `c`. */
  lemma OnlyCandidate(store: Store, accountId: AccountId, categoryId: CategoryId, c: Content)
    requires Eligible(store, accountId, categoryId, c)
    requires forall d :: d in store.contents && d != c ==> d.categoryId != categoryId
    requires multiset(store.contents)[c] == 1
    ensures forall tie: nat :: FindAvailableContent(store, accountId, categoryId, tie) == Some(c)
  {
    var cs := Candidates(store, accountId, categoryId);
    CandidatesOne(store, store.contents, accountId, categoryId, c);
    assert cs == [c];
  }

  lemma {:induction false} CandidatesOne(store: Store, contents: seq<Content>, accountId: AccountId,
                                         categoryId: CategoryId, c: Content)
    requires Eligible(store, accountId, categoryId, c)
    requires forall d :: d in contents && d != c ==> d.categoryId != categoryId
    ensures CandidatesIn(store, contents, accountId, categoryId) == seq(multiset(contents)[c], _ => c)
  {
    if contents != [] {
      CandidatesOne(store, contents[1..], accountId, categoryId, c);
      assert contents == [contents[0]] + contents[1..];
      assert multiset(contents) == multiset{contents[0]} + multiset(contents[1..]);
      if contents[0] == c {
        assert [c] + seq(multiset(contents[1..])[c], _ => c) == seq(multiset(contents)[c], _ => c);
      }
    }
  }

  /** Loading distinct rows gives distinct categories, so a miss removes exactly one entry. */
  lemma {:induction false} LoadedDistinct(rows: seq<WeightRow>, accountId: AccountId)
    requires WellFormedWeights(rows)
    ensures DistinctCategories(LoadWeights(rows, accountId))
  {
    if rows != [] {
      var row := rows[0];
      var rest := LoadWeights(rows[1..], accountId);
      assert WellFormedWeights(rows[1..]) by {
        forall i, j | 0 <= i < j < |rows[1..]| && rows[1..][i].accountId == rows[1..][j].accountId
          ensures rows[1..][i].categoryId != rows[1..][j].categoryId
        {
          assert rows[1..][i] == rows[i + 1] && rows[1..][j] == rows[j + 1];
        }
      }
      LoadedDistinct(rows[1..], accountId);
      if row.accountId == accountId && row.weight > 0 {
        var e := WeightEntry(row.categoryId, row.weight);
        forall m | 0 <= m < |rest|
          ensures rest[m].categoryId != row.categoryId
        {
          assert rest[m] in rest;
          var r' :| r' in rows[1..] && r'.accountId == accountId && r'.weight > 0 &&
            rest[m] == WeightEntry(r'.categoryId, r'.weight);
          var n :| 0 <= n < |rows[1..]| && rows[1..][n] == r';
          assert rows[n + 1] == r';
        }
        var ws := [e] + rest;
        forall i, j | 0 <= i < j < |ws|
          ensures ws[i].categoryId != ws[j].categoryId
        {
          if i == 0 {
            assert ws[j] == rest[j - 1];
          } else {
            assert ws[i] == rest[i - 1] && ws[j] == rest[j - 1];
          }
        }
      }
    }
  }

  /**
   * A category whose weight rows for the account are all zero (or that has
   * none) is never the category of the selected content.
   */
  lemma ZeroWeightNeverSelected(store: Store, accountId: AccountId, categoryId: CategoryId,
                                draw: Option<int>, coins: Coins)
    requires forall row :: row in store.weights && row.accountId == accountId && row.categoryId == categoryId ==>
      row.weight == 0
    ensures SelectContent(store, accountId, draw, coins).Some? ==>
      SelectContent(store, accountId, draw, coins).value.categoryId != categoryId
  {
  }
}
